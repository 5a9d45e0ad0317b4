/** Values shared by every part of the model. */
module Common {

  /** A value that may be absent: TypeScript's `T | undefined`. */
  datatype Option<+T> = None | Some(value: T)

  /** A board coordinate. */
  datatype Position = Position(row: int, col: int)
}
