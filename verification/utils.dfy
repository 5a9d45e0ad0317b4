/**
 * The text formatters of simulation/src/lib/utils.ts: a resource record as a
 * line of resource symbols, and a board position as "(row, col)". Each comes
 * with a reader that takes the text back apart, and a lemma that the reader
 * recovers exactly what the formatter was given.
 */
module Utils {
  import opened Common
  import opened Strings

  /** One `[type, amount]` pair of `Object.entries(resources)`, in the record's order. */
  datatype Entry = Entry(name: string, amount: int)

  const FoodSymbol: char := '\U{1F33E}'
  const WoodSymbol: char := '\U{1FAB5}'
  const OreSymbol: char := '\U{1FAA8}'
  const GoldSymbol: char := '\U{1F4B0}'

  /** `resourceSymbols[type]`: the symbol of one of the four resources, undefined otherwise. */
  function Symbol(name: string): (r: Option<char>)
    ensures r.Some? <==> name in {"food", "wood", "ore", "gold"}
  {
    if name == "food" then Some(FoodSymbol)
    else if name == "wood" then Some(WoodSymbol)
    else if name == "ore" then Some(OreSymbol)
    else if name == "gold" then Some(GoldSymbol)
    else None
  }

  /** The resource a symbol stands for: the inverse of Symbol. */
  function SymbolName(c: char): (r: Option<string>)
    ensures r.Some? ==> Symbol(r.value) == Some(c)
  {
    if c == FoodSymbol then Some("food")
    else if c == WoodSymbol then Some("wood")
    else if c == OreSymbol then Some("ore")
    else if c == GoldSymbol then Some("gold")
    else None
  }

  lemma SymbolNameOfSymbol(name: string)
    requires Symbol(name).Some?
    ensures SymbolName(Symbol(name).value) == Some(name)
  {
  }

  /**
   * The piece one entry contributes, as the `map` callback builds it: the
   * bare symbol for an amount of 1, the decimal amount before the symbol for
   * more. An unknown resource has an undefined symbol: `${amount}${symbol}`
   * then reads "undefined", and for an amount of 1 the piece itself is
   * undefined, which `join` writes as nothing.
   */
  function RenderEntry(e: Entry): (r: string)
    requires e.amount > 0
    ensures Symbol(e.name).Some? && e.amount == 1 ==> r == [Symbol(e.name).value]
    ensures Symbol(e.name).Some? && e.amount > 1 ==>
      r == NatToString(e.amount) + [Symbol(e.name).value]
    ensures Symbol(e.name).None? ==> r == (if e.amount > 1 then NatToString(e.amount) + "undefined" else "")
  {
    match Symbol(e.name)
    case Some(sym) => if e.amount > 1 then NatToString(e.amount) + [sym] else [sym]
    case None => if e.amount > 1 then NatToString(e.amount) + "undefined" else ""
  }

  /**
   * The entries the `filter` keeps: amount above zero, in input order;
   * PositiveCounts says that all of them are kept, PositiveConcat in which order.
   */
  function Positive(es: seq<Entry>): (r: seq<Entry>)
    ensures |r| <= |es|
    ensures forall k :: 0 <= k < |r| ==> r[k].amount > 0 && r[k] in es
    ensures (forall k :: 0 <= k < |es| ==> es[k].amount <= 0) <==> r == []
  {
    if es == [] then []
    else if es[0].amount > 0 then [es[0]] + Positive(es[1..])
    else Positive(es[1..])
  }

  /** Every entry with an amount above zero is kept as often as it occurs, and no other. */
  lemma {:induction false} PositiveCounts(es: seq<Entry>, e: Entry)
    ensures multiset(Positive(es))[e] == (if e.amount > 0 then multiset(es)[e] else 0)
  {
    if es != [] {
      PositiveCounts(es[1..], e);
      assert es == [es[0]] + es[1..];
    }
  }

  /** A single entry is kept exactly when its amount is above zero. */
  lemma PositiveSingle(e: Entry)
    ensures Positive([e]) == (if e.amount > 0 then [e] else [])
  {
    assert [e][1..] == [];
  }

  /**
   * The filter keeps the input order: filtering a concatenation is
   * concatenating the filtered parts.
   */
  lemma {:induction false} PositiveConcat(a: seq<Entry>, b: seq<Entry>)
    ensures Positive(a + b) == Positive(a) + Positive(b)
  {
    if a == [] {
      assert a + b == b;
    } else {
      var ab := a + b;
      assert ab[0] == a[0];
      assert ab[1..] == a[1..] + b;
      PositiveConcat(a[1..], b);
    }
  }

  function Pieces(es: seq<Entry>): (r: seq<string>)
    requires forall k :: 0 <= k < |es| ==> es[k].amount > 0
    ensures |r| == |es|
    ensures forall k :: 0 <= k < |es| ==> r[k] == RenderEntry(es[k])
  {
    seq(|es|, k requires 0 <= k < |es| => RenderEntry(es[k]))
  }

  /** formatResources: "None" for no record or when nothing is rendered, otherwise the pieces joined by single spaces. */
  function FormatResources(resources: Option<seq<Entry>>): (r: string)
    ensures resources.None? ==> r == "None"
    ensures r != ""
  {
    match resources
    case None => "None"
    case Some(es) =>
      var formatted := Join(Pieces(Positive(es)), ' ');
      if formatted == "" then "None" else formatted
  }

  /** formatPosition: "(" + row + ", " + col + ")". */
  function FormatPosition(p: Position): (r: string)
    ensures |r| >= 6 && r[0] == '(' && r[|r| - 1] == ')'
  {
    "(" + IntToString(p.row) + ", " + IntToString(p.col) + ")"
  }

  // ---------------------------------------------------------------------------
  // Readers: what a reader of the text can recover from it.

  /** Reads one piece back: an optional decimal amount (1 when absent) and a resource symbol. */
  function ParsePiece(p: string): Option<Entry>
  {
    if |p| == 0 then None
    else
      var prefix := p[..|p| - 1];
      match SymbolName(p[|p| - 1])
      case None => None
      case Some(name) =>
        if prefix == "" then Some(Entry(name, 1))
        else if AllDigits(prefix) then Some(Entry(name, ParseDigits(prefix)))
        else None
  }

  function ParsePieces(ps: seq<string>): Option<seq<Entry>>
  {
    if ps == [] then Some([])
    else match (ParsePiece(ps[0]), ParsePieces(ps[1..]))
      case (Some(e), Some(rest)) => Some([e] + rest)
      case _ => None
  }

  function ParseResources(s: string): Option<seq<Entry>>
  {
    if s == "None" then Some([]) else ParsePieces(Split(s, ' '))
  }

  function ParsePosition(s: string): Option<Position>
  {
    if |s| < 2 || s[0] != '(' || s[|s| - 1] != ')' then None
    else
      var parts := Split(s[1..|s| - 1], ',');
      if |parts| != 2 || |parts[1]| == 0 || parts[1][0] != ' ' then None
      else match (ParseInt(parts[0]), ParseInt(parts[1][1..]))
        case (Some(row), Some(col)) => Some(Position(row, col))
        case _ => None
  }

  // ---------------------------------------------------------------------------
  // Properties.

  predicate KnownNames(es: seq<Entry>) {
    forall k :: 0 <= k < |es| ==> Symbol(es[k].name).Some?
  }

  /** A rendered entry of a known resource reads back as that entry. */
  lemma ParseRenderedEntry(e: Entry)
    requires e.amount > 0 && Symbol(e.name).Some?
    ensures ParsePiece(RenderEntry(e)) == Some(e)
  {
    var p := RenderEntry(e);
    SymbolNameOfSymbol(e.name);
    if e.amount > 1 {
      assert p[..|p| - 1] == NatToString(e.amount);
      ParseNatToString(e.amount);
    }
  }

  lemma {:induction false} ParseRenderedPieces(es: seq<Entry>)
    requires forall k :: 0 <= k < |es| ==> es[k].amount > 0
    requires KnownNames(es)
    ensures ParsePieces(Pieces(es)) == Some(es)
  {
    if es != [] {
      ParseRenderedEntry(es[0]);
      ParseRenderedPieces(es[1..]);
      assert Pieces(es)[1..] == Pieces(es[1..]);
      assert [es[0]] + es[1..] == es;
    }
  }

  /**
   * For a record of the four known resources, reading the text back yields
   * exactly the entries whose amount is above zero, in their input order,
   * with their amounts; so an entry is left out iff its amount is at most
   * zero, an amount of 1 is the bare symbol, and the pieces are separated
   * by single spaces.
   */
  lemma FormatResourcesRoundTrip(es: seq<Entry>)
    requires KnownNames(es)
    ensures ParseResources(FormatResources(Some(es))) == Some(Positive(es))
  {
    var kept := Positive(es);
    if kept != [] {
      var pieces := Pieces(kept);
      forall k | 0 <= k < |pieces|
        ensures |pieces[k]| >= 1 && ' ' !in pieces[k]
      {
        assert kept[k] in es;
        RenderedPieceShape(kept[k]);
      }
      JoinEmpty(pieces, ' ');
      var formatted := Join(pieces, ' ');
      assert FormatResources(Some(es)) == formatted;
      SplitJoin(pieces, ' ');
      ParseRenderedPieces(kept);
      FormattedIsNotNone(kept);
    }
  }

  /** The text of at least one known entry is not "None": it ends in the last entry's symbol. */
  lemma FormattedIsNotNone(kept: seq<Entry>)
    requires kept != [] && KnownNames(kept)
    requires forall k :: 0 <= k < |kept| ==> kept[k].amount > 0
    ensures Join(Pieces(kept), ' ') != "None"
  {
    var pieces := Pieces(kept);
    var last := pieces[|pieces| - 1];
    RenderedPieceShape(kept[|kept| - 1]);
    JoinEndsWithLastPart(pieces, ' ');
    assert last[|last| - 1] != 'e';
  }

  /** A join whose last part is not empty ends with that part's last character. */
  lemma {:induction false} JoinEndsWithLastPart(parts: seq<string>, sep: char)
    requires |parts| >= 1 && |parts[|parts| - 1]| >= 1
    ensures var s := Join(parts, sep); var last := parts[|parts| - 1];
      |s| >= 1 && s[|s| - 1] == last[|last| - 1]
  {
    if |parts| >= 2 {
      JoinEndsWithLastPart(parts[1..], sep);
    }
  }

  /** The piece of a known resource ends in its symbol and holds no space. */
  lemma RenderedPieceShape(e: Entry)
    requires e.amount > 0 && Symbol(e.name).Some?
    ensures |RenderEntry(e)| >= 1 && ' ' !in RenderEntry(e)
    ensures RenderEntry(e)[|RenderEntry(e)| - 1] == Symbol(e.name).value
  {
    if e.amount > 1 {
      assert forall k :: 0 <= k < |NatToString(e.amount)| ==> IsDigit(NatToString(e.amount)[k]);
    }
  }

  /** "None" is the text of a known-resource record exactly when no amount is above zero. */
  lemma FormatResourcesNone(es: seq<Entry>)
    requires KnownNames(es)
    ensures FormatResources(Some(es)) == "None" <==> forall k :: 0 <= k < |es| ==> es[k].amount <= 0
  {
    FormatResourcesRoundTrip(es);
  }

  lemma IntToStringHasNoComma(i: int)
    ensures ',' !in IntToString(i)
  {
    var s := IntToString(i);
    if i < 0 {
      assert s[1..] == NatToString(-i);
      assert forall k :: 1 <= k < |s| ==> IsDigit(s[k]);
    }
  }

  /** A formatted position reads back as that position, so distinct positions format differently. */
  lemma FormatPositionRoundTrip(p: Position)
    ensures ParsePosition(FormatPosition(p)) == Some(p)
  {
    var r := IntToString(p.row);
    var c := IntToString(p.col);
    var s := FormatPosition(p);
    assert s[1..|s| - 1] == r + [','] + (" " + c);
    IntToStringHasNoComma(p.row);
    IntToStringHasNoComma(p.col);
    SplitAtFirstSeparator(r, " " + c, ',');
    assert ',' !in " " + c;
    SplitWithoutSeparator(" " + c, ',');
    assert (" " + c)[1..] == c;
    ParseIntToString(p.row);
    ParseIntToString(p.col);
  }
}
