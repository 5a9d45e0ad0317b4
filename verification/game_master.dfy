/**
 * simulation/src/engine/GameMaster.ts: the session that drives a game. It
 * starts the game, plays turns (dice, a strategic assessment, one decided
 * action per die, the victory check, the round cap, the hand-over to the next
 * player), executes actions, answers decisions raised while an action runs,
 * ends the game and keeps an append-only log.
 *
 * The game rules it calls are not part of this model: movement, tile arrival,
 * harvesting, the victory check and the hand-over are the arrows of an
 * `Engine`, and each player's choices are the arrows of an `Agent`. An arrow
 * that can throw returns an `Attempt`. The game state is a value; the parts of
 * it the session reads are fields, the rest is the abstract `World`. Dice are
 * an input: `roll(n)` is the result of rolling n three-sided dice, which
 * ExecuteTurn requires to be n values from 1 to 3.
 */
module Session {
  import opened Common
  import TileArrivalHandler

  /** The board, players and everything else of a game state that the session only passes on. */
  type World(==)

  datatype GameState = GameState(
    currentRound: int,
    currentPlayerIndex: nat,
    currentPlayerId: int,
    currentChampionCount: nat,
    gameEnded: bool,
    winner: Option<int>,
    world: World)

  /** An action a player chooses for a die; `OtherAction` is any object with another `type`. */
  datatype GameAction =
    | MoveChampion(championId: int, path: seq<Position>, claimTile: bool)
    | MoveBoat(boatId: int, boatPath: seq<string>, boatChampionId: Option<int>, championDropPosition: Option<Position>)
    | Harvest(tilePositions: seq<Position>)
    | OtherAction(typeName: string)

  /** The outcome of a call that may throw. */
  datatype Attempt<T> = Done(value: T) | Raised(message: string)

  datatype MoveOutcome = MoveOutcome(success: bool, state: GameState, actualDestination: Position)

  datatype StepOutcome = StepOutcome(success: bool, state: GameState)

  datatype VictoryCheck = VictoryCheck(won: bool, playerId: Option<int>)

  /**
   * The game rules the session calls. Movement and harvesting get the state,
   * the action, the player id and the dice values spent on it; the arrival
   * gets the state, the player id, the champion id, the destination and
   * whether to claim; `championExists` is getChampionById(playerId, championId).
   */
  datatype Engine = Engine(
    moveChampion: (GameState, GameAction, int, seq<int>) -> Attempt<MoveOutcome>,
    moveBoat: (GameState, GameAction, int, seq<int>) -> Attempt<MoveOutcome>,
    arrive: (GameState, int, int, Position, bool) -> Attempt<StepOutcome>,
    harvest: (GameState, GameAction, int, seq<int>) -> Attempt<StepOutcome>,
    championExists: (GameState, int, int) -> bool,
    checkVictory: GameState -> VictoryCheck,
    advanceToNextPlayer: GameState -> GameState)

  datatype LogKind = Movement | Combat | HarvestEntry | Assessment | Event | System

  /** A game log entry: its round, its player id and its type; the text is not modelled. */
  datatype LogEntry = LogEntry(round: int, playerId: int, kind: LogKind)

  datatype TurnContext = TurnContext(turnNumber: int, diceRolled: seq<int>, remainingDiceValues: seq<int>)

  datatype DecisionContext = DecisionContext(description: string, options: seq<TileArrivalHandler.DecisionOption>)

  /** A player: its strategic assessment, its choice of action for a die, its answer to a decision. */
  datatype Agent = Agent(
    assess: (GameState, seq<LogEntry>, seq<int>) -> Attempt<string>,
    decideDiceAction: (GameState, seq<LogEntry>, TurnContext) -> Attempt<GameAction>,
    makeDecision: (GameState, seq<LogEntry>, DecisionContext) -> Attempt<string>)

  datatype MasterState = Setup | Playing | Finished

  datatype ActionResult = ActionResult(newGameState: GameState, success: bool)

  /** `action.championId && action.championDropPosition`: a champion id of 0 is falsy. */
  predicate CarriesChampion(a: GameAction)
    requires a.MoveBoat?
  {
    a.boatChampionId.Some? && a.boatChampionId.value != 0 && a.championDropPosition.Some?
  }

  /**
   * executeMoveChampion. The move and then the arrival must both succeed;
   * building the summary afterwards throws when the champion is not in the
   * state the move started from or the path is empty, which the caller turns
   * into a failure.
   */
  function MoveChampionResult(e: Engine, s: GameState, a: GameAction, playerId: int, diceValues: seq<int>): (r: ActionResult)
    requires a.MoveChampion?
    ensures !r.success ==> r.newGameState == s
    ensures r.success <==>
      && e.moveChampion(s, a, playerId, diceValues).Done? && e.moveChampion(s, a, playerId, diceValues).value.success
      && var m := e.moveChampion(s, a, playerId, diceValues).value;
      && var arrival := e.arrive(m.state, playerId, a.championId, m.actualDestination, a.claimTile);
      && arrival.Done? && arrival.value.success
      && e.championExists(s, playerId, a.championId) && |a.path| > 0
    ensures r.success ==>
      var m := e.moveChampion(s, a, playerId, diceValues).value;
      r.newGameState == e.arrive(m.state, playerId, a.championId, m.actualDestination, a.claimTile).value.state
  {
    match e.moveChampion(s, a, playerId, diceValues)
    case Raised(_) => ActionResult(s, false)
    case Done(m) =>
      if !m.success then ActionResult(s, false)
      else match e.arrive(m.state, playerId, a.championId, m.actualDestination, a.claimTile)
        case Raised(_) => ActionResult(s, false)
        case Done(arrival) =>
          if !arrival.success then ActionResult(s, false)
          else if !e.championExists(s, playerId, a.championId) || |a.path| == 0 then ActionResult(s, false)
          else ActionResult(arrival.state, true)
  }

  /**
   * executeMoveBoat. A failed move fails; a successful move carrying a
   * champion also needs the champion's arrival at the drop position to
   * succeed, and then yields the arrival's state; otherwise the move's state.
   */
  function MoveBoatResult(e: Engine, s: GameState, a: GameAction, playerId: int, diceValues: seq<int>): (r: ActionResult)
    requires a.MoveBoat?
    ensures !r.success ==> r.newGameState == s
    ensures r.success <==>
      && e.moveBoat(s, a, playerId, diceValues).Done? && e.moveBoat(s, a, playerId, diceValues).value.success
      && (CarriesChampion(a) ==>
            var arrival := e.arrive(e.moveBoat(s, a, playerId, diceValues).value.state, playerId,
                                    a.boatChampionId.value, a.championDropPosition.value, false);
            arrival.Done? && arrival.value.success)
    ensures r.success && !CarriesChampion(a) ==> r.newGameState == e.moveBoat(s, a, playerId, diceValues).value.state
    ensures r.success && CarriesChampion(a) ==>
      r.newGameState == e.arrive(e.moveBoat(s, a, playerId, diceValues).value.state, playerId,
                                 a.boatChampionId.value, a.championDropPosition.value, false).value.state
  {
    match e.moveBoat(s, a, playerId, diceValues)
    case Raised(_) => ActionResult(s, false)
    case Done(m) =>
      if !m.success then ActionResult(s, false)
      else if CarriesChampion(a) then
        match e.arrive(m.state, playerId, a.boatChampionId.value, a.championDropPosition.value, false)
        case Raised(_) => ActionResult(s, false)
        case Done(arrival) =>
          if !arrival.success then ActionResult(s, false) else ActionResult(arrival.state, true)
      else ActionResult(m.state, true)
  }

  /**
   * executeAction. An action of an unknown type, an exception, a failed move
   * or a failed arrival is a failure that keeps the state it was given; only
   * a harvest can report failure with another state, the one the harvest
   * itself returns.
   */
  function ExecuteAction(e: Engine, s: GameState, a: GameAction, playerId: int, diceValues: seq<int>): (r: ActionResult)
    ensures !r.success && !a.Harvest? ==> r.newGameState == s
    ensures a.OtherAction? ==> r == ActionResult(s, false)
    ensures a.Harvest? ==>
      r == (match e.harvest(s, a, playerId, diceValues)
            case Raised(_) => ActionResult(s, false)
            case Done(h) => ActionResult(h.state, h.success))
    ensures a.MoveChampion? ==> r == MoveChampionResult(e, s, a, playerId, diceValues)
    ensures a.MoveBoat? ==> r == MoveBoatResult(e, s, a, playerId, diceValues)
  {
    match a
    case MoveChampion(_, _, _) => MoveChampionResult(e, s, a, playerId, diceValues)
    case MoveBoat(_, _, _, _) => MoveBoatResult(e, s, a, playerId, diceValues)
    case Harvest(_) =>
      (match e.harvest(s, a, playerId, diceValues)
       case Raised(_) => ActionResult(s, false)
       case Done(h) => ActionResult(h.state, h.success))
    case OtherAction(_) => ActionResult(s, false)
  }

  /** getActionType: moves are movement, a harvest is a harvest, anything else is a system entry. */
  function ActionKind(a: GameAction): (k: LogKind)
    ensures k == Movement <==> a.MoveChampion? || a.MoveBoat?
    ensures k == HarvestEntry <==> a.Harvest?
    ensures k == System <==> a.OtherAction?
  {
    match a
    case MoveChampion(_, _, _) => Movement
    case MoveBoat(_, _, _, _) => Movement
    case Harvest(_) => HarvestEntry
    case OtherAction(_) => System
  }

  /** The number of dice a player rolls: two, plus one per champion beyond the first. */
  function DiceCount(s: GameState): (n: int)
    ensures n >= 1
    ensures n == 2 + (s.currentChampionCount - 1)
    ensures s.currentChampionCount >= 1 ==> n >= 2
  {
    s.currentChampionCount + 1
  }

  /** The state and the log while the dice of a turn are spent. */
  datatype DiceProgress = DiceProgress(state: GameState, log: seq<LogEntry>)

  /**
   * One die. A decision that throws skips the die; otherwise the action is
   * executed on the current state with this die's value, one entry of the action's type is logged,
   * and the state moves on only if the action succeeded.
   */
  function SpendDie(e: Engine, agent: Agent, round: int, playerId: int, dice: seq<int>, i: nat,
                    p: DiceProgress): (r: DiceProgress)
    requires i < |dice|
    ensures var decision := agent.decideDiceAction(p.state, p.log, TurnContext(round, dice, dice[i..]));
      && (decision.Raised? ==> r == p)
      && (decision.Done? ==>
            var result := ExecuteAction(e, p.state, decision.value, playerId, [dice[i]]);
            && r.log == p.log + [LogEntry(round, playerId, ActionKind(decision.value))]
            && r.state == (if result.success then result.newGameState else p.state))
  {
    match agent.decideDiceAction(p.state, p.log, TurnContext(round, dice, dice[i..]))
    case Raised(_) => p
    case Done(action) =>
      var result := ExecuteAction(e, p.state, action, playerId, [dice[i]]);
      DiceProgress(if result.success then result.newGameState else p.state,
                   p.log + [LogEntry(round, playerId, ActionKind(action))])
  }

  /** The first n dice of the turn, spent in order. */
  function SpendDice(e: Engine, agent: Agent, round: int, playerId: int, dice: seq<int>, n: nat,
                     start: DiceProgress): DiceProgress
    requires n <= |dice|
  {
    if n == 0 then start
    else SpendDie(e, agent, round, playerId, dice, n - 1, SpendDice(e, agent, round, playerId, dice, n - 1, start))
  }

  /**
   * Spending dice only appends to the log, at most one entry per die, each
   * for this turn's round and player and of an action type.
   */
  lemma {:induction false} SpendDiceAppends(e: Engine, agent: Agent, round: int, playerId: int, dice: seq<int>,
                                            n: nat, start: DiceProgress)
    requires n <= |dice|
    ensures var p := SpendDice(e, agent, round, playerId, dice, n, start);
      && start.log <= p.log
      && |p.log| <= |start.log| + n
      && forall k :: |start.log| <= k < |p.log| ==>
           p.log[k].round == round && p.log[k].playerId == playerId && p.log[k].kind in {Movement, HarvestEntry, System}
  {
    if n > 0 {
      SpendDiceAppends(e, agent, round, playerId, dice, n - 1, start);
    }
  }

  /**
   * A turn's state only ever changes through a successful action: if every
   * action fails (or every decision throws), the state is the one the turn
   * started from.
   */
  lemma {:induction false} SpendDiceFailures(e: Engine, agent: Agent, round: int, playerId: int, dice: seq<int>,
                                             n: nat, start: DiceProgress)
    requires n <= |dice|
    requires forall st, log, ctx, a, v :: agent.decideDiceAction(st, log, ctx) == Done(a) ==> !ExecuteAction(e, st, a, playerId, [v]).success
    ensures SpendDice(e, agent, round, playerId, dice, n, start).state == start.state
  {
    if n > 0 {
      SpendDiceFailures(e, agent, round, playerId, dice, n - 1, start);
    }
  }

  /**
   * Where a turn's state comes from: after n dice it is the state the turn
   * started from, or the new state of a successful action decided for one of
   * those dice on the state reached before it.
   */
  lemma {:induction false} SpendDiceStateOrigin(e: Engine, agent: Agent, round: int, playerId: int, dice: seq<int>,
                                                n: nat, start: DiceProgress)
    requires n <= |dice|
    ensures var p := SpendDice(e, agent, round, playerId, dice, n, start);
      || p.state == start.state
      || exists k :: 0 <= k < n && SuccessfulDie(e, agent, round, playerId, dice, k, start, p.state)
  {
    if n > 0 {
      SpendDiceStateOrigin(e, agent, round, playerId, dice, n - 1, start);
      var p := SpendDice(e, agent, round, playerId, dice, n, start);
      var before := SpendDice(e, agent, round, playerId, dice, n - 1, start);
      if p.state != before.state {
        assert SuccessfulDie(e, agent, round, playerId, dice, n - 1, start, p.state);
      }
    }
  }

  /** Die k's decision, taken after the first k dice, succeeds and yields `state`. */
  predicate SuccessfulDie(e: Engine, agent: Agent, round: int, playerId: int, dice: seq<int>, k: nat,
                          start: DiceProgress, state: GameState)
    requires k < |dice|
  {
    var q := SpendDice(e, agent, round, playerId, dice, k, start);
    var decision := agent.decideDiceAction(q.state, q.log, TurnContext(round, dice, dice[k..]));
    && decision.Done?
    && var result := ExecuteAction(e, q.state, decision.value, playerId, [dice[k]]);
    && result.success && result.newGameState == state
  }

  /** The end of a turn: the state, the log and whether the game finished. */
  datatype TurnEnd = TurnEnd(state: GameState, log: seq<LogEntry>, finished: bool)

  /** endGame's log entry: for the winner when the winner id is truthy, for the system (-1) otherwise. */
  function EndEntry(round: int, winnerId: Option<int>): (entry: LogEntry)
    ensures entry.kind == System && entry.round == round
    ensures winnerId.Some? && winnerId.value != 0 ==> entry.playerId == winnerId.value
    ensures winnerId.None? || winnerId.value == 0 ==> entry.playerId == -1
  {
    if winnerId.Some? && winnerId.value != 0 then LogEntry(round, winnerId.value, System)
    else LogEntry(round, -1, System)
  }

  /** endGame's effect on the state and the log. */
  function Ended(s: GameState, log: seq<LogEntry>, winnerId: Option<int>): (r: TurnEnd)
    ensures r.finished && r.state.gameEnded && r.state.winner == winnerId
    ensures r.state == s.(gameEnded := true, winner := winnerId)
    ensures r.log == log + [EndEntry(s.currentRound, winnerId)]
  {
    TurnEnd(s.(gameEnded := true, winner := winnerId), log + [EndEntry(s.currentRound, winnerId)], true)
  }

  /** The log after the dice roll entry and the (possibly absent) assessment entry. */
  function TurnOpening(agent: Agent, s: GameState, log: seq<LogEntry>, dice: seq<int>): (r: seq<LogEntry>)
    ensures var rolled := log + [LogEntry(s.currentRound, s.currentPlayerId, System)];
      r == rolled || r == rolled + [LogEntry(s.currentRound, s.currentPlayerId, Assessment)]
    ensures |r| == |log| + 2 <==> var a := agent.assess(s, log + [LogEntry(s.currentRound, s.currentPlayerId, System)], dice);
      a.Done? && a.value != ""
  {
    var rolled := log + [LogEntry(s.currentRound, s.currentPlayerId, System)];
    match agent.assess(s, rolled, dice)
    case Done(text) => if text != "" then rolled + [LogEntry(s.currentRound, s.currentPlayerId, Assessment)] else rolled
    case Raised(_) => rolled
  }

  /** The dice of a turn, spent from the opening onwards. */
  function TurnDice(e: Engine, agent: Agent, s: GameState, log: seq<LogEntry>, dice: seq<int>): DiceProgress {
    SpendDice(e, agent, s.currentRound, s.currentPlayerId, dice, |dice|, DiceProgress(s, TurnOpening(agent, s, log, dice)))
  }

  /** A whole turn of the player whose agent is given, from state s and log `log`. */
  function PlayTurn(e: Engine, agent: Agent, s: GameState, log: seq<LogEntry>, dice: seq<int>, maxRounds: int): TurnEnd
  {
    var spent := TurnDice(e, agent, s, log, dice);
    var victory := e.checkVictory(spent.state);
    if victory.won then Ended(spent.state, spent.log, victory.playerId)
    else if spent.state.currentRound >= maxRounds then Ended(spent.state, spent.log, None)
    else TurnEnd(e.advanceToNextPlayer(spent.state), spent.log, false)
  }

  /**
   * A turn appends to the log and never rewrites it: first the dice roll,
   * then at most one assessment, at most one entry per die and at most one
   * end-of-game entry. The game finishes exactly when the victory check
   * succeeds or the round cap is reached, and a finished game's state is
   * marked ended; otherwise play passes to the next player. Victory is
   * checked first: a won check names its player as winner even at the round
   * cap, and reaching the cap without a victory ends the game without one.
   */
  lemma PlayTurnProperties(e: Engine, agent: Agent, s: GameState, log: seq<LogEntry>, dice: seq<int>, maxRounds: int)
    ensures var t := PlayTurn(e, agent, s, log, dice, maxRounds);
      && log <= t.log
      && |log| < |t.log| <= |log| + |dice| + 3
      && t.log[|log|] == LogEntry(s.currentRound, s.currentPlayerId, System)
    ensures var t := PlayTurn(e, agent, s, log, dice, maxRounds);
      var spent := TurnDice(e, agent, s, log, dice);
      && (t.finished <==> e.checkVictory(spent.state).won || spent.state.currentRound >= maxRounds)
      && (t.finished ==> t.state.gameEnded)
      && (!t.finished ==> t.state == e.advanceToNextPlayer(spent.state) && t.log == spent.log)
    ensures var t := PlayTurn(e, agent, s, log, dice, maxRounds);
      var spent := TurnDice(e, agent, s, log, dice);
      var victory := e.checkVictory(spent.state);
      && (victory.won ==>
            && t.state == spent.state.(gameEnded := true, winner := victory.playerId)
            && t.log == spent.log + [EndEntry(spent.state.currentRound, victory.playerId)])
      && (!victory.won && spent.state.currentRound >= maxRounds ==>
            && t.state == spent.state.(gameEnded := true, winner := None)
            && t.log == spent.log + [LogEntry(spent.state.currentRound, -1, System)])
  {
    var opening := TurnOpening(agent, s, log, dice);
    SpendDiceAppends(e, agent, s.currentRound, s.currentPlayerId, dice, |dice|, DiceProgress(s, opening));
  }

  /** What handleRuntimeDecision returns: the agent's choice, the first option, or null. */
  datatype RuntimeChoice = ChoiceValue(choice: string) | OptionValue(option: TileArrivalHandler.DecisionOption) | NullChoice

  datatype TurnOutcome = Played | NotPlaying | NoSuchPlayer

  class GameMaster {
    var gameState: GameState
    var masterState: MasterState
    var gameLog: seq<LogEntry>
    const players: seq<Agent>
    const maxRounds: int

    /** `config.maxRounds || 100`: no cap given, or a cap of 0, means 100 rounds. */
    constructor (players: seq<Agent>, initial: GameState, maxRounds: Option<int>)
      ensures this.players == players && gameState == initial
      ensures masterState == Setup && gameLog == []
      ensures this.maxRounds == (if maxRounds.Some? && maxRounds.value != 0 then maxRounds.value else 100)
    {
      this.players := players;
      gameState := initial;
      masterState := Setup;
      gameLog := [];
      this.maxRounds := if maxRounds.Some? && maxRounds.value != 0 then maxRounds.value else 100;
    }

    /** addLogEntry */
    method AddLogEntry(entry: LogEntry)
      modifies this`gameLog
      ensures gameLog == old(gameLog) + [entry]
    {
      gameLog := gameLog + [entry];
    }

    /** getGameLog: a copy of the log. */
    method GetGameLog() returns (log: seq<LogEntry>)
      ensures log == gameLog
    {
      log := gameLog;
    }

    /** start: only a session in setup starts; it then plays and logs the start. */
    method Start() returns (ok: bool)
      modifies this`masterState, this`gameLog
      ensures ok <==> old(masterState) == Setup
      ensures ok ==> masterState == Playing && gameLog == old(gameLog) + [LogEntry(0, -1, System)]
      ensures !ok ==> masterState == old(masterState) && gameLog == old(gameLog)
    {
      if masterState != Setup {
        return false;
      }
      masterState := Playing;
      AddLogEntry(LogEntry(0, -1, System));
      return true;
    }

    /** endGame */
    method EndGame(winnerId: Option<int>)
      modifies this`masterState, this`gameLog, this`gameState
      ensures masterState == Finished
      ensures TurnEnd(gameState, gameLog, true) == Ended(old(gameState), old(gameLog), winnerId)
    {
      masterState := Finished;
      AddLogEntry(EndEntry(gameState.currentRound, winnerId));
      gameState := gameState.(gameEnded := true, winner := winnerId);
    }

    /**
     * executeTurn. `roll` stands for rolling dice. A session that is not
     * playing, or whose current player index names no player, refuses the
     * turn and changes nothing.
     */
    method ExecuteTurn(e: Engine, roll: nat -> seq<int>) returns (outcome: TurnOutcome)
      requires forall n: nat :: |roll(n)| == n
      requires forall n: nat, k :: 0 <= k < |roll(n)| ==> 1 <= roll(n)[k] <= 3
      modifies this`masterState, this`gameLog, this`gameState
      ensures old(masterState) != Playing ==> outcome == NotPlaying
      ensures old(masterState) == Playing && old(gameState).currentPlayerIndex >= |players| ==> outcome == NoSuchPlayer
      ensures outcome != Played ==>
        masterState == old(masterState) && gameState == old(gameState) && gameLog == old(gameLog)
      ensures outcome == Played ==>
        && old(masterState) == Playing && old(gameState).currentPlayerIndex < |players|
        && var dice := roll(DiceCount(old(gameState)) as nat);
        && |dice| == DiceCount(old(gameState))
        && (forall k :: 0 <= k < |dice| ==> 1 <= dice[k] <= 3)
        && var t := PlayTurn(e, players[old(gameState).currentPlayerIndex], old(gameState), old(gameLog), dice, maxRounds);
        && gameState == t.state && gameLog == t.log
        && (masterState == Finished <==> t.finished)
        && (!t.finished ==> masterState == Playing)
    {
      if masterState != Playing {
        return NotPlaying;
      }
      if gameState.currentPlayerIndex >= |players| {
        return NoSuchPlayer;
      }
      var agent := players[gameState.currentPlayerIndex];
      var round, playerId := gameState.currentRound, gameState.currentPlayerId;
      var dice := roll(DiceCount(gameState) as nat);
      ghost var start, startLog := gameState, gameLog;

      AddLogEntry(LogEntry(round, playerId, System));
      var assessment := agent.assess(gameState, gameLog, dice);
      if assessment.Done? && assessment.value != "" {
        AddLogEntry(LogEntry(round, playerId, Assessment));
      }
      assert gameLog == TurnOpening(agent, start, startLog, dice);

      var remainingDice := dice;
      var currentState := gameState;
      for dieIndex := 0 to |dice|
        invariant remainingDice == dice[dieIndex..]
        invariant gameState == start && masterState == Playing
        invariant DiceProgress(currentState, gameLog)
               == SpendDice(e, agent, round, playerId, dice, dieIndex, DiceProgress(start, TurnOpening(agent, start, startLog, dice)))
      {
        var decision := agent.decideDiceAction(currentState, gameLog, TurnContext(round, dice, remainingDice));
        if decision.Done? {
          var result := ExecuteAction(e, currentState, decision.value, playerId, [dice[dieIndex]]);
          AddLogEntry(LogEntry(round, playerId, ActionKind(decision.value)));
          if result.success {
            currentState := result.newGameState;
          }
        }
        remainingDice := remainingDice[1..];
      }

      gameState := currentState;
      var victory := e.checkVictory(gameState);
      if victory.won {
        EndGame(victory.playerId);
        return Played;
      }
      if gameState.currentRound >= maxRounds {
        EndGame(None);
        return Played;
      }
      gameState := e.advanceToNextPlayer(gameState);
      return Played;
    }

    /**
     * handleRuntimeDecision. An answer is logged as one event entry and
     * returned; when the agent throws nothing is logged and the first option
     * (or null when there is none) is returned instead.
     */
    method HandleRuntimeDecision(agent: Agent, context: DecisionContext) returns (choice: RuntimeChoice)
      modifies this`gameLog
      ensures var d := agent.makeDecision(gameState, old(gameLog), context);
        && (d.Done? ==>
              && choice == ChoiceValue(d.value)
              && gameLog == old(gameLog) + [LogEntry(gameState.currentRound, gameState.currentPlayerId, Event)])
        && (d.Raised? ==>
              && gameLog == old(gameLog)
              && choice == (if |context.options| > 0 then OptionValue(context.options[0]) else NullChoice))
    {
      var decision := agent.makeDecision(gameState, gameLog, context);
      if decision.Done? {
        AddLogEntry(LogEntry(gameState.currentRound, gameState.currentPlayerId, Event));
        return ChoiceValue(decision.value);
      }
      if |context.options| > 0 {
        return OptionValue(context.options[0]);
      }
      return NullChoice;
    }
  }
}
