/**
 * The per-tile rules of simulation/src/engine/handlers/tileArrivalHandler.ts,
 * applied when a champion lands on a tile. Tiles, players and champions are
 * objects whose fields the handlers change in place; each handler is a method
 * whose `modifies` clause names exactly the fields it may touch, and whose
 * postcondition ties the new values to a specification function of the old
 * ones. The properties of the rules are stated on those functions.
 *
 * Collaborators whose code is not part of this model are inputs: the number
 * of tiles the player has claimed (a board query), whether opposing champions
 * stand on the tile, whether the claim is protected, whether the champion can
 * carry another item, the outcome of the dragon encounter, and the player's
 * answer to the resource-choice question. The game's numeric settings are a
 * `Settings` value.
 */
module TileArrivalHandler {
  import opened Common
  import opened Strings

  datatype TileType = Resource | Adventure | Oasis | Mercenary | Temple | Home | Doomspire | Ocean

  datatype ResourceType = Gold | Food | Wood | Ore

  datatype Resources = Resources(food: int, wood: int, ore: int, gold: int)

  datatype Statistics = Statistics(mercenaryInteractions: int, templeInteractions: int)

  /** The GameSettings values these rules read. */
  datatype Settings = Settings(
    fameAwardForExploration: int,
    conquestMightCost: int,
    revoltFameCost: int,
    mercenaryGoldCost: int,
    mercenaryMightReward: int,
    templeFameCost: int,
    templeMightReward: int)

  /** A treasure card or a trader item that a champion can carry or leave on a tile. */
  class CarriableItem {
    const treasureCardId: Option<string>
    const traderItemId: Option<string>
    const stuck: bool

    constructor (treasureCardId: Option<string>, traderItemId: Option<string>, stuck: bool)
      ensures this.treasureCardId == treasureCardId && this.traderItemId == traderItemId
      ensures this.stuck == stuck
    {
      this.treasureCardId := treasureCardId;
      this.traderItemId := traderItemId;
      this.stuck := stuck;
    }
  }

  class Tile {
    const position: Position
    const tileType: TileType
    const tileGroup: Option<string>
    var explored: bool
    var claimedBy: Option<string>
    var adventureTokens: Option<int>
    var items: Option<seq<CarriableItem>>

    constructor (position: Position, tileType: TileType, tileGroup: Option<string>)
      ensures this.position == position && this.tileType == tileType && this.tileGroup == tileGroup
      ensures !explored && claimedBy == None && adventureTokens == None && items == None
    {
      this.position := position;
      this.tileType := tileType;
      this.tileGroup := tileGroup;
      explored := false;
      claimedBy := None;
      adventureTokens := None;
      items := None;
    }
  }

  /** The part of a player's record that the rules read and change. */
  datatype PlayerView = PlayerView(fame: int, might: int, resources: Resources, statistics: Option<Statistics>)

  class Player {
    const name: string
    const maxClaims: int
    const homePosition: Position
    var fame: int
    var might: int
    var resources: Resources
    var statistics: Option<Statistics>

    constructor (name: string, maxClaims: int, homePosition: Position)
      ensures this.name == name && this.maxClaims == maxClaims && this.homePosition == homePosition
      ensures fame == 0 && might == 0 && resources == Resources(0, 0, 0, 0)
      ensures statistics == Some(Statistics(0, 0))
    {
      this.name := name;
      this.maxClaims := maxClaims;
      this.homePosition := homePosition;
      fame, might := 0, 0;
      resources := Resources(0, 0, 0, 0);
      statistics := Some(Statistics(0, 0));
    }

    function View(): PlayerView
      reads this
    {
      PlayerView(fame, might, resources, statistics)
    }
  }

  class Champion {
    const id: int
    var position: Position
    var items: seq<CarriableItem>

    constructor (id: int, position: Position)
      ensures this.id == id && this.position == position && items == []
    {
      this.id := id;
      this.position := position;
      items := [];
    }
  }

  /**
   * The board's record of explored tile groups. How the board marks the tiles
   * of a group is not part of this model; the rule only asks it to do so.
   */
  class Board {
    var exploredGroups: set<string>

    constructor ()
      ensures exploredGroups == {}
    {
      exploredGroups := {};
    }
  }

  /** The nullable champion as a set of objects, for frames. */
  function ChampionSet(champion: Champion?): set<Champion> {
    if champion == null then {} else {champion}
  }

  // ===========================================================================
  // Exploration

  /** The groups a tile's group field names: none when it is undefined or empty (falsy). */
  function GroupOf(tileGroup: Option<string>): set<string> {
    if tileGroup.Some? && tileGroup.value != "" then {tileGroup.value} else {}
  }

  datatype ExplorationView = ExplorationView(explored: bool, fame: int, exploredGroups: set<string>)

  /** The effect of exploration on the tile's flag, the player's fame and the board's groups. */
  function Explore(v: ExplorationView, tileGroup: Option<string>, award: int): (r: ExplorationView)
    ensures r.explored
    ensures v.explored ==> r == v
    ensures !v.explored ==> r.fame == v.fame + award && r.exploredGroups == v.exploredGroups + GroupOf(tileGroup)
  {
    if v.explored then v
    else ExplorationView(true, v.fame + award, v.exploredGroups + GroupOf(tileGroup))
  }

  /** Exploring an explored tile changes nothing, so exploring twice is exploring once. */
  lemma ExploreIdempotent(v: ExplorationView, tileGroup: Option<string>, award: int)
    ensures Explore(Explore(v, tileGroup, award), tileGroup, award) == Explore(v, tileGroup, award)
    ensures Explore(v, tileGroup, award) != v ==> !v.explored
  {
  }

  /** handleExploration */
  method HandleExploration(board: Board, tile: Tile, player: Player, settings: Settings)
    modifies tile`explored, player`fame, board`exploredGroups
    ensures ExplorationView(tile.explored, player.fame, board.exploredGroups)
         == Explore(ExplorationView(old(tile.explored), old(player.fame), old(board.exploredGroups)),
                    tile.tileGroup, settings.fameAwardForExploration)
  {
    if tile.explored {
      return;
    }
    tile.explored := true;
    if tile.tileGroup.Some? && tile.tileGroup.value != "" {
      board.exploredGroups := board.exploredGroups + {tile.tileGroup.value};
    }
    player.fame := player.fame + settings.fameAwardForExploration;
  }

  // ===========================================================================
  // Champion and monster combat: the combat itself is resolved elsewhere; these
  // only re-wrap its outcome.

  datatype ChampionCombatResult = ChampionCombatResult(combatOccurred: bool, attackerWon: Option<bool>)

  /** handleChampionCombat's mapping of the resolved combat. */
  function ChampionCombatSummary(combatOccurred: bool, victory: bool): (r: ChampionCombatResult)
    ensures r.combatOccurred == combatOccurred
    ensures r.attackerWon.Some? <==> combatOccurred
    ensures combatOccurred ==> r.attackerWon == Some(victory)
  {
    if !combatOccurred then ChampionCombatResult(false, None)
    else ChampionCombatResult(true, Some(victory))
  }

  datatype MonsterCombatResult = MonsterCombatResult(combatOccurred: bool, championWon: Option<bool>)

  /** handleMonsterCombat's mapping of the resolved combat. */
  function MonsterCombatSummary(combatOccurred: bool, victory: bool): (r: MonsterCombatResult)
    ensures r.combatOccurred == combatOccurred
    ensures r.championWon.Some? <==> combatOccurred
    ensures combatOccurred ==> r.championWon == Some(victory)
  {
    if !combatOccurred then MonsterCombatResult(false, None)
    else MonsterCombatResult(true, Some(victory))
  }

  // ===========================================================================
  // Dragon reward: two resources of the player's choice.

  function ResourceName(r: ResourceType): string {
    match r
    case Gold => "gold"
    case Food => "food"
    case Wood => "wood"
    case Ore => "ore"
  }

  /** The order of `resourceTypes` in generateResourceChoiceOptions. */
  function ResourceIndex(r: ResourceType): nat {
    match r
    case Gold => 0
    case Food => 1
    case Wood => 2
    case Ore => 3
  }

  function ResourceAt(i: nat): ResourceType
    requires i < 4
  {
    if i == 0 then Gold else if i == 1 then Food else if i == 2 then Wood else Ore
  }

  datatype DecisionOption = DecisionOption(id: string, description: string)

  /** The option for resources i and j: id "r1-r2", described as "2 r" or "1 r1 + 1 r2". */
  function OptionFor(r1: ResourceType, r2: ResourceType): DecisionOption {
    var n1, n2 := ResourceName(r1), ResourceName(r2);
    DecisionOption(n1 + "-" + n2, if r1 == r2 then "2 " + n1 else "1 " + n1 + " + 1 " + n2)
  }

  /** The pairs (i, j) of row i, for j from i up to (not including) `upTo`. */
  function RowPairs(i: nat, upTo: nat): seq<(ResourceType, ResourceType)>
    requires i < 4 && upTo <= 4
    decreases upTo
  {
    if upTo <= i then [] else RowPairs(i, upTo - 1) + [(ResourceAt(i), ResourceAt(upTo - 1))]
  }

  /** The pairs of the rows before row `upTo`. */
  function RowsBefore(upTo: nat): seq<(ResourceType, ResourceType)>
    requires upTo <= 4
  {
    if upTo == 0 then [] else RowsBefore(upTo - 1) + RowPairs(upTo - 1, 4)
  }

  function OptionsOf(pairs: seq<(ResourceType, ResourceType)>): (r: seq<DecisionOption>)
    ensures |r| == |pairs|
    ensures forall k :: 0 <= k < |pairs| ==> r[k] == OptionFor(pairs[k].0, pairs[k].1)
  {
    seq(|pairs|, k requires 0 <= k < |pairs| => OptionFor(pairs[k].0, pairs[k].1))
  }

  /** The options generateResourceChoiceOptions lists, in its order. */
  function ChoiceOptions(): seq<DecisionOption> {
    OptionsOf(RowsBefore(4))
  }

  lemma RowStart(i: nat)
    requires i < 4
    ensures OptionsOf(RowsBefore(i) + RowPairs(i, i)) == OptionsOf(RowsBefore(i))
  {
    assert RowsBefore(i) + RowPairs(i, i) == RowsBefore(i);
  }

  lemma RowStep(i: nat, j: nat)
    requires i <= j < 4
    ensures OptionsOf(RowsBefore(i) + RowPairs(i, j + 1))
         == OptionsOf(RowsBefore(i) + RowPairs(i, j)) + [OptionFor(ResourceAt(i), ResourceAt(j))]
  {
    assert RowsBefore(i) + RowPairs(i, j + 1) == (RowsBefore(i) + RowPairs(i, j)) + [(ResourceAt(i), ResourceAt(j))];
  }

  /** generateResourceChoiceOptions: the nested loop over i <= j. */
  method GenerateResourceChoiceOptions() returns (options: seq<DecisionOption>)
    ensures options == ChoiceOptions()
  {
    options := [];
    var i := 0;
    while i < 4
      invariant 0 <= i <= 4
      invariant options == OptionsOf(RowsBefore(i))
    {
      var j := i;
      RowStart(i);
      while j < 4
        invariant i <= j <= 4
        invariant options == OptionsOf(RowsBefore(i) + RowPairs(i, j))
      {
        RowStep(i, j);
        options := options + [OptionFor(ResourceAt(i), ResourceAt(j))];
        j := j + 1;
      }
      i := i + 1;
    }
  }

  /** `player.resources[name] += 1` for the four resource names; any other name is not a field of Resources. */
  function Bump(res: Resources, name: string): Resources {
    if name == "gold" then res.(gold := res.gold + 1)
    else if name == "food" then res.(food := res.food + 1)
    else if name == "wood" then res.(wood := res.wood + 1)
    else if name == "ore" then res.(ore := res.ore + 1)
    else res
  }

  /** applyResourceChoice: split the choice on '-', add one of each of the first two names. */
  function ChoiceApplied(res: Resources, choice: string): Resources {
    var parts := Split(choice, '-');
    var withFirst := Bump(res, parts[0]);
    if |parts| > 1 then Bump(withFirst, parts[1]) else withFirst
  }

  /** applyResourceChoice */
  method ApplyResourceChoice(player: Player, choice: string)
    modifies player`resources
    ensures player.resources == ChoiceApplied(old(player.resources), choice)
  {
    var parts := Split(choice, '-');
    player.resources := Bump(player.resources, parts[0]);
    if |parts| > 1 {
      player.resources := Bump(player.resources, parts[1]);
    }
  }

  function Amount(res: Resources, r: ResourceType): int {
    match r
    case Gold => res.gold
    case Food => res.food
    case Wood => res.wood
    case Ore => res.ore
  }

  function Total(res: Resources): int {
    res.food + res.wood + res.ore + res.gold
  }

  /** The (r1, r2) pairs of the options, in the order the loops produce them. */
  const Pairs: seq<(ResourceType, ResourceType)> := [
    (Gold, Gold), (Gold, Food), (Gold, Wood), (Gold, Ore),
    (Food, Food), (Food, Wood), (Food, Ore),
    (Wood, Wood), (Wood, Ore),
    (Ore, Ore)]

  lemma ChoiceOptionsListed()
    ensures ChoiceOptions() == OptionsOf(Pairs)
  {
    assert RowsBefore(4) == Pairs;
  }

  /** An option's id splits back into the two resource names it was built from. */
  lemma OptionIdSplits(r1: ResourceType, r2: ResourceType)
    ensures Split(OptionFor(r1, r2).id, '-') == [ResourceName(r1), ResourceName(r2)]
  {
    var n1, n2 := ResourceName(r1), ResourceName(r2);
    assert '-' !in n1 && '-' !in n2;
    assert OptionFor(r1, r2).id == n1 + ['-'] + n2;
    SplitAtFirstSeparator(n1, n2, '-');
    SplitWithoutSeparator(n2, '-');
  }

  /** Distinct pairs have distinct option ids. */
  lemma OptionIdInjective(r1: ResourceType, r2: ResourceType, s1: ResourceType, s2: ResourceType)
    requires OptionFor(r1, r2).id == OptionFor(s1, s2).id
    ensures r1 == s1 && r2 == s2
  {
    OptionIdSplits(r1, r2);
    OptionIdSplits(s1, s2);
    assert ResourceName(r1) == ResourceName(s1) && ResourceName(r2) == ResourceName(s2);
  }

  /** Applying the option for (r1, r2) adds one r1 and one r2: the total rises by exactly 2. */
  lemma ApplyOption(res: Resources, r1: ResourceType, r2: ResourceType)
    ensures var after := ChoiceApplied(res, OptionFor(r1, r2).id);
      && Total(after) == Total(res) + 2
      && (forall r :: Amount(after, r) == Amount(res, r) + (if r == r1 then 1 else 0) + (if r == r2 then 1 else 0))
  {
    OptionIdSplits(r1, r2);
  }

  /** Where the pair (r1, r2), r1 not after r2, sits among the options. */
  function PairIndex(r1: ResourceType, r2: ResourceType): (k: nat)
    requires ResourceIndex(r1) <= ResourceIndex(r2)
    ensures k < |Pairs| && Pairs[k] == (r1, r2)
  {
    var i, j := ResourceIndex(r1), ResourceIndex(r2);
    (if i == 0 then 0 else if i == 1 then 4 else if i == 2 then 7 else 9) + (j - i)
  }

  /** Each listed pair is ordered and sits at its own PairIndex. */
  lemma PairsOrdered()
    ensures |Pairs| == 10
    ensures forall k :: 0 <= k < |Pairs| ==>
      ResourceIndex(Pairs[k].0) <= ResourceIndex(Pairs[k].1) && PairIndex(Pairs[k].0, Pairs[k].1) == k
  {
  }

  /**
   * The options are exactly the ten unordered pairs, with repetition, of the
   * four resources: every pair (r1, r2) with r1 not after r2 in the order
   * gold, food, wood, ore has its option, no other ordered pair does, and the
   * ten ids are distinct.
   */
  lemma ChoiceOptionsArePairs()
    ensures |ChoiceOptions()| == 10
    ensures forall r1, r2 :: OptionFor(r1, r2) in ChoiceOptions() <==> ResourceIndex(r1) <= ResourceIndex(r2)
    ensures forall a, b :: 0 <= a < b < |ChoiceOptions()| ==> ChoiceOptions()[a].id != ChoiceOptions()[b].id
  {
    ChoiceOptionsListed();
    PairsOrdered();
    var opts := ChoiceOptions();
    forall r1, r2
      ensures OptionFor(r1, r2) in opts <==> ResourceIndex(r1) <= ResourceIndex(r2)
    {
      if OptionFor(r1, r2) in opts {
        var k :| 0 <= k < |opts| && opts[k] == OptionFor(r1, r2);
        OptionIdInjective(Pairs[k].0, Pairs[k].1, r1, r2);
      }
      if ResourceIndex(r1) <= ResourceIndex(r2) {
        assert opts[PairIndex(r1, r2)] == OptionFor(r1, r2);
      }
    }
    forall a, b | 0 <= a < b < |opts|
      ensures opts[a].id != opts[b].id
    {
      if opts[a].id == opts[b].id {
        OptionIdInjective(Pairs[a].0, Pairs[a].1, Pairs[b].0, Pairs[b].1);
      }
    }
  }

  /** Whichever option the player chooses, exactly two resources are added. */
  lemma ChoiceOptionsAddTwo(res: Resources)
    ensures forall o :: o in ChoiceOptions() ==> Total(ChoiceApplied(res, o.id)) == Total(res) + 2
  {
    ChoiceOptionsListed();
    var opts := ChoiceOptions();
    forall o | o in opts
      ensures Total(ChoiceApplied(res, o.id)) == Total(res) + 2
    {
      var k :| 0 <= k < |opts| && opts[k] == o;
      ApplyOption(res, Pairs[k].0, Pairs[k].1);
    }
  }

  // ===========================================================================
  // The Doomspire tile: what the dragon encounter (resolved elsewhere) means
  // for the arrival result, and the reward it may grant.

  datatype VictoryKind =
    | FameVictory | GoldVictory | EconomicVictory
    | FameVictoryFinalImpression | GoldVictoryFinalImpression | EconomicVictoryFinalImpression

  datatype AlternativeVictory = AlternativeVictory(kind: VictoryKind, playerName: string)

  datatype Impression = Impression(playerName: string, impressionType: string, impressionCount: int, needsResourceChoice: bool)

  /** The dragon combat outcome the combat resolver reports. */
  datatype DragonCombat = DragonCombat(
    victory: bool, defeat: bool, combatOccurred: bool,
    needsResourceChoice: bool, finalImpression: bool, combatDetails: Option<string>)

  /** The dragon encounter outcome the combat resolver reports. */
  datatype DragonEncounter = DragonEncounter(
    encounterOccurred: bool,
    alternativeVictory: Option<AlternativeVictory>,
    dragonImpressed: Option<Impression>,
    combatResult: Option<DragonCombat>)

  datatype DragonCombatReport = DragonCombatReport(
    championWon: bool, championDefeated: Option<bool>, combatVictory: Option<string>, combatDetails: Option<string>)

  datatype DoomspireResult = DoomspireResult(
    entered: bool,
    alternativeVictory: Option<AlternativeVictory>,
    dragonCombat: Option<DragonCombatReport>,
    dragonImpressed: Option<Impression>)

  const NotEntered := DoomspireResult(false, None, None, None)

  /** `combatDetails || "Champion fled from dragon"`: undefined and "" are falsy. */
  function FledDetails(details: Option<string>): string {
    if details.Some? && details.value != "" then details.value else "Champion fled from dragon"
  }

  /**
   * handleDoomspireTile's result for an encounter. The arrival counts as
   * entered exactly when one of the three reports is present; an alternative
   * victory takes precedence over an impression, which takes precedence over
   * a combat; a combat is reported exactly when it was won, lost or fled (a
   * combat that occurred with neither victory nor defeat is not entered); a
   * won combat names the player as combat victor exactly on the final
   * impression.
   */
  function DoomspireOutcome(enc: DragonEncounter, playerName: string): (r: DoomspireResult)
    ensures r.entered <==>
      (r.alternativeVictory.Some? || r.dragonCombat.Some? || r.dragonImpressed.Some?)
    ensures (r.alternativeVictory.Some? ==> r.dragonCombat.None? && r.dragonImpressed.None?)
         && (r.dragonImpressed.Some? ==> r.dragonCombat.None?)
    ensures !enc.encounterOccurred ==> !r.entered
    ensures r.alternativeVictory.Some? <==> enc.encounterOccurred && enc.alternativeVictory.Some?
    ensures r.alternativeVictory.Some? ==> r.alternativeVictory == enc.alternativeVictory
    ensures r.dragonImpressed.Some? <==>
      enc.encounterOccurred && enc.alternativeVictory.None? && enc.dragonImpressed.Some?
    ensures r.dragonImpressed.Some? ==> r.dragonImpressed == enc.dragonImpressed
    ensures r.dragonCombat.Some? <==>
      && enc.encounterOccurred && enc.alternativeVictory.None? && enc.dragonImpressed.None?
      && enc.combatResult.Some?
      && (enc.combatResult.value.victory || enc.combatResult.value.defeat || !enc.combatResult.value.combatOccurred)
    ensures r.dragonCombat.Some? ==>
      var c := enc.combatResult.value;
      var d := r.dragonCombat.value;
      && d.championWon == c.victory
      && (d.championWon ==> d.combatVictory == (if c.finalImpression then Some(playerName) else None))
      && (d.championWon ==> d.championDefeated.None? && d.combatDetails == c.combatDetails)
      && (!d.championWon ==> d.combatVictory == None && d.championDefeated == Some(c.defeat))
      && (!d.championWon && c.defeat ==> d.combatDetails == c.combatDetails)
      && (!d.championWon && !c.defeat ==> d.combatDetails == Some(FledDetails(c.combatDetails)))
  {
    if !enc.encounterOccurred then NotEntered
    else if enc.alternativeVictory.Some? then DoomspireResult(true, enc.alternativeVictory, None, None)
    else if enc.dragonImpressed.Some? then DoomspireResult(true, None, None, enc.dragonImpressed)
    else if enc.combatResult.Some? then
      var c := enc.combatResult.value;
      if c.victory then
        DoomspireResult(true, None,
          Some(DragonCombatReport(true, None, if c.finalImpression then Some(playerName) else None, c.combatDetails)), None)
      else if c.defeat then
        DoomspireResult(true, None, Some(DragonCombatReport(false, Some(true), None, c.combatDetails)), None)
      else if !c.combatOccurred then
        DoomspireResult(true, None, Some(DragonCombatReport(false, Some(false), None, Some(FledDetails(c.combatDetails)))), None)
      else NotEntered
    else NotEntered
  }

  /**
   * Whether the player is asked for two resources and the champion flown home:
   * an impression that needs a resource choice, or a won combat that does,
   * when there is a player agent and a game log to ask with.
   */
  predicate RewardDue(enc: DragonEncounter, agentAvailable: bool) {
    && enc.encounterOccurred && enc.alternativeVictory.None? && agentAvailable
    && if enc.dragonImpressed.Some? then enc.dragonImpressed.value.needsResourceChoice
       else enc.combatResult.Some? && enc.combatResult.value.victory && enc.combatResult.value.needsResourceChoice
  }

  /** A reward is only ever granted on an entered arrival that reports an impression or a won combat. */
  lemma RewardOnlyWhenEntered(enc: DragonEncounter, agentAvailable: bool, playerName: string)
    requires RewardDue(enc, agentAvailable)
    ensures var r := DoomspireOutcome(enc, playerName);
      r.entered && (r.dragonImpressed.Some? || (r.dragonCombat.Some? && r.dragonCombat.value.championWon))
  {
  }

  /**
   * handleDoomspireTile after the encounter has been resolved: `decide` is the
   * player agent's answer to the two-resource question given its options,
   * `champion` is gameState.getChampion (null when not found). When the
   * answer is one of the offered ids, the player gains exactly two resources.
   */
  method HandleDoomspireTile(player: Player, champion: Champion?, enc: DragonEncounter,
                             agentAvailable: bool, decide: seq<DecisionOption> -> string) returns (r: DoomspireResult)
    modifies player`resources, ChampionSet(champion)`position
    ensures r == DoomspireOutcome(enc, player.name)
    ensures RewardDue(enc, agentAvailable) ==>
      player.resources == ChoiceApplied(old(player.resources), decide(ChoiceOptions())) &&
      (champion != null ==> champion.position == player.homePosition)
    ensures RewardDue(enc, agentAvailable) && (exists o :: o in ChoiceOptions() && o.id == decide(ChoiceOptions())) ==>
      Total(player.resources) == Total(old(player.resources)) + 2
    ensures !RewardDue(enc, agentAvailable) ==>
      player.resources == old(player.resources) &&
      (champion != null ==> champion.position == old(champion.position))
  {
    if !enc.encounterOccurred {
      return NotEntered;
    }
    if enc.alternativeVictory.Some? {
      return DoomspireResult(true, enc.alternativeVictory, None, None);
    }
    if enc.dragonImpressed.Some? {
      var impression := enc.dragonImpressed.value;
      if impression.needsResourceChoice && agentAvailable {
        var options := GenerateResourceChoiceOptions();
        ApplyResourceChoice(player, decide(options));
        ChoiceOptionsAddTwo(old(player.resources));
        if champion != null {
          champion.position := player.homePosition;
        }
      }
      return DoomspireResult(true, None, None, enc.dragonImpressed);
    }
    if enc.combatResult.Some? {
      var c := enc.combatResult.value;
      if c.victory {
        if c.needsResourceChoice && agentAvailable {
          var options := GenerateResourceChoiceOptions();
          ApplyResourceChoice(player, decide(options));
          ChoiceOptionsAddTwo(old(player.resources));
          if champion != null {
            champion.position := player.homePosition;
          }
        }
        return DoomspireResult(true, None,
          Some(DragonCombatReport(true, None, if c.finalImpression then Some(player.name) else None, c.combatDetails)), None);
      } else if c.defeat {
        return DoomspireResult(true, None, Some(DragonCombatReport(false, Some(true), None, c.combatDetails)), None);
      } else if !c.combatOccurred {
        return DoomspireResult(true, None, Some(DragonCombatReport(false, Some(false), None, Some(FledDetails(c.combatDetails)))), None);
      }
    }
    return NotEntered;
  }

  // ===========================================================================
  // Claiming

  /**
   * The tile's owner after a claim request. The claim takes effect exactly
   * when it was requested, the tile is a resource tile, nobody holds it and
   * the player holds fewer tiles than its quota; it then names the player.
   */
  function ClaimResult(claimTile: bool, tileType: TileType, claimedBy: Option<string>,
                       playerName: string, claimedCount: int, maxClaims: int): (r: Option<string>)
    ensures r != claimedBy <==>
      claimTile && tileType == Resource && claimedBy == None && claimedCount < maxClaims
    ensures r != claimedBy ==> r == Some(playerName)
  {
    if !claimTile || tileType != Resource || claimedBy.Some? || claimedCount >= maxClaims then claimedBy
    else Some(playerName)
  }

  /** handleTileClaiming; `claimedCount` is the number of board tiles claimed by the player. */
  method HandleTileClaiming(tile: Tile, player: Player, claimTile: bool, claimedCount: int)
    modifies tile`claimedBy
    ensures tile.claimedBy ==
      ClaimResult(claimTile, tile.tileType, old(tile.claimedBy), player.name, claimedCount, player.maxClaims)
  {
    if !claimTile {
      return;
    }
    if tile.tileType != Resource {
      return;
    }
    if tile.claimedBy.Some? {
      return;
    }
    if claimedCount >= player.maxClaims {
      return;
    }
    tile.claimedBy := Some(player.name);
  }

  // ===========================================================================
  // Conquest and revolt

  /** Why an interaction request had no effect, or what it did. */
  datatype InteractionOutcome =
    | NothingRequested | BothRequested | NotResourceTile | UnclaimedOrOwnTile
    | OpposingChampionsPresent | ClaimProtected | InsufficientMight | InsufficientFame
    | Conquered | RevoltIncited

  datatype InteractionState = InteractionState(claimedBy: Option<string>, might: int, fame: int)

  function Max0(x: int): int { if x < 0 then 0 else x }

  /** The branch handleTileInteractions takes. */
  function InteractionBranch(conquer: bool, revolt: bool, tileType: TileType, s: InteractionState,
                             playerName: string, opposingPresent: bool, protected: bool): InteractionOutcome
  {
    if conquer && revolt then BothRequested
    else if !conquer && !revolt then NothingRequested
    else if tileType != Resource then NotResourceTile
    else if s.claimedBy == None || s.claimedBy == Some(playerName) then UnclaimedOrOwnTile
    else if opposingPresent then OpposingChampionsPresent
    else if protected then ClaimProtected
    else if conquer then (if s.might <= 0 then InsufficientMight else Conquered)
    else if s.fame <= 0 then InsufficientFame else RevoltIncited
  }

  /**
   * The tile's owner and the player's might and fame after the request.
   * Conquest and revolt exclude each other; only a resource tile held by
   * another player, with no opposing champion on it and no protecting
   * champion beside it, can change hands. Conquest needs might above zero,
   * hands the tile to the player and costs might down to no less than zero;
   * revolt needs fame above zero, clears the claim and costs fame likewise.
   * Every refusal leaves all three unchanged.
   */
  function Interact(conquer: bool, revolt: bool, tileType: TileType, s: InteractionState, playerName: string,
                    opposingPresent: bool, protected: bool, settings: Settings): (r: InteractionState)
    ensures var b := InteractionBranch(conquer, revolt, tileType, s, playerName, opposingPresent, protected);
      && (b != Conquered && b != RevoltIncited ==> r == s)
      && (b == Conquered ==> r == InteractionState(Some(playerName), Max0(s.might - settings.conquestMightCost), s.fame))
      && (b == RevoltIncited ==> r == InteractionState(None, s.might, Max0(s.fame - settings.revoltFameCost)))
    ensures (conquer == revolt || tileType != Resource || s.claimedBy == None || s.claimedBy == Some(playerName)
             || opposingPresent || protected) ==> r == s
    ensures r != s ==>
      || (conquer && s.might > 0 && r.claimedBy == Some(playerName) && r.might >= 0)
      || (revolt && s.fame > 0 && r.claimedBy == None && r.fame >= 0)
  {
    match InteractionBranch(conquer, revolt, tileType, s, playerName, opposingPresent, protected)
    case Conquered => InteractionState(Some(playerName), Max0(s.might - settings.conquestMightCost), s.fame)
    case RevoltIncited => InteractionState(None, s.might, Max0(s.fame - settings.revoltFameCost))
    case _ => s
  }

  /**
   * handleTileInteractions; `opposingPresent` is whether
   * getOpposingChampionsAtPosition found anyone, `protected` is isClaimProtected.
   */
  method HandleTileInteractions(tile: Tile, player: Player, conquer: bool, revolt: bool,
                                opposingPresent: bool, protected: bool, settings: Settings)
    returns (outcome: InteractionOutcome)
    modifies tile`claimedBy, player`might, player`fame
    ensures outcome == InteractionBranch(conquer, revolt, tile.tileType,
      InteractionState(old(tile.claimedBy), old(player.might), old(player.fame)), player.name, opposingPresent, protected)
    ensures InteractionState(tile.claimedBy, player.might, player.fame) ==
      Interact(conquer, revolt, tile.tileType, InteractionState(old(tile.claimedBy), old(player.might), old(player.fame)),
               player.name, opposingPresent, protected, settings)
  {
    if conquer && revolt {
      return BothRequested;
    }
    if !conquer && !revolt {
      return NothingRequested;
    }
    if tile.tileType != Resource {
      return NotResourceTile;
    }
    if tile.claimedBy == None || tile.claimedBy == Some(player.name) {
      return UnclaimedOrOwnTile;
    }
    if opposingPresent {
      return OpposingChampionsPresent;
    }
    if protected {
      return ClaimProtected;
    }
    if conquer {
      if player.might <= 0 {
        return InsufficientMight;
      }
      tile.claimedBy := Some(player.name);
      player.might := Max0(player.might - settings.conquestMightCost);
      outcome := Conquered;
    }
    if revolt {
      if player.fame <= 0 {
        return InsufficientFame;
      }
      tile.claimedBy := None;
      player.fame := Max0(player.fame - settings.revoltFameCost);
      outcome := RevoltIncited;
    }
  }

  // ===========================================================================
  // Adventure and oasis tiles

  datatype SpecialTileResult = SpecialTileResult(interactionOccurred: bool, adventureCardDrawn: Option<bool>)

  /** Whether a tile hands out an adventure card: an adventure or oasis tile with a token left. */
  predicate HasToken(tileType: TileType, tokens: Option<int>) {
    (tileType == Adventure || tileType == Oasis) && tokens.Some? && tokens.value > 0
  }

  /** handleSpecialTiles */
  method HandleSpecialTiles(tile: Tile) returns (r: SpecialTileResult)
    modifies tile`adventureTokens
    ensures r.interactionOccurred <==> HasToken(tile.tileType, old(tile.adventureTokens))
    ensures r.interactionOccurred ==>
      r.adventureCardDrawn == Some(true) && tile.adventureTokens == Some(old(tile.adventureTokens).value - 1)
    ensures !r.interactionOccurred ==> r.adventureCardDrawn == None && tile.adventureTokens == old(tile.adventureTokens)
  {
    if (tile.tileType != Adventure && tile.tileType != Oasis)
       || tile.adventureTokens.None? || tile.adventureTokens.value == 0 || tile.adventureTokens.value <= 0 {
      return SpecialTileResult(false, None);
    }
    tile.adventureTokens := Some(Max0(tile.adventureTokens.value - 1));
    return SpecialTileResult(true, Some(true));
  }

  // ===========================================================================
  // Items

  predicate HasId(item: CarriableItem, itemId: string) {
    item.treasureCardId == Some(itemId) || item.traderItemId == Some(itemId)
  }

  /** findCarriableItemById, with the index `indexOf` then finds: the first item carrying the id. */
  function FindItemById(items: seq<CarriableItem>, itemId: string): (r: Option<nat>)
    ensures r.Some? ==> r.value < |items| && HasId(items[r.value], itemId)
    ensures r.Some? ==> forall k :: 0 <= k < r.value ==> !HasId(items[k], itemId)
    ensures r.None? ==> forall k :: 0 <= k < |items| ==> !HasId(items[k], itemId)
  {
    if items == [] then None
    else if HasId(items[0], itemId) then Some(0)
    else match FindItemById(items[1..], itemId)
      case None => None
      case Some(k) => Some(k + 1)
  }

  function RemoveAt<T>(s: seq<T>, k: nat): seq<T>
    requires k < |s|
  {
    s[..k] + s[k + 1..]
  }

  datatype FailReason = NotCarried | Stuck | NotOnTile | InventoryFull

  datatype ItemFailure = ItemFailure(itemId: string, reason: FailReason)

  datatype ItemManagementResult = ItemManagementResult(failedPickups: seq<ItemFailure>, failedDrops: seq<ItemFailure>)

  /** What the champion carries and what lies on the tile. */
  datatype Inventory = Inventory(champion: seq<CarriableItem>, tile: seq<CarriableItem>)

  datatype StepResult = StepResult(inv: Inventory, failure: Option<ItemFailure>)

  /**
   * One drop: a missing or stuck item is a failure that moves nothing;
   * otherwise the first carried item with the id leaves the champion and is
   * appended to the tile.
   */
  function DropOne(inv: Inventory, itemId: string): (r: StepResult)
    ensures r.failure.Some? ==> r.inv == inv && r.failure.value.itemId == itemId
    ensures var f := FindItemById(inv.champion, itemId);
      && (r.failure.None? <==> f.Some? && !inv.champion[f.value].stuck)
      && (f.None? ==> r.failure == Some(ItemFailure(itemId, NotCarried)))
      && (f.Some? && inv.champion[f.value].stuck ==> r.failure == Some(ItemFailure(itemId, Stuck)))
      && (r.failure.None? ==>
            r.inv == Inventory(RemoveAt(inv.champion, f.value), inv.tile + [inv.champion[f.value]]))
  {
    match FindItemById(inv.champion, itemId)
    case None => StepResult(inv, Some(ItemFailure(itemId, NotCarried)))
    case Some(k) =>
      if inv.champion[k].stuck then StepResult(inv, Some(ItemFailure(itemId, Stuck)))
      else StepResult(Inventory(RemoveAt(inv.champion, k), inv.tile + [inv.champion[k]]), None)
  }

  /**
   * One pick-up: an item missing from the tile, or a champion who cannot
   * carry more, is a failure that moves nothing; otherwise the first tile
   * item with the id leaves the tile and is appended to the champion's items.
   */
  function PickUpOne(inv: Inventory, itemId: string, canCarry: seq<CarriableItem> -> bool): (r: StepResult)
    ensures r.failure.Some? ==> r.inv == inv && r.failure.value.itemId == itemId
    ensures var f := FindItemById(inv.tile, itemId);
      && (r.failure.None? <==> f.Some? && canCarry(inv.champion))
      && (f.None? ==> r.failure == Some(ItemFailure(itemId, NotOnTile)))
      && (f.Some? && !canCarry(inv.champion) ==> r.failure == Some(ItemFailure(itemId, InventoryFull)))
      && (r.failure.None? ==>
            r.inv == Inventory(inv.champion + [inv.tile[f.value]], RemoveAt(inv.tile, f.value)))
  {
    match FindItemById(inv.tile, itemId)
    case None => StepResult(inv, Some(ItemFailure(itemId, NotOnTile)))
    case Some(k) =>
      if !canCarry(inv.champion) then StepResult(inv, Some(ItemFailure(itemId, InventoryFull)))
      else StepResult(Inventory(inv.champion + [inv.tile[k]], RemoveAt(inv.tile, k)), None)
  }

  datatype Progress = Progress(inv: Inventory, failures: seq<ItemFailure>)

  function FailuresOf(step: StepResult): seq<ItemFailure> {
    if step.failure.Some? then [step.failure.value] else []
  }

  /** The drop loop over `ids`, in order. */
  function Drops(inv: Inventory, ids: seq<string>): Progress
  {
    if ids == [] then Progress(inv, [])
    else
      var before := Drops(inv, ids[..|ids| - 1]);
      var step := DropOne(before.inv, ids[|ids| - 1]);
      Progress(step.inv, before.failures + FailuresOf(step))
  }

  /** The pick-up loop over `ids`, in order. */
  function PickUps(inv: Inventory, ids: seq<string>, canCarry: seq<CarriableItem> -> bool): Progress
  {
    if ids == [] then Progress(inv, [])
    else
      var before := PickUps(inv, ids[..|ids| - 1], canCarry);
      var step := PickUpOne(before.inv, ids[|ids| - 1], canCarry);
      Progress(step.inv, before.failures + FailuresOf(step))
  }

  function AllItems(inv: Inventory): multiset<CarriableItem> {
    multiset(inv.champion) + multiset(inv.tile)
  }

  lemma RemoveAtMultiset<T>(s: seq<T>, k: nat)
    requires k < |s|
    ensures multiset(RemoveAt(s, k)) + multiset{s[k]} == multiset(s)
  {
    assert s == s[..k] + [s[k]] + s[k + 1..];
  }

  /** A drop moves an item from one list to the other: no item appears, vanishes or is copied. */
  lemma {:induction false} DropsPreserveItems(inv: Inventory, ids: seq<string>)
    ensures AllItems(Drops(inv, ids).inv) == AllItems(inv)
    ensures |Drops(inv, ids).failures| <= |ids|
    ensures |Drops(inv, ids).inv.tile| == |inv.tile| + |ids| - |Drops(inv, ids).failures|
  {
    if ids != [] {
      var before := Drops(inv, ids[..|ids| - 1]);
      DropsPreserveItems(inv, ids[..|ids| - 1]);
      match FindItemById(before.inv.champion, ids[|ids| - 1])
      case None =>
      case Some(k) =>
        RemoveAtMultiset(before.inv.champion, k);
    }
  }

  lemma {:induction false} PickUpsPreserveItems(inv: Inventory, ids: seq<string>, canCarry: seq<CarriableItem> -> bool)
    ensures AllItems(PickUps(inv, ids, canCarry).inv) == AllItems(inv)
    ensures |PickUps(inv, ids, canCarry).failures| <= |ids|
    ensures |PickUps(inv, ids, canCarry).inv.champion| == |inv.champion| + |ids| - |PickUps(inv, ids, canCarry).failures|
  {
    if ids != [] {
      var before := PickUps(inv, ids[..|ids| - 1], canCarry);
      PickUpsPreserveItems(inv, ids[..|ids| - 1], canCarry);
      match FindItemById(before.inv.tile, ids[|ids| - 1])
      case None =>
      case Some(k) =>
        RemoveAtMultiset(before.inv.tile, k);
    }
  }

  /** Drops never take a stuck item away from the champion: its count among the champion's items does not fall. */
  lemma {:induction false} DropsKeepStuckItems(inv: Inventory, ids: seq<string>, x: CarriableItem)
    requires x.stuck
    ensures multiset(Drops(inv, ids).inv.champion)[x] >= multiset(inv.champion)[x]
  {
    if ids != [] {
      var before := Drops(inv, ids[..|ids| - 1]);
      DropsKeepStuckItems(inv, ids[..|ids| - 1], x);
      match FindItemById(before.inv.champion, ids[|ids| - 1])
      case None =>
      case Some(k) =>
        if !before.inv.champion[k].stuck {
          RemoveAtMultiset(before.inv.champion, k);
        }
    }
  }

  /** Pick-ups only ever add to the champion's items. */
  lemma {:induction false} PickUpsOnlyAdd(inv: Inventory, ids: seq<string>, canCarry: seq<CarriableItem> -> bool)
    ensures multiset(inv.champion) <= multiset(PickUps(inv, ids, canCarry).inv.champion)
  {
    if ids != [] {
      PickUpsOnlyAdd(inv, ids[..|ids| - 1], canCarry);
    }
  }

  /** The effect of handleItemManagement on a found champion: all drops, then all pick-ups. */
  function ManageItems(inv: Inventory, pickUpItems: seq<string>, dropItems: seq<string>,
                       canCarry: seq<CarriableItem> -> bool): (r: (Inventory, ItemManagementResult))
  {
    var dropped := Drops(inv, dropItems);
    var picked := PickUps(dropped.inv, pickUpItems, canCarry);
    (picked.inv, ItemManagementResult(picked.failures, dropped.failures))
  }

  /**
   * Item management moves items between champion and tile and never creates,
   * loses or copies one; a stuck item the champion carried is still carried
   * afterwards; every request either moves exactly one item or is reported
   * as a failure, so the reports are at most one per request.
   */
  lemma ManageItemsPreserves(inv: Inventory, pickUpItems: seq<string>, dropItems: seq<string>,
                             canCarry: seq<CarriableItem> -> bool, x: CarriableItem)
    ensures AllItems(ManageItems(inv, pickUpItems, dropItems, canCarry).0) == AllItems(inv)
    ensures x.stuck ==> multiset(ManageItems(inv, pickUpItems, dropItems, canCarry).0.champion)[x] >= multiset(inv.champion)[x]
    ensures |ManageItems(inv, pickUpItems, dropItems, canCarry).1.failedDrops| <= |dropItems|
    ensures |ManageItems(inv, pickUpItems, dropItems, canCarry).1.failedPickups| <= |pickUpItems|
    ensures var dropped := Drops(inv, dropItems);
      && |dropped.inv.tile| == |inv.tile| + |dropItems| - |dropped.failures|
      && |ManageItems(inv, pickUpItems, dropItems, canCarry).0.champion|
         == |dropped.inv.champion| + |pickUpItems| - |ManageItems(inv, pickUpItems, dropItems, canCarry).1.failedPickups|
  {
    var dropped := Drops(inv, dropItems);
    DropsPreserveItems(inv, dropItems);
    PickUpsPreserveItems(dropped.inv, pickUpItems, canCarry);
    if x.stuck {
      DropsKeepStuckItems(inv, dropItems, x);
      PickUpsOnlyAdd(dropped.inv, pickUpItems, canCarry);
    }
  }

  lemma DropsStep(inv: Inventory, ids: seq<string>, i: nat)
    requires i < |ids|
    ensures var before := Drops(inv, ids[..i]);
      var step := DropOne(before.inv, ids[i]);
      Drops(inv, ids[..i + 1]) == Progress(step.inv, before.failures + FailuresOf(step))
  {
    assert ids[..i + 1][..i] == ids[..i];
  }

  lemma PickUpsStep(inv: Inventory, ids: seq<string>, i: nat, canCarry: seq<CarriableItem> -> bool)
    requires i < |ids|
    ensures var before := PickUps(inv, ids[..i], canCarry);
      var step := PickUpOne(before.inv, ids[i], canCarry);
      PickUps(inv, ids[..i + 1], canCarry) == Progress(step.inv, before.failures + FailuresOf(step))
  {
    assert ids[..i + 1][..i] == ids[..i];
  }

  /** The drop loop of handleItemManagement. */
  method DropItems(tile: Tile, champion: Champion, dropItems: seq<string>) returns (failures: seq<ItemFailure>)
    requires tile.items.Some?
    modifies tile`items, champion`items
    ensures tile.items.Some?
    ensures Drops(Inventory(old(champion.items), old(tile.items).value), dropItems)
         == Progress(Inventory(champion.items, tile.items.value), failures)
  {
    ghost var start := Inventory(champion.items, tile.items.value);
    failures := [];
    var i := 0;
    while i < |dropItems|
      invariant 0 <= i <= |dropItems|
      invariant tile.items.Some?
      invariant Drops(start, dropItems[..i]) == Progress(Inventory(champion.items, tile.items.value), failures)
    {
      var itemId := dropItems[i];
      DropsStep(start, dropItems, i);
      ghost var step := DropOne(Inventory(champion.items, tile.items.value), itemId);
      var found := FindItemById(champion.items, itemId);
      if found.None? {
        failures := failures + [ItemFailure(itemId, NotCarried)];
      } else if champion.items[found.value].stuck {
        failures := failures + [ItemFailure(itemId, Stuck)];
      } else {
        var item := champion.items[found.value];
        champion.items := RemoveAt(champion.items, found.value);
        tile.items := Some(tile.items.value + [item]);
      }
      assert Inventory(champion.items, tile.items.value) == step.inv;
      i := i + 1;
    }
    assert dropItems[..|dropItems|] == dropItems;
  }

  /** The pick-up loop of handleItemManagement. */
  method PickUpItems(tile: Tile, champion: Champion, pickUpItems: seq<string>,
                     canCarry: seq<CarriableItem> -> bool) returns (failures: seq<ItemFailure>)
    requires tile.items.Some?
    modifies tile`items, champion`items
    ensures tile.items.Some?
    ensures PickUps(Inventory(old(champion.items), old(tile.items).value), pickUpItems, canCarry)
         == Progress(Inventory(champion.items, tile.items.value), failures)
  {
    ghost var start := Inventory(champion.items, tile.items.value);
    failures := [];
    var i := 0;
    while i < |pickUpItems|
      invariant 0 <= i <= |pickUpItems|
      invariant tile.items.Some?
      invariant PickUps(start, pickUpItems[..i], canCarry) == Progress(Inventory(champion.items, tile.items.value), failures)
    {
      var itemId := pickUpItems[i];
      PickUpsStep(start, pickUpItems, i, canCarry);
      ghost var step := PickUpOne(Inventory(champion.items, tile.items.value), itemId, canCarry);
      var found := FindItemById(tile.items.value, itemId);
      if found.None? {
        failures := failures + [ItemFailure(itemId, NotOnTile)];
      } else if !canCarry(champion.items) {
        failures := failures + [ItemFailure(itemId, InventoryFull)];
      } else {
        var item := tile.items.value[found.value];
        tile.items := Some(RemoveAt(tile.items.value, found.value));
        champion.items := champion.items + [item];
      }
      assert Inventory(champion.items, tile.items.value) == step.inv;
      i := i + 1;
    }
    assert pickUpItems[..|pickUpItems|] == pickUpItems;
  }

  /**
   * handleItemManagement. `champion` is gameState.getChampion (null when not
   * found: then nothing changes); `canCarry` is canChampionCarryMoreItems on
   * the champion's current items.
   */
  method HandleItemManagement(tile: Tile, champion: Champion?, pickUpItems: seq<string>, dropItems: seq<string>,
                              canCarry: seq<CarriableItem> -> bool) returns (result: ItemManagementResult)
    modifies tile`items, ChampionSet(champion)`items
    ensures champion == null ==> result == ItemManagementResult([], []) && tile.items == old(tile.items)
    ensures champion != null ==>
      var start := Inventory(old(champion.items), if old(tile.items).Some? then old(tile.items).value else []);
      var managed := ManageItems(start, pickUpItems, dropItems, canCarry);
      && result == managed.1
      && champion.items == managed.0.champion
      && tile.items == Some(managed.0.tile)
  {
    if champion == null {
      return ItemManagementResult([], []);
    }
    if tile.items.None? {
      tile.items := Some([]);
    }
    var failedDrops := DropItems(tile, champion, dropItems);
    var failedPickups := PickUpItems(tile, champion, pickUpItems, canCarry);
    result := ItemManagementResult(failedPickups, failedDrops);
  }

  // ===========================================================================
  // Mercenary camp and temple

  datatype Refusal = WrongTileType | NotEnoughGold | NotEnoughFame

  /** MercenaryResult / TempleResult: both fields absent when the action was not requested. */
  datatype ExchangeResult = ExchangeResult(actionSuccessful: Option<bool>, reason: Option<Refusal>)

  datatype Exchange = Exchange(result: ExchangeResult, player: PlayerView)

  function BumpMercenary(s: Option<Statistics>): Option<Statistics> {
    if s.Some? then Some(s.value.(mercenaryInteractions := s.value.mercenaryInteractions + 1)) else None
  }

  function BumpTemple(s: Option<Statistics>): Option<Statistics> {
    if s.Some? then Some(s.value.(templeInteractions := s.value.templeInteractions + 1)) else None
  }

  /**
   * The mercenary exchange. It succeeds exactly when requested on a mercenary
   * tile with at least the gold it costs; then exactly that gold is paid, the
   * might reward is added and the interaction counter (if kept) rises by one,
   * and nothing else changes. Otherwise the player is unchanged.
   */
  function MercenaryExchange(use: bool, tileType: TileType, p: PlayerView, settings: Settings): (r: Exchange)
    ensures r.result.actionSuccessful == Some(true) <==>
      use && tileType == Mercenary && p.resources.gold >= settings.mercenaryGoldCost
    ensures r.result.actionSuccessful == Some(true) ==>
      && r.player.resources == p.resources.(gold := p.resources.gold - settings.mercenaryGoldCost)
      && r.player.might == p.might + settings.mercenaryMightReward
      && r.player.fame == p.fame
      && (p.statistics.Some? ==>
            && r.player.statistics.Some?
            && r.player.statistics.value.mercenaryInteractions == p.statistics.value.mercenaryInteractions + 1
            && r.player.statistics.value.templeInteractions == p.statistics.value.templeInteractions)
      && (p.statistics.None? ==> r.player.statistics.None?)
    ensures r.result.actionSuccessful != Some(true) ==> r.player == p
    ensures !use ==> r.result == ExchangeResult(None, None)
  {
    if !use then Exchange(ExchangeResult(None, None), p)
    else if tileType != Mercenary then Exchange(ExchangeResult(Some(false), Some(WrongTileType)), p)
    else if p.resources.gold < settings.mercenaryGoldCost then Exchange(ExchangeResult(Some(false), Some(NotEnoughGold)), p)
    else Exchange(ExchangeResult(Some(true), None),
      PlayerView(p.fame, p.might + settings.mercenaryMightReward,
                 p.resources.(gold := p.resources.gold - settings.mercenaryGoldCost), BumpMercenary(p.statistics)))
  }

  /** handleMercenaryAction */
  method HandleMercenaryAction(tile: Tile, player: Player, useMercenary: bool, settings: Settings)
    returns (r: ExchangeResult)
    modifies player`resources, player`might, player`statistics
    ensures Exchange(r, player.View()) == MercenaryExchange(useMercenary, tile.tileType, old(player.View()), settings)
  {
    if !useMercenary {
      return ExchangeResult(None, None);
    }
    if tile.tileType != Mercenary {
      return ExchangeResult(Some(false), Some(WrongTileType));
    }
    if player.resources.gold < settings.mercenaryGoldCost {
      return ExchangeResult(Some(false), Some(NotEnoughGold));
    }
    player.resources := player.resources.(gold := player.resources.gold - settings.mercenaryGoldCost);
    player.might := player.might + settings.mercenaryMightReward;
    if player.statistics.Some? {
      player.statistics := Some(player.statistics.value.(mercenaryInteractions := player.statistics.value.mercenaryInteractions + 1));
    }
    return ExchangeResult(Some(true), None);
  }

  /**
   * The temple exchange. It succeeds exactly when requested on a temple tile
   * with at least the fame it costs; then exactly that fame is paid, the might
   * reward is added and the temple counter (if kept) rises by one, and
   * nothing else changes. Otherwise the player is unchanged.
   */
  function TempleExchange(use: bool, tileType: TileType, p: PlayerView, settings: Settings): (r: Exchange)
    ensures r.result.actionSuccessful == Some(true) <==>
      use && tileType == Temple && p.fame >= settings.templeFameCost
    ensures r.result.actionSuccessful == Some(true) ==>
      && r.player.fame == p.fame - settings.templeFameCost
      && r.player.might == p.might + settings.templeMightReward
      && r.player.resources == p.resources
      && (p.statistics.Some? ==>
            && r.player.statistics.Some?
            && r.player.statistics.value.templeInteractions == p.statistics.value.templeInteractions + 1
            && r.player.statistics.value.mercenaryInteractions == p.statistics.value.mercenaryInteractions)
      && (p.statistics.None? ==> r.player.statistics.None?)
    ensures r.result.actionSuccessful != Some(true) ==> r.player == p
    ensures !use ==> r.result == ExchangeResult(None, None)
  {
    if !use then Exchange(ExchangeResult(None, None), p)
    else if tileType != Temple then Exchange(ExchangeResult(Some(false), Some(WrongTileType)), p)
    else if p.fame < settings.templeFameCost then Exchange(ExchangeResult(Some(false), Some(NotEnoughFame)), p)
    else Exchange(ExchangeResult(Some(true), None),
      PlayerView(p.fame - settings.templeFameCost, p.might + settings.templeMightReward,
                 p.resources, BumpTemple(p.statistics)))
  }

  /** handleTempleAction */
  method HandleTempleAction(tile: Tile, player: Player, useTemple: bool, settings: Settings)
    returns (r: ExchangeResult)
    modifies player`fame, player`might, player`statistics
    ensures Exchange(r, player.View()) == TempleExchange(useTemple, tile.tileType, old(player.View()), settings)
  {
    if !useTemple {
      return ExchangeResult(None, None);
    }
    if tile.tileType != Temple {
      return ExchangeResult(Some(false), Some(WrongTileType));
    }
    if player.fame < settings.templeFameCost {
      return ExchangeResult(Some(false), Some(NotEnoughFame));
    }
    player.fame := player.fame - settings.templeFameCost;
    player.might := player.might + settings.templeMightReward;
    if player.statistics.Some? {
      player.statistics := Some(player.statistics.value.(templeInteractions := player.statistics.value.templeInteractions + 1));
    }
    return ExchangeResult(Some(true), None);
  }
}
