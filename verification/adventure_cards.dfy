/**
 * simulation/src/engine/handlers/adventureCardHandler.ts: what happens to the
 * adventure card a champion draws. The dispatcher routes the card by its type
 * to a handler, and each handler turns the outcome of the game machinery it
 * calls (the monster and event catalogues, the combat resolver, the eleven
 * event handlers, the treasure handler) into one AdventureCardResult.
 *
 * That machinery is not part of this model: its outcomes are inputs, bundled
 * in a `Collaborators` value, and the state changes it makes are left out.
 */
module AdventureCardHandler {
  import opened Common
  import opened Strings

  datatype Card = Card(cardType: string, id: string)

  /** A catalogue entry's resource record: each amount may be missing. */
  datatype CardResources = CardResources(food: Option<int>, wood: Option<int>, ore: Option<int>, gold: Option<int>)

  /** The monster catalogue's entry for a card. */
  datatype MonsterCard = MonsterCard(name: string, tier: int, might: int, fame: int, isBeast: bool, resources: CardResources)

  datatype Resources = Resources(food: int, wood: int, ore: int, gold: int)

  /** The monster placed on the tile. */
  datatype Monster = Monster(id: string, name: string, tier: int, might: int, fame: int, isBeast: bool, resources: Resources)

  /** What the combat resolver reports after placing the monster. */
  datatype CombatOutcome = CombatOutcome(victory: bool, defeat: bool, combatOccurred: bool)

  datatype EventCardResult = EventCardResult(eventProcessed: bool, errorMessage: Option<string>)

  /** An event handler either returns its result or throws an error, here given by its text. */
  datatype EventOutcome = Returned(result: EventCardResult) | Threw(error: string)

  /** The treasure handler's result, of which the adventure result keeps four fields. */
  datatype TreasureResult = TreasureResult(
    cardProcessed: bool, cardId: Option<string>, cardReturnedToDeck: Option<bool>, errorMessage: Option<string>)

  /** The outcomes of everything the handlers call. */
  datatype Collaborators = Collaborators(
    monsterCard: string -> Option<MonsterCard>,
    combat: Monster -> CombatOutcome,
    eventCardName: string -> Option<string>,
    eventHandler: string -> EventOutcome,
    treasure: string -> TreasureResult)

  datatype MonsterPlaced = MonsterPlaced(
    monsterName: string, combatOccurred: bool,
    championWon: Option<bool>, championDefeated: Option<bool>, monsterRemains: bool)

  datatype AdventureCardResult = AdventureCardResult(
    cardProcessed: bool,
    cardType: Option<string>,
    cardId: Option<string>,
    cardReturnedToDeck: Option<bool>,
    monsterPlaced: Option<MonsterPlaced>,
    eventTriggered: Option<EventCardResult>,
    errorMessage: Option<string>)

  /** A failure result with only an error message. */
  function Failure(message: string): AdventureCardResult {
    AdventureCardResult(false, None, None, None, None, None, Some(message))
  }

  /** `amount || 0`: a missing amount (or 0) reads as 0. */
  function OrZero(amount: Option<int>): (r: int)
    ensures amount.Some? ==> r == amount.value
    ensures amount.None? ==> r == 0
  {
    if amount.Some? && amount.value != 0 then amount.value else 0
  }

  /** The monster built from its catalogue entry: the card's id, the entry's stats, missing resources as 0. */
  function MakeMonster(cardId: string, card: MonsterCard): (m: Monster)
    ensures m.id == cardId && m.name == card.name && m.tier == card.tier
    ensures m.might == card.might && m.fame == card.fame && m.isBeast == card.isBeast
    ensures card.resources.food.Some? ==> m.resources.food == card.resources.food.value
    ensures card.resources.food.None? ==> m.resources.food == 0
    ensures card.resources.wood.Some? ==> m.resources.wood == card.resources.wood.value
    ensures card.resources.wood.None? ==> m.resources.wood == 0
    ensures card.resources.ore.Some? ==> m.resources.ore == card.resources.ore.value
    ensures card.resources.ore.None? ==> m.resources.ore == 0
    ensures card.resources.gold.Some? ==> m.resources.gold == card.resources.gold.value
    ensures card.resources.gold.None? ==> m.resources.gold == 0
  {
    var res := card.resources;
    Monster(cardId, card.name, card.tier, card.might, card.fame, card.isBeast,
            Resources(OrZero(res.food), OrZero(res.wood), OrZero(res.ore), OrZero(res.gold)))
  }

  /** Whether the combat resolver's outcome is one of the three the handler knows: won, lost, fled. */
  predicate Recognised(o: CombatOutcome) {
    o.victory || o.defeat || !o.combatOccurred
  }

  /**
   * handleMonsterCard. An unknown card id is an unprocessed card. Otherwise
   * the card is processed exactly when the combat outcome is recognised: a
   * victory removes the monster, a defeat or a flight leaves it on the tile,
   * and only a fought combat records a winner or a loser.
   */
  function HandleMonsterCard(cardId: string, c: Collaborators): (r: AdventureCardResult)
    ensures c.monsterCard(cardId).None? ==> r == Failure("Monster card " + cardId + " not found")
    ensures r.cardProcessed <==>
      c.monsterCard(cardId).Some? && Recognised(c.combat(MakeMonster(cardId, c.monsterCard(cardId).value)))
    ensures r.cardProcessed ==>
      && r.cardType == Some("monster") && r.cardId == Some(cardId)
      && r.monsterPlaced.Some? && r.errorMessage.None?
      && var placed := r.monsterPlaced.value;
      && var outcome := c.combat(MakeMonster(cardId, c.monsterCard(cardId).value));
      && placed.monsterName == c.monsterCard(cardId).value.name
      && (placed.monsterRemains <==> !outcome.victory)
      && (placed.championWon == Some(true) <==> outcome.victory)
      && (placed.combatOccurred <==> outcome.victory || outcome.defeat)
      && (placed.championWon.Some? || placed.championDefeated.Some? <==> placed.combatOccurred)
      && (outcome.victory ==> placed.championDefeated.None?)
      && (!outcome.victory && outcome.defeat ==> placed.championDefeated == Some(true) && placed.championWon.None?)
      && (!outcome.victory && !outcome.defeat ==> placed.championDefeated.None? && placed.championWon.None?)
    ensures !r.cardProcessed ==> r.monsterPlaced.None? && r.errorMessage.Some?
  {
    match c.monsterCard(cardId)
    case None => Failure("Monster card " + cardId + " not found")
    case Some(card) =>
      var monster := MakeMonster(cardId, card);
      var outcome := c.combat(monster);
      if outcome.victory then
        AdventureCardResult(true, Some("monster"), Some(cardId), None,
          Some(MonsterPlaced(monster.name, true, Some(true), None, false)), None, None)
      else if outcome.defeat then
        AdventureCardResult(true, Some("monster"), Some(cardId), None,
          Some(MonsterPlaced(monster.name, true, None, Some(true), true)), None, None)
      else if !outcome.combatOccurred then
        AdventureCardResult(true, Some("monster"), Some(cardId), None,
          Some(MonsterPlaced(monster.name, false, None, None, true)), None, None)
      else Failure("Unexpected combat result for monster " + monster.name)
  }

  /** The event cards that have a handler. */
  const HandledEvents: seq<string> := [
    "sudden-storm", "hungry-pests", "market-day", "thug-ambush", "landslide", "you-got-riches",
    "druid-rampage", "curse-of-the-earth", "thieving-crows", "dragon-raid", "sea-monsters"]

  /** The event result for a catalogued card: its handler's outcome, or "not implemented". */
  function EventDispatch(cardId: string, c: Collaborators): (r: EventOutcome)
    ensures cardId in HandledEvents ==> r == c.eventHandler(cardId)
    ensures cardId !in HandledEvents ==>
      r == Returned(EventCardResult(false, Some("Event card " + cardId + " not implemented")))
  {
    if cardId in HandledEvents then c.eventHandler(cardId)
    else Returned(EventCardResult(false, Some("Event card " + cardId + " not implemented")))
  }

  /**
   * handleEventCardFromAdventure. The card is processed exactly when the
   * event catalogue knows it and its handler does not throw; the handler's
   * result is then passed on unchanged, and a catalogued card without a
   * handler is processed with an unprocessed event.
   */
  function HandleEventCard(cardId: string, championId: int, c: Collaborators): (r: AdventureCardResult)
    ensures c.eventCardName(cardId).None? ==>
      r == Failure("Champion" + IntToString(championId) + " drew unknown event card " + cardId)
    ensures r.cardProcessed <==> c.eventCardName(cardId).Some? && EventDispatch(cardId, c).Returned?
    ensures r.cardProcessed ==>
      && r.cardType == Some("event") && r.cardId == Some(cardId) && r.errorMessage.None?
      && r.eventTriggered == Some(EventDispatch(cardId, c).result)
    ensures r.cardProcessed && cardId !in HandledEvents ==> !r.eventTriggered.value.eventProcessed
    ensures c.eventCardName(cardId).Some? && EventDispatch(cardId, c).Threw? ==>
      r == Failure("Error handling event card " + cardId + ": " + EventDispatch(cardId, c).error)
    ensures !r.cardProcessed ==> r.eventTriggered.None? && r.errorMessage.Some?
  {
    match c.eventCardName(cardId)
    case None => Failure("Champion" + IntToString(championId) + " drew unknown event card " + cardId)
    case Some(_) =>
      match EventDispatch(cardId, c)
      case Returned(result) => AdventureCardResult(true, Some("event"), Some(cardId), None, None, Some(result), None)
      case Threw(error) => Failure("Error handling event card " + cardId + ": " + error)
  }

  /** handleTreasureCard: the treasure handler's result under the "treasure" type. */
  function HandleTreasureCard(cardId: string, c: Collaborators): (r: AdventureCardResult)
    ensures var t := c.treasure(cardId);
      && r.cardProcessed == t.cardProcessed && r.cardId == t.cardId
      && r.cardReturnedToDeck == t.cardReturnedToDeck && r.errorMessage == t.errorMessage
    ensures r.cardType == Some("treasure") && r.monsterPlaced.None? && r.eventTriggered.None?
  {
    var t := c.treasure(cardId);
    AdventureCardResult(t.cardProcessed, Some("treasure"), t.cardId, t.cardReturnedToDeck, None, None, t.errorMessage)
  }

  /** handleEncounterCard: never processed. */
  function HandleEncounterCard(cardId: string): (r: AdventureCardResult)
    ensures !r.cardProcessed && r.cardType == Some("encounter") && r.cardId == Some(cardId)
    ensures r.errorMessage == Some("Encounter cards not implemented")
  {
    AdventureCardResult(false, Some("encounter"), Some(cardId), None, None, None, Some("Encounter cards not implemented"))
  }

  /** handleFollowerCard: never processed. */
  function HandleFollowerCard(cardId: string): (r: AdventureCardResult)
    ensures !r.cardProcessed && r.cardType == Some("follower") && r.cardId == Some(cardId)
    ensures r.errorMessage == Some("Follower cards not implemented")
  {
    AdventureCardResult(false, Some("follower"), Some(cardId), None, None, None, Some("Follower cards not implemented"))
  }

  const KnownTypes: set<string> := {"monster", "event", "treasure", "encounter", "follower"}

  /**
   * handleAdventureCard. A processed card is always reported under its own
   * type; only a monster card can report a placed monster, only an event card
   * a triggered event, only a treasure card a return to the deck; encounter
   * and follower cards and cards of an unknown type are never processed, and
   * an unprocessed card other than a treasure always says why.
   */
  function HandleAdventureCard(card: Card, championId: int, c: Collaborators): (r: AdventureCardResult)
    ensures r.cardProcessed ==> r.cardType == Some(card.cardType)
    ensures r.cardProcessed ==> card.cardType in {"monster", "event", "treasure"}
    ensures r.monsterPlaced.Some? ==> card.cardType == "monster"
    ensures r.eventTriggered.Some? ==> card.cardType == "event"
    ensures r.cardReturnedToDeck.Some? ==> card.cardType == "treasure"
    ensures !r.cardProcessed && card.cardType != "treasure" ==> r.errorMessage.Some?
    ensures card.cardType !in KnownTypes ==>
      r == Failure("Champion" + IntToString(championId) + " drew unknown card type " + card.cardType
                   + " with id " + card.id)
  {
    match card.cardType
    case "monster" => HandleMonsterCard(card.id, c)
    case "event" => HandleEventCard(card.id, championId, c)
    case "treasure" => HandleTreasureCard(card.id, c)
    case "encounter" => HandleEncounterCard(card.id)
    case "follower" => HandleFollowerCard(card.id)
    case _ =>
      Failure("Champion" + IntToString(championId) + " drew unknown card type " + card.cardType + " with id " + card.id)
  }

  /**
   * Drawing a card of a known type routes it to that type's handler, whose
   * result the dispatcher returns as it is.
   */
  lemma DispatchRoutes(card: Card, championId: int, c: Collaborators)
    ensures card.cardType == "monster" ==> HandleAdventureCard(card, championId, c) == HandleMonsterCard(card.id, c)
    ensures card.cardType == "event" ==> HandleAdventureCard(card, championId, c) == HandleEventCard(card.id, championId, c)
    ensures card.cardType == "treasure" ==> HandleAdventureCard(card, championId, c) == HandleTreasureCard(card.id, c)
    ensures card.cardType == "encounter" ==> HandleAdventureCard(card, championId, c) == HandleEncounterCard(card.id)
    ensures card.cardType == "follower" ==> HandleAdventureCard(card, championId, c) == HandleFollowerCard(card.id)
  {
  }

  /**
   * A monster that wins or is fled from stays on the tile; a monster that
   * loses does not; so a processed monster card leaves the monster exactly
   * when the champion did not win.
   */
  lemma MonsterRemainsUnlessBeaten(cardId: string, c: Collaborators)
    requires HandleMonsterCard(cardId, c).cardProcessed
    ensures var placed := HandleMonsterCard(cardId, c).monsterPlaced.value;
      placed.monsterRemains <==> placed.championWon != Some(true)
  {
  }
}
