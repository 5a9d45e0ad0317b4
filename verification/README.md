# Lords of Doomspire — a Dafny model of the game engine's core

Lords of Doomspire is a board game simulation: players move champions and
boats over a tile board, explore and claim resource tiles, draw adventure
cards, fight monsters and a dragon, and race for fame, gold or the dragon's
favour. This project models the core of its TypeScript engine and proves
properties of the model.

- `common.dfy` — `Option` (a value that may be `undefined`) and board `Position`.
- `strings.dfy` — the pieces of JavaScript string behaviour the rules rely
  on: decimal rendering of integers in template literals, `split` on one
  character and `join`, each with a reader that shows nothing is lost.
- `utils.dfy` (module `Utils`) — `formatResources` and `formatPosition`,
  with readers and round-trip lemmas: the text of a resource record lists
  exactly the resources above zero, in order, with their amounts.
- `ui_constants.dfy` (module `UiConstants`) — the tier colour, tier numeral
  and biome name lookups, and their agreement.
- `tile_arrival.dfy` (module `TileArrivalHandler`) — what happens when a
  champion lands on a tile: exploration, claiming, conquest and revolt,
  adventure tokens, item drops and pick-ups, the mercenary camp and temple
  exchanges, and the Doomspire tile's dragon reward with its two-resource
  choice. Tiles, players and champions are classes whose fields the
  handlers update; each handler's postcondition ties the new fields to a
  specification function of the old ones, and the rules' properties are
  proved about those functions (a conquest or revolt needs a resource tile
  held by someone else and free of defenders; item management never
  creates, loses or copies an item and never drops a stuck one; the reward
  options are exactly the ten unordered pairs of resources and each adds
  exactly two resources).
- `adventure_cards.dfy` (module `AdventureCardHandler`) — the routing of a
  drawn adventure card to its handler and the shape of the result.
- `game_master.dfy` (module `Session`) — the `GameMaster` class: starting,
  playing a turn die by die, executing actions, runtime decisions, ending the
  game and the append-only game log. A turn is specified by `PlayTurn`, built
  from a fold over the dice that the turn's loop invariant follows.

Code the engine calls but that is not part of this model — combat
resolution, the dragon encounter, movement, harvesting, tile arrival as a
whole, the victory check, the hand-over to the next player, the event and
treasure card handlers, the card catalogues and the player agents — enters as
inputs: outcome values, or arrow-typed fields of the `Engine`, `Agent` and
`Collaborators` records. Dice rolls and the player's answers are inputs too.
The game settings (`GameSettings`) are a `Settings` record, so no constant is
fixed by the model. The rest of a game state is the abstract type
`Session.World`.

JavaScript truthiness is modelled where the code relies on it: an empty tile
group is no group, an adventure token count of 0 or `undefined` gives no
card, a `maxRounds` of 0 means the default 100, a winner id of 0 ends the
game "without a winner" in the log, and a boat carrying champion id 0
transports nobody. When the agent fails to answer a runtime decision, the
session returns the first option object itself (not its id), as the code
does; `RuntimeChoice` keeps the two kinds of answer apart.

## Model

| member | source | states |
|---|---|---|
| Strings.Split | simulation/src/engine/handlers/tileArrivalHandler.ts:84 | splitting on one character always yields at least one part and no part holds the separator |
| Strings.Join | simulation/src/lib/utils.ts:21 | joining no parts gives the empty string and one part gives that part |
| Strings.ParseNatToString | simulation/src/lib/utils.ts:19 | the decimal rendering of an amount reads back as that amount |
| Strings.SplitJoin | simulation/src/lib/utils.ts:21 | splitting a join gives back the parts when no part holds the separator |
| Utils.Symbol | simulation/src/lib/utils.ts:8-13 | exactly food, wood, ore and gold have a symbol |
| Utils.SymbolName | simulation/src/lib/utils.ts:8-13 | a symbol names the resource whose symbol it is |
| Utils.RenderEntry | simulation/src/lib/utils.ts:17-20 | an amount of 1 renders as the bare symbol, a larger amount as its digits before the symbol; an unknown resource renders "undefined" after the digits, or nothing for an amount of 1 |
| Utils.Positive | simulation/src/lib/utils.ts:16 | the kept entries all have amounts above zero and come from the input; none are kept exactly when no amount is above zero |
| Utils.PositiveCounts | simulation/src/lib/utils.ts:16 | every entry with an amount above zero is kept as often as it occurs, and no other entry is |
| Utils.PositiveConcat | simulation/src/lib/utils.ts:16 | the filter keeps input order: filtering a concatenation concatenates the filtered parts |
| Utils.PositiveSingle | simulation/src/lib/utils.ts:16 | a single entry is kept exactly when its amount is above zero |
| Utils.FormatResources | simulation/src/lib/utils.ts:3-24 | a missing record gives "None"; the text is never empty |
| Utils.FormatResourcesRoundTrip | simulation/src/lib/utils.ts:15-23 | for the four known resources, the text reads back as exactly the entries above zero, in order, with their amounts |
| Utils.FormatResourcesNone | simulation/src/lib/utils.ts:23 | a known-resource record formats as "None" exactly when no amount is above zero |
| Utils.FormatPosition | simulation/src/lib/utils.ts:26-28 | the text is parenthesised |
| Utils.FormatPositionRoundTrip | simulation/src/lib/utils.ts:26-28 | the text of a position reads back as that position, so distinct positions format differently |
| UiConstants.TierBackgroundColor | simulation/src/lib/uiConstants.ts:7-29 | tiers 1-3 get their colours; every other tier, 0 and undefined get "white", and only they do |
| UiConstants.TierSolidColor | simulation/src/lib/uiConstants.ts:15-39 | tiers 1-3 get their colours; every other tier gets "#666666", and only they do |
| UiConstants.TierDisplayText | simulation/src/lib/uiConstants.ts:44-55 | tiers 1-3 get I, II, III; every other tier gets "?", and only they do |
| UiConstants.TierTablesAgree | simulation/src/lib/uiConstants.ts:7-55 | the three lookups recognise the same tiers, each is injective on them, and a numeral reads back as its tier |
| UiConstants.BiomeDisplayName | simulation/src/lib/uiConstants.ts:60-71 | the three biomes get their capitalised names; any other name is shown as it is |
| UiConstants.BiomeDisplayNameIdempotent | simulation/src/lib/uiConstants.ts:60-71 | a display name is its own display name and differs from its key only in the capital first letter |
| TileArrivalHandler.Explore | simulation/src/engine/handlers/tileArrivalHandler.ts:112-128 | an explored tile changes nothing; an unexplored one becomes explored, awards the exploration fame and marks its group (if any) explored |
| TileArrivalHandler.ExploreIdempotent | simulation/src/engine/handlers/tileArrivalHandler.ts:112-128 | exploring twice is exploring once, and any change implies the tile was unexplored |
| TileArrivalHandler.HandleExploration | simulation/src/engine/handlers/tileArrivalHandler.ts:106-129 | the tile flag, the player's fame and the explored groups become Explore of their old values |
| TileArrivalHandler.ChampionCombatSummary | simulation/src/engine/handlers/tileArrivalHandler.ts:159-173 | a winner is reported exactly when combat occurred, and it is the combat's victory |
| TileArrivalHandler.MonsterCombatSummary | simulation/src/engine/handlers/tileArrivalHandler.ts:202-216 | a champion win is reported exactly when combat occurred, and it is the combat's victory |
| TileArrivalHandler.OptionsOf | simulation/src/engine/handlers/tileArrivalHandler.ts:63-72 | one option per resource pair, in order, each with the pair's id and description |
| TileArrivalHandler.GenerateResourceChoiceOptions | simulation/src/engine/handlers/tileArrivalHandler.ts:56-78 | the nested loop yields exactly ChoiceOptions |
| TileArrivalHandler.ChoiceOptionsArePairs | simulation/src/engine/handlers/tileArrivalHandler.ts:56-78 | there are ten options, one for each pair (r1, r2) with r1 not after r2 in gold, food, wood, ore and none other, with distinct ids |
| TileArrivalHandler.OptionIdInjective | simulation/src/engine/handlers/tileArrivalHandler.ts:65 | distinct resource pairs have distinct option ids |
| TileArrivalHandler.ApplyOption | simulation/src/engine/handlers/tileArrivalHandler.ts:83-87 | applying an option's id adds one of each of its two resources, two in total |
| TileArrivalHandler.ChoiceOptionsAddTwo | simulation/src/engine/handlers/tileArrivalHandler.ts:56-87 | whichever offered option is chosen, the player's resources rise by exactly two |
| TileArrivalHandler.ApplyResourceChoice | simulation/src/engine/handlers/tileArrivalHandler.ts:83-87 | the player's resources become ChoiceApplied of the old ones |
| TileArrivalHandler.DoomspireOutcome | simulation/src/engine/handlers/tileArrivalHandler.ts:245-341 | the arrival is entered exactly when one report is present; the alternative victory is reported exactly when one occurred; the impression exactly when there is no alternative victory; a combat exactly when there is neither and it was won, lost or fled, so a combat that occurred with neither victory nor defeat is not entered; a won combat names the player as victor exactly on the final impression and keeps its details; a lost one is marked defeated, a fled one not defeated with "Champion fled from dragon" as default details |
| TileArrivalHandler.RewardOnlyWhenEntered | simulation/src/engine/handlers/tileArrivalHandler.ts:257-305 | a resource reward is only granted on an entered arrival reporting an impression or a won combat |
| TileArrivalHandler.HandleDoomspireTile | simulation/src/engine/handlers/tileArrivalHandler.ts:222-342 | the result is DoomspireOutcome; when the reward is due the agent is asked with the offered options, its answer is applied and a found champion is sent home, and an answer that is an offered id adds exactly two resources; otherwise resources and position are unchanged |
| TileArrivalHandler.ClaimResult | simulation/src/engine/handlers/tileArrivalHandler.ts:355-376 | the owner changes exactly when a claim is requested on an unclaimed resource tile by a player below the claim quota, and then it is the player |
| TileArrivalHandler.HandleTileClaiming | simulation/src/engine/handlers/tileArrivalHandler.ts:347-377 | the tile's owner becomes ClaimResult of the old owner |
| TileArrivalHandler.Interact | simulation/src/engine/handlers/tileArrivalHandler.ts:392-452 | refusals change nothing; only one of conquest and revolt, on another player's undefended, unprotected resource tile, can act; conquest needs might above zero and takes the tile, revolt needs fame above zero and frees it; each cost stops at zero |
| TileArrivalHandler.HandleTileInteractions | simulation/src/engine/handlers/tileArrivalHandler.ts:382-453 | reports the branch taken and sets owner, might and fame to Interact of their old values |
| TileArrivalHandler.HandleSpecialTiles | simulation/src/engine/handlers/tileArrivalHandler.ts:458-475 | a card is drawn exactly on an adventure or oasis tile with a token left, and then one token is used; otherwise the tokens are unchanged |
| TileArrivalHandler.FindItemById | simulation/src/engine/handlers/tileArrivalHandler.ts:679-683 | finds the first item whose treasure or trader id matches, or reports that none does |
| TileArrivalHandler.DropOne | simulation/src/engine/handlers/tileArrivalHandler.ts:527-553 | a drop succeeds exactly when the first carried item with the id exists and is not stuck, and then exactly that item moves to the end of the tile's items; otherwise nothing moves and the failure names the id with reason not carried or stuck |
| TileArrivalHandler.PickUpOne | simulation/src/engine/handlers/tileArrivalHandler.ts:558-582 | a pick-up succeeds exactly when the first tile item with the id exists and the champion can carry more, and then exactly that item moves to the end of the champion's items; otherwise nothing moves and the failure names the id with reason not on tile or inventory full |
| TileArrivalHandler.DropsPreserveItems | simulation/src/engine/handlers/tileArrivalHandler.ts:526-554 | the drops keep the multiset of champion and tile items, and every request either moves one item to the tile or is reported, so at most one failure per request |
| TileArrivalHandler.PickUpsPreserveItems | simulation/src/engine/handlers/tileArrivalHandler.ts:557-583 | the pick-ups keep the multiset of champion and tile items, and every request either moves one item to the champion or is reported, so at most one failure per request |
| TileArrivalHandler.DropsKeepStuckItems | simulation/src/engine/handlers/tileArrivalHandler.ts:536-545 | drops never lower how often a stuck item is carried |
| TileArrivalHandler.PickUpsOnlyAdd | simulation/src/engine/handlers/tileArrivalHandler.ts:576-579 | pick-ups never remove a carried item |
| TileArrivalHandler.ManageItemsPreserves | simulation/src/engine/handlers/tileArrivalHandler.ts:525-585 | drops then pick-ups neither create, lose nor copy an item, keep every stuck item carried, and every request either moves one item or is reported as a failure |
| TileArrivalHandler.DropItems | simulation/src/engine/handlers/tileArrivalHandler.ts:526-554 | the drop loop leaves champion, tile and failures as Drops of the old items |
| TileArrivalHandler.PickUpItems | simulation/src/engine/handlers/tileArrivalHandler.ts:557-583 | the pick-up loop leaves champion, tile and failures as PickUps of the old items |
| TileArrivalHandler.HandleItemManagement | simulation/src/engine/handlers/tileArrivalHandler.ts:501-586 | a missing champion changes nothing and reports nothing; otherwise a missing tile list starts empty and champion, tile and result become ManageItems of the old items |
| TileArrivalHandler.MercenaryExchange | simulation/src/engine/handlers/tileArrivalHandler.ts:599-630 | succeeds exactly when requested on a mercenary tile with enough gold; then exactly the cost is paid, the might reward added and the counter (if kept) raised; otherwise the player is unchanged |
| TileArrivalHandler.HandleMercenaryAction | simulation/src/engine/handlers/tileArrivalHandler.ts:591-631 | result and player become MercenaryExchange of the old player |
| TileArrivalHandler.TempleExchange | simulation/src/engine/handlers/tileArrivalHandler.ts:644-675 | succeeds exactly when requested on a temple tile with enough fame; then exactly the fame cost is paid, the might reward added and the counter (if kept) raised; otherwise the player is unchanged |
| TileArrivalHandler.HandleTempleAction | simulation/src/engine/handlers/tileArrivalHandler.ts:636-676 | result and player become TempleExchange of the old player |
| AdventureCardHandler.OrZero | simulation/src/engine/handlers/adventureCardHandler.ts:69-74 | a missing amount reads as 0, a present one as itself |
| AdventureCardHandler.MakeMonster | simulation/src/engine/handlers/adventureCardHandler.ts:61-75 | the monster carries the card id and catalogue stats, with missing resources as 0 |
| AdventureCardHandler.HandleMonsterCard | simulation/src/engine/handlers/adventureCardHandler.ts:40-132 | an unknown card fails with its message; a card is processed exactly when the combat outcome is won, lost or fled; the monster stays unless beaten; a win sets only championWon, a defeat only championDefeated, a flight neither, and only a fought combat counts as combat |
| AdventureCardHandler.EventDispatch | simulation/src/engine/handlers/adventureCardHandler.ts:165-195 | the eleven handled events go to their handlers; any other event is an unprocessed "not implemented" event |
| AdventureCardHandler.HandleEventCard | simulation/src/engine/handlers/adventureCardHandler.ts:137-211 | processed exactly when the event is catalogued and its handler does not throw, passing the handler's result on; an unhandled event is processed with an unprocessed event; failures carry their message |
| AdventureCardHandler.HandleTreasureCard | simulation/src/engine/handlers/adventureCardHandler.ts:216-247 | passes on the treasure handler's processed flag, id, deck return and error under the type "treasure" |
| AdventureCardHandler.HandleEncounterCard | simulation/src/engine/handlers/adventureCardHandler.ts:252-272 | never processed, with type, id and message |
| AdventureCardHandler.HandleFollowerCard | simulation/src/engine/handlers/adventureCardHandler.ts:277-297 | never processed, with type, id and message |
| AdventureCardHandler.HandleAdventureCard | simulation/src/engine/handlers/adventureCardHandler.ts:302-341 | a processed card is reported under its own type, which is monster, event or treasure; placed monsters, triggered events and deck returns come only from their own card types; an unknown type fails with its message |
| AdventureCardHandler.DispatchRoutes | simulation/src/engine/handlers/adventureCardHandler.ts:317-331 | each known card type is routed to its own handler |
| AdventureCardHandler.MonsterRemainsUnlessBeaten | simulation/src/engine/handlers/adventureCardHandler.ts:90-126 | a processed monster card leaves the monster exactly when the champion did not win |
| Session.MoveChampionResult | simulation/src/engine/GameMaster.ts:214-272 | with the player id and the die values passed to the move, and the player id to the arrival: succeeds exactly when the move and the arrival succeed and the champion and path exist, yielding the arrival's state; any failure keeps the given state |
| Session.MoveBoatResult | simulation/src/engine/GameMaster.ts:274-325 | succeeds exactly when the move succeeds and, if a champion is carried, its arrival at the drop position succeeds; yields the arrival's state when a champion is carried, the move's state otherwise; any failure keeps the given state |
| Session.ExecuteAction | simulation/src/engine/GameMaster.ts:181-341 | unknown actions and failed moves keep the state; each kind goes to its own rule with the player id and die values; a harvest passes on the harvest's state and success |
| Session.ActionKind | simulation/src/engine/GameMaster.ts:457-467 | moves are movement entries, harvests harvest entries, anything else system entries |
| Session.DiceCount | simulation/src/engine/GameMaster.ts:80-81 | two dice plus one per champion beyond the first, so at least one |
| Session.SpendDie | simulation/src/engine/GameMaster.ts:114-155 | a throwing decision skips the die; otherwise the action is executed with this die's value, one entry of the action's type is logged and the state moves on only on success |
| Session.SpendDiceAppends | simulation/src/engine/GameMaster.ts:111-155 | the dice only append to the log, at most one entry per die, each for this round and player |
| Session.SpendDiceFailures | simulation/src/engine/GameMaster.ts:142-147 | when no decided action can succeed, the dice leave the state as it was |
| Session.SpendDiceStateOrigin | simulation/src/engine/GameMaster.ts:111-155 | after the dice the state is the starting one, or the new state of a successful action decided for one of the dice on the state reached before it |
| Session.EndEntry | simulation/src/engine/GameMaster.ts:472-496 | the end entry is for the winner when the winner id is truthy, for the system otherwise |
| Session.Ended | simulation/src/engine/GameMaster.ts:469-502 | the state is marked ended with the given winner and one end entry is appended |
| Session.TurnOpening | simulation/src/engine/GameMaster.ts:85-108 | the dice roll is logged, then an assessment entry exactly when the agent returns a non-empty assessment |
| Session.PlayTurnProperties | simulation/src/engine/GameMaster.ts:69-176 | a turn only appends to the log, starting with the roll entry; the game finishes exactly on victory or at the round cap, marked ended; victory is checked first and names its winner with a winner entry, the cap without victory ends with no winner and a system entry; otherwise play passes to the next player |
| Session.GameMaster.constructor | simulation/src/engine/GameMaster.ts:30-40 | a session starts in setup with an empty log and a round cap of 100 when none or 0 is given |
| Session.GameMaster.AddLogEntry | simulation/src/engine/GameMaster.ts:417-419 | the entry is appended and nothing else in the log changes |
| Session.GameMaster.GetGameLog | simulation/src/engine/GameMaster.ts:403-405 | returns the log's entries |
| Session.GameMaster.Start | simulation/src/engine/GameMaster.ts:45-64 | only a session in setup starts; it then plays and logs one system entry; otherwise nothing changes |
| Session.GameMaster.EndGame | simulation/src/engine/GameMaster.ts:469-502 | the session finishes and state and log become Ended of the old ones |
| Session.GameMaster.ExecuteTurn | simulation/src/engine/GameMaster.ts:69-176 | a session not playing, or without the current player, refuses and changes nothing; otherwise exactly DiceCount dice, each from 1 to 3, are played and state and log become PlayTurn of the old ones; the session finishes exactly when the turn does |
| Session.GameMaster.HandleRuntimeDecision | simulation/src/engine/GameMaster.ts:346-370 | an answer is logged as one event entry and returned; when the agent throws nothing is logged and the first option, or null, is returned |

## Left out

- Combat itself (champion, monster and dragon), the dragon encounter and its victory checks: their outcomes are inputs.
- Randomness: dice rolls are the input `roll`, which ExecuteTurn requires to give n values from 1 to 3 for n dice; monster placement and card draws happen outside the model.
- Tile arrival as a whole (`handleChampionArrival`), movement, harvesting, the victory check and the hand-over to the next player: arrows of `Session.Engine`; the TileArrivalHandler class that chains the handlers is not part of this model.
- The eleven event card handlers, the treasure card handler and the card catalogues: their results are inputs, and the state changes they make are not modelled.
- The game state beyond the fields the session reads is the abstract `Session.World`; board queries (tiles claimed by a player, claim protection, opposing champions, carrying capacity) are inputs to the handlers.
- `setTileGroupToExplored` is modelled as recording the group in `Board.exploredGroups`; how the board marks the group's tiles is not modelled.
- `GameSettings` values: the rules take a `Settings` record, so no constant is fixed.
- Log and console text, `logFn`, `thinkingLogger`, log entry names and metadata, `actionToString` and `printGameSummary`: a log entry keeps its round, player id and type only; item failure reasons are an enumeration instead of text.
- Asynchrony: awaited calls are modelled as sequential calls.
- `runToCompletion`: an unbounded loop over turns, with no bound on the number of turns.
- `getGameState`, `getMasterState` and `updateGameState`: plain field accessors.
- Session.ExecuteAction: "a failure keeps the state" assumes that the engine's rules return new states instead of changing the state they were given in place; aliasing of a shared state is not modelled.
- TileArrivalHandler.ApplyResourceChoice: a resource name outside the four (possible only for an answer that is not one of the offered ids) leaves the resources unchanged (see `ChoiceApplied`), where JavaScript adds a new key with value NaN.
- TileArrivalHandler.HandleDoomspireTile: an agent whose decision throws is not modelled (the handler would reject); the agent's answer is the function `decide` of the offered options.
- Numbers are unbounded integers: JavaScript numbers are doubles, so amounts, fame, might and gold lose precision above 2^53 and `${n}` switches to exponent notation from 1e21; neither is modelled by `Strings.NatToString`, `Strings.IntToString` or the arithmetic of the rules.
- Session.MoveChampionResult: the game decks and the current player object that the arrival also receives are not modelled; the arrival arrow sees the player id only.
- Utils.FormatResources: the entries are taken in the order given; JavaScript's reordering of integer-like keys in `Object.entries` is not modelled, and amounts are integers.
- UiConstants and Utils lookups treat only the listed keys as present; inherited object keys such as "constructor" are not modelled, and tiers are integers (no NaN or fractions).
- The asset generators, the pages and `actionTypes.ts`: outside the core; `GameAction` takes its shape from its use in GameMaster.ts.
