# ccp-game turn engine in Dafny

This is a model of the turn engine of ccp-game, a 24-tile board game. A student starts in one of four neighborhoods (redlined, gentrified, middle-income or rich). Each turn they roll a die and move the rolled number of tiles backwards or forwards. Then they draw a card for the tile's location. A card changes their gems and their gpa. It can do this directly, through a die roll, or through a choice between options. At the bus stop the student takes a final exam: the exam is passed when a die roll plus the gpa reaches 10.

The project has these modules:

- `Wrappers` holds `Option`.
- `JsBuiltins` holds the pieces of JavaScript the code relies on:
  - the truncating `%`;
  - `Math.round`;
  - `Math.floor(Math.random() * n)` as an index;
  - `filter`;
  - `find`.
- `Cards` holds the card and effect types, the 33-card catalog, and the pure resolvers `applyBaseEffect`, `processRoll` and `processChoice`. It also holds `getCardsByNeighborhood` and `drawCard`.
- `Board` holds the current board:
  - tile placement;
  - movement modulo the board size;
  - position to location;
  - neighborhood to spawn tile.
- `CornerBoard` and `EarlyBoard` hold the two older board variants. One has corner and regular tiles only. The other puts the hotel at 11.
- `GameStore` holds the session store. It is a class `Store` with the fields gems, gpa, position, deck, currentCard, location, panel and state. Its methods are the store's actions.
  - The spec functions beside the class give the meaning of the actions on session values: `ApplyAll`, `ProcessOutcome`, `MoveOutcome` and `ExamOutcome`.
  - The class invariant `Valid` says:
    - both resources are non-negative;
    - the position is on the board;
    - the deck's ids are distinct.
- `Exam` holds the final-exam modal as a class over `isOpen`, `step` and `number`.
- `Panel` holds the move panel as a class over `status` and `number`. It also holds the headings of the effects view and the panel-phase dispatch.

Every call to `Math.random()` is a parameter `random` with `0 <= random < 1`. Every `setTimeout` callback that changes a component's step is an explicit method (`RevealElapsed`) that a caller invokes later. `spawn()` is not part of the shown files. It is a parameter `SpawnConfig(neighborhood, initialGems)`.

Points where the code behaves differently than one might expect, all modelled as the code does them:

- Drawing never refills the deck.
- A hotel, store or tutor tile has no cards of its own. A draw there falls into the "any card" branch and removes that card from the deck.
- A gpa effect moves the gpa by a tenth of its magnitude.
- A failed exam halves both gems and gpa and leaves the student where they are. The exam's intro text says they restart in their initial neighborhood. The lose screen mentions only the gpa.
- No store action checks the lifecycle state. For example, `Store.Move` works in every state.
- After a roll, the effects panel lists the card's own effects (the roll effect itself), not the recorded outcome.

Effect magnitudes lie in -3..3 by the type `Cards.Magnitude`. The catalog type-checks against it, so every catalog magnitude is in range.

## Model

| member | source | states |
|---|---|---|
| JsBuiltins.Rem | src/utils/game.ts:90-92 | JavaScript `%` for a positive divisor: the result lies strictly between -b and b, takes the dividend's sign, and differs from the dividend by a multiple of b |
| JsBuiltins.Round | src/lib/game-store.ts:206-207 | `Math.round` gives the integer within half of x, with halves going up |
| JsBuiltins.RandomIndex | src/lib/cards.ts:475 | `Math.floor(Math.random() * n)` is an index below n |
| JsBuiltins.RandomIndexOnto | src/lib/cards.ts:485 | every index below n is drawn for some random value |
| JsBuiltins.RollDie | src/components/panel.tsx:123 | `Math.floor(Math.random() * 6) + 1` lies in 1..6 |
| JsBuiltins.Filter | src/lib/cards.ts:413 | `filter` keeps exactly the elements that pass the test and never grows the list |
| JsBuiltins.FilterAppend | src/lib/cards.ts:413 | `filter` distributes over concatenation, so kept elements stay in their original order |
| JsBuiltins.FilterAll | src/lib/cards.ts:489 | `filter` returns the list unchanged exactly when every element passes |
| JsBuiltins.Find | src/lib/game-store.ts:148-150 | `find` returns nothing exactly when no element passes, and otherwise the first element that passes |
| Cards.CreateDeck | src/lib/cards.ts:50-406 | the catalog holds 33 cards; its body lists them in the source's order, with the same ids, neighborhoods and effects |
| Cards.ProcessRoll | src/lib/cards.ts:441-446 | the effects of a roll are the card's outcome function applied to the roll |
| Cards.CatalogIdsDistinct | src/lib/cards.ts:50-406 | the catalog holds 33 cards with pairwise distinct ids |
| Cards.CatalogCoversNeighborhoods | src/lib/cards.ts:50-406 | every neighborhood has at least one card in the catalog |
| Cards.CatalogChoicesStartWithDecline | src/lib/cards.ts:213-216 | every choice effect in the catalog has "Decline" with no effects as option 0 |
| Cards.CatalogRollOutcomes | src/lib/cards.ts:88-93 | red-n-4's roll yields gems -1 on 4 or more and gems -2 otherwise; red-n-9's roll (lines 139-151) yields nothing on 3 or more and gems -2 otherwise; mid-n-1's roll (lines 324-327) yields gems +2 on 4 or more and nothing otherwise |
| Cards.CatalogRollCards | src/lib/cards.ts:50-406 | red-n-4, red-n-9 and mid-n-1 hold the catalog's only probability effects, each as the card's first effect |
| Cards.GetCardsByNeighborhood | src/lib/cards.ts:409-414 | the result holds exactly the deck's cards of that neighborhood; a hotel, store or tutor location gets none |
| Cards.WithoutId | src/lib/cards.ts:489 | the result holds exactly the deck's cards whose id differs |
| Cards.ApplyBaseEffect | src/lib/cards.ts:417-437 | a gems effect sets only gems, to the magnitude; a gpa effect sets only gpa, to a tenth of the magnitude |
| Cards.ProcessChoice | src/lib/cards.ts:449-457 | an index in range gives that option's effects; any other index gives no effects |
| Cards.DrawCard | src/lib/cards.ts:460-492 | an empty deck gives no card and an empty deck. Otherwise the card comes from the deck. When the location has cards, the card is one of them and every card with its id leaves the deck. When it has none, the card at the random index is taken out by index |
| Cards.WithoutUniqueId | src/lib/cards.ts:489 | with distinct ids, removing by id removes exactly the card at that index |
| Cards.DistinctIdsAfterRemoval | src/lib/cards.ts:477-480 | removing one card keeps the ids distinct |
| Cards.DrawRemovesDrawnCard | src/lib/cards.ts:460-492 | with distinct ids, a draw takes out exactly the drawn card at some index: the deck shrinks by one and its ids stay distinct |
| Cards.DrawReachesEveryCandidate | src/lib/cards.ts:468-486 | every card of the location, or every card of the deck when the location has none, is drawn for some value of `Math.random()` |
| Cards.CommercialDrawConsumes | src/lib/cards.ts:473-481 | a draw on a hotel, store or tutor tile still removes a card from the deck |
| Board.BuildingAt | src/utils/game.ts:18-27 | each building type sits at exactly its position (mansion 0, store 3, house 6, hotel 9, cottage 12, tutor 15, skyscraper 18); every other tile is regular |
| Board.CreateBoard | src/utils/game.ts:40-81 | 24 tiles; tile i has position i, is large exactly when i mod 6 = 0, and carries the building placed at i |
| Board.GetNextPosition | src/utils/game.ts:84-93 | the result lies in [0, n) and is congruent to p + d·k mod n, including after JavaScript's negative remainder is corrected |
| Board.MoveBackReturns | src/utils/game.ts:84-93 | moving k spaces in direction d and then k spaces in direction -d returns to the start |
| Board.GetLocationFromPosition | src/utils/game.ts:95-114 | hotel at 9, store at 3 and tutor at 15 take priority. 21–23 and 0–2 are rich, 3–8 gentrified, 9–14 redlined and 15–20 middle-income. Anything off the board falls back to redlined |
| Board.LocationCasesExhaustive | src/utils/game.ts:103-112 | some case before the fallback matches exactly the positions on the board, so the fallback is never reached from a board position |
| Board.GetPositionFromNeighborhood | src/utils/game.ts:117-132 | rich spawns at 0, gentrified at 18, redlined at 6 and middle-income at 12, all large tiles |
| Board.SpawnTilesDistinct | src/utils/game.ts:117-132 | no two neighborhoods share a spawn tile |
| Board.OnlyRichStartsAtHome | src/utils/game.ts:95-132 | the spawn tile lies in the spawn neighborhood's own location range only for rich |
| CornerBoard.CreateBoard | src/app/game/types.ts:19-36 | 24 tiles; tile i has position i and is a corner exactly when i mod 6 = 0, otherwise regular |
| CornerBoard.GetNextPosition | src/app/game/types.ts:39-46 | the result lies in [0, n) and equals the current board's move of one space |
| CornerBoard.StepBackReturns | src/app/game/types.ts:39-46 | one step forward and one step back is the identity |
| CornerBoard.WrapAround | src/app/game/types.ts:44-45 | stepping forward from 23 gives 0; stepping back from 0 gives 23 |
| EarlyBoard.BuildingAt | src/app/utils/game.ts:39-61 | each building type sits at exactly its position, with the hotel at 11; every other tile is regular |
| EarlyBoard.CreateBoard | src/app/utils/game.ts:30-71 | 24 tiles; tile i has position i, is large exactly when i mod 6 = 0, and carries the building placed at i |
| EarlyBoard.GetNextPosition | src/app/utils/game.ts:74-81 | the result lies in [0, n) and equals (p + d) mod n |
| EarlyBoard.StepBackReturns | src/app/utils/game.ts:74-81 | one step forward and one step back is the identity |
| EarlyBoard.HotelMoved | src/app/utils/game.ts:49-51 | the early board has its hotel two tiles after the current board's; on every other tile both boards hold the same building (mansion, store, house, cottage, tutor, skyscraper) or are both regular |
| GameStore.InitGameState | src/lib/game-store.ts:52-65 | a fresh session is idle, with gpa 2, the move panel, no card, the full catalog, the spawn neighborhood as location, its spawn tile as position and the spawn's gems; it satisfies the session invariant |
| GameStore.ApplyAllAppend | src/lib/game-store.ts:135-141 | applying a concatenation of effects applies the first list, then the second |
| GameStore.ApplyAllNonNegative | src/lib/game-store.ts:79-85 | clamped updates keep non-negative resources non-negative under any effects |
| GameStore.ApplyAllGemsBound | src/lib/game-store.ts:135-141 | gems end at least at the start plus the sum of the gems magnitudes, and exactly there when gems start non-negative and no magnitude is negative |
| GameStore.ClampsPerStep | src/lib/game-store.ts:136-140 | the clamp applies after each effect: with no gems, losing one and then gaining one leaves one gem, whereas clamping the total would leave none |
| GameStore.BaseEffectsOf | src/lib/game-store.ts:122-125 | exactly the base effects of the card are kept and the list never grows; a single effect is kept exactly when it is a base effect |
| GameStore.BaseEffectsOfAppend | src/lib/game-store.ts:122-125 | the filter distributes over concatenation, so with the single-effect case every base effect is kept once per occurrence and in order |
| GameStore.BaseEffectsOfAllBase | src/lib/game-store.ts:122-125 | a card of base effects only passes all of them, in order, to `applyEffects` |
| GameStore.PanelFor | src/lib/game-store.ts:106-120 | the probability panel exactly when some effect is a roll; the choice panel exactly when none is a roll and some is a choice; the effects panel exactly when neither |
| GameStore.FindProbability | src/lib/game-store.ts:148-150 | nothing exactly when the card has no roll effect, otherwise a roll effect |
| GameStore.FindChoice | src/lib/game-store.ts:172-174 | nothing exactly when the card has no choice effect, otherwise a choice effect |
| GameStore.HalvingShrinks | src/lib/game-store.ts:206-207 | halving a non-negative resource with rounding keeps it non-negative and never larger |
| GameStore.HalvingRoundsUp | src/lib/game-store.ts:207 | for whole gems, halving with rounding gives the ceiling of half |
| GameStore.MoveThenBackReturns | src/lib/game-store.ts:70-77 | moving k spaces one way and then k spaces the other way restores the position, whatever cards were drawn |
| GameStore.Store.constructor | src/lib/game-store.ts:67-68 | the store starts as a fresh session and satisfies the invariant |
| GameStore.Store.Load | src/lib/game-store.ts:218 | replacing every field with a valid session makes the store equal to it and keeps the invariant |
| GameStore.Store.UpdateGems | src/lib/game-store.ts:79-80 | gems become max(0, old + amount); nothing else changes |
| GameStore.Store.UpdateGPA | src/lib/game-store.ts:82-85 | gpa becomes max(0, old + amount); nothing else changes |
| GameStore.Store.ApplyEffects | src/lib/game-store.ts:135-141 | the resources end as the effects folded in list order, each clamped at zero; nothing else changes |
| GameStore.Store.DrawCard | src/lib/game-store.ts:87-99 | deck and current card become the draw for the current location; a non-empty deck shrinks by one; the invariant is kept |
| GameStore.Store.ProcessCard | src/lib/game-store.ts:101-133 | without a card nothing changes. Otherwise the panel is chosen by effect kind, and only the effects panel applies the card's base effects. The invariant is kept |
| GameStore.Store.Move | src/lib/game-store.ts:70-77 | the position moves modulo 24 and the location follows it; the deck and card become the draw there; the card is then processed; the invariant is kept |
| GameStore.Store.HandleRoll | src/lib/game-store.ts:143-165 | without a card or a roll effect, nothing is returned and nothing changes. Otherwise the first roll effect's outcome is returned and applied, recorded as the card's final outcome, and shown on the effects panel |
| GameStore.Store.HandleChoice | src/lib/game-store.ts:167-197 | without a card or a choice effect, nothing is returned and nothing changes. Otherwise a non-empty outcome is applied and recorded, an empty one changes no resource, and the panel always ends on move |
| GameStore.Store.HandleExam | src/lib/game-store.ts:199-209 | a pass ends in a fresh session for the new spawn. A fail halves gpa and gems with rounding and changes nothing else. The invariant is kept |
| GameStore.Store.CloseCard | src/lib/game-store.ts:211-214 | the panel returns to move |
| GameStore.Store.ChangeState | src/lib/game-store.ts:216 | the lifecycle state becomes the given one |
| GameStore.Store.ResetGame | src/lib/game-store.ts:218 | the store becomes a fresh session for the spawn |
| Exam.HavePassed | src/components/exam.tsx:20-22 | the exam is passed exactly when the gpa is at least 10 minus the rolled number |
| Exam.ScreenFor | src/components/exam.tsx:52-65 | each step shows its own screen; at the result step the win screen shows exactly when the exam is passed and the lose screen otherwise |
| Exam.PassDependsOnGpa | src/components/exam.tsx:20-22 | a roll r passes exactly when gpa ≥ 10 - r; a gpa below 4 never passes and one of 9 or more always does |
| Exam.Exam.constructor | src/components/exam.tsx:12-15 | the modal starts closed at the idle step with number 0 |
| Exam.Exam.Open | src/components/exam.tsx:24-26 | taking the bus opens the modal |
| Exam.Exam.HandleClose | src/components/exam.tsx:28-30 | the modal closes |
| Exam.Exam.HandleStart | src/components/exam.tsx:32-34 | the step moves to dice |
| Exam.Exam.HandleRoll | src/components/exam.tsx:36-39 | the number is a die roll in 1..6 and the step moves to reveal |
| Exam.Exam.RevealElapsed | src/components/exam.tsx:41-43 | the step moves to result |
| Exam.Exam.HandleRestart | src/components/exam.tsx:46-50 | the store settles the exam as a pass exactly when number + gpa ≥ 10 and as a fail otherwise; the modal closes and the step returns to idle |
| Panel.Title | src/components/panel.tsx:52-55 | "You gained" exactly when the magnitude is positive, otherwise "You lost" |
| Panel.EffectTitle | src/components/panel.tsx:64 | on a card's effect, "You gained" exactly for a base effect with positive magnitude |
| Panel.EffectsViewAsWritten | src/components/panel.tsx:61-110 | nothing for a missing or empty effect list; otherwise one entry per effect, showing the gem icon exactly for a gems effect; a single effect is headed by its own title, while every entry of two or more effects is headed "You lost" |
| Panel.AsWrittenShowsGainsAsLosses | src/components/panel.tsx:92 | the written multi-effect view heads red-p-4's gains of +1 gem and +1 gpa "You lost", though their own heading is "You gained" |
| Panel.EffectsView | src/components/panel.tsx:61-110 | nothing for a missing or empty effect list. Otherwise one entry per effect, headed "You gained" exactly for a positive base effect and showing the gem icon exactly for a gems effect |
| Panel.ViewsAgreeOnSingleEffects | src/components/panel.tsx:61-76 | for no effect or one effect, the written view and the corrected view agree |
| Panel.PanelView | src/components/panel.tsx:11-22 | move, probability and choice each show their view. Effects shows the card's effects as the effects view renders them, unless the card has no effects. The action phase shows nothing |
| Panel.PanelViewCorrected | src/components/panel.tsx:11-22 | the same dispatch, except that on the effects phase each entry is headed "You gained" exactly for a positive base effect |
| Panel.PanelShowsGainsAsLosses | src/components/panel.tsx:92 | on the effects phase, red-p-4's two gains are headed "You lost" by the panel as rendered and "You gained" by the corrected dispatch |
| Panel.DrawnCardsAreRendered | src/lib/game-store.ts:106-132 | the phase a drawn card with effects selects always has a view |
| Panel.MovePanel.constructor | src/components/panel.tsx:114-117 | the move panel starts idle with number 0 |
| Panel.MovePanel.HandleRoll | src/components/panel.tsx:121-123 | the status becomes reveal and the number is a die roll in 1..6 |
| Panel.MovePanel.RevealElapsed | src/components/panel.tsx:124 | the status becomes pending action |
| Panel.MovePanel.HandleBack | src/components/panel.tsx:127-130 | the store moves the rolled number of spaces backwards and the status returns to idle |
| Panel.MovePanel.HandleForward | src/components/panel.tsx:132-135 | the store moves the rolled number of spaces forwards and the status returns to idle |

## Left out

- Rendering, styling and animation: the JSX, `motion` props, images and colours. Only which view, heading and icon kind is shown is modelled.
- The browser events `drawCardEvent`, `closeCardEvent` and the bus-stop event listener (src/lib/game-store.ts:90, 213; src/components/exam.tsx:24-26). They are I/O. The listener is the method `Exam.Exam.Open`.
- The store's `setTimeout` returns to the move panel (src/lib/game-store.ts:128, 160, 188). Each is at best a later `CloseCard`. A stale timer can also override a phase set after it, and that is not modelled. For example, after a choice the panel is already on move (line 191), so the player can move onto a roll card within 3 seconds. The timer from line 188 then resets the panel from probability to move, and that roll is never resolved.
- The transition durations and `console.log`. `PANEL_TRANSITION_DURATION` is 3000 ms (src/lib/game-store.ts:23). The reveal delays are 2000 ms (src/components/exam.tsx:41-43, src/components/panel.tsx:124).
- Card descriptions (src/lib/cards.ts:14) and the optional descriptions of base effects (src/lib/cards.ts:24, used at 147-148): display text. Card titles, probability descriptions and all option captions are kept.
- `spawn()`: it is not part of the shown files, so its choice of neighborhood and gems is a parameter. `SpawnConfig.initialGems` is a `nat`, which assumes that `spawn()` never hands out negative gems. `GameStore.InitGameState`'s session invariant (gems ≥ 0) and `GameStore.Store.constructor`'s `Valid()` rely on that assumption.
- The `BUS_STOP` positions (src/utils/game.ts:26). No modelled operation reads them.
- The `default` branch of `getPositionFromNeighborhood`. A neighborhood value is always one of the four, so the branch is unreachable.
- Board.GetNextPosition: requires a positive board size. A size of 0 gives NaN in JavaScript, and no caller passes one.
- CornerBoard.GetNextPosition: requires a positive board size, for the same reason.
- EarlyBoard.GetNextPosition: requires a positive board size, for the same reason.
- Floating point: gpa is a `real`, so 0.1 steps are exact, and `Math.round` is floor(x + 0.5) on reals. IEEE rounding error is not modelled.
- Non-integer moves: positions, rolls and move sizes are integers. JavaScript would accept fractions.
- Cards.ProcessRoll: stated only as applying the card's outcome function. `Cards.CatalogRollOutcomes` states the outcome of each of the catalog's three roll cards, and `Cards.CatalogRollCards` says there are no others.
- GameStore.Store: the zustand `create`/`set` plumbing is modelled as fields assigned in the same order as the `set` calls.

## Findings

| source | as written | input that shows it | evidently intended | confidence | as-written member | corrected member |
|---|---|---|---|---|---|---|
| src/components/panel.tsx:92 | every entry of a card with two or more effects is headed "You lost" | card red-p-4 (gems +1, gpa +1) shows "You lost" twice | each entry headed by `getTitle` of its effect, as the single-effect view does at line 70 | high (not executed) | Panel.AsWrittenShowsGainsAsLosses | Panel.PanelViewCorrected |
