# runner-animation, modelled in Dafny

runner-animation is a browser game. The player runs down a road in
perspective, and cards and cash bills approach from the distance:
- A card hit pauses the run, opens a business decision, and counts towards the month; two cards make a month.
- A month end credits the monthly revenue and checks for a win (cash at least the target), then for a loss (past the month limit).
- Otherwise the month end sends a wave of bills down the road.
- A bill that reaches the player is collected into cash.
- Landscape decorations drift past, and the player's sprite cycles its walk frames.

This project models the simulation state of the game and the rules that
change it, without the DOM, canvas, audio and timers:
- the `gameState` record (`State.GameState`);
- the popup state machine (`UiSystem.Session`);
- the single card slot (`CardSystem.CardSystem`);
- the money list with its bounded free-list (`MoneySystem.MoneySystem`);
- the sprite and the decorations (`Renderer.Sprite`, `Renderer.Background`);
- the perspective projection (`Projection`);
- the tick, selection, menu and restart transitions (`Game.Game`).

Every state-changing routine is a method on a class whose fields are the
globals the source reassigns. Each method's postcondition ties the new state
to a pure function of the old one, and lemmas prove the properties of those
functions:
- every collected pickup is credited exactly once;
- the pool never exceeds 20 records;
- a card hits exactly once;
- two hits make a month, and win is checked before loss;
- with non-negative revenue and pickup values, no hit, decision, close or money tick lowers cash;
- the card search stops at the first clear spot;
- the walk cycle is periodic;
- the road offset repeats every 100 ticks;
- decorations are drawn far to near.

Every `Math.random()` draw is a parameter required to lie in [0, 1); the phone/desktop outcome of the user-agent test is a boolean parameter.
Depths and offsets are exact `real`s.

## Model

| member | source | states |
|---|---|---|
| Config.BusinessOf | config.js:2-88 | every business has positive revenue, eight decoration glyphs and the four-frame walk cycle with a positive frame speed |
| Entities.Abs | moneySystem.js:200 | `Math.abs`: non-negative and equal to the argument or its negation |
| Projection.VanishingPoint | renderer.js:237-242 | the vanishing point is horizontally centred and strictly inside a canvas of positive height |
| Projection.RoadWidth | renderer.js:244-246 | the road at the player's plane is narrower than a canvas of positive width |
| Projection.Scale | renderer.js:249 | at depth z >= 0 the scale 1/(1+2z) lies in (0, 1], and it is 1 at depth 0 |
| Projection.WorldToScreen | renderer.js:248-257 | at depth z >= 0 the scale is in (0, 1] and the screen y lies below the horizon and at most the canvas height; at depth 0 it is the canvas height; offset 0 maps to the centre column at every depth |
| Projection.ScaleDecreasing | renderer.js:249 | nearer points are drawn strictly larger |
| Projection.Mirror | renderer.js:253-254 | opposite offsets map to mirror images about the centre column at the same height |
| UiSystem.PickDecision | uiSystem.js:37-59 | the picked decision is one of the three in the table |
| UiSystem.AfterDecision | uiSystem.js:78-93 | choice 0 adds the decision's own first-option amount to revenue (20, 30 or 25) with cash unchanged; any other choice adds its second-option amount to cash (50, 100 or 75) with revenue unchanged; the game resumes and nothing else changes |
| UiSystem.DecisionOptions | uiSystem.js:37-56 | every decision of the table offers a positive revenue raise first and a positive cash bonus second |
| UiSystem.Verdict | uiSystem.js:132-160 | victory iff cash reached the target; game over iff not won and past the month limit; the revenue wave, with the month's revenue, iff neither |
| UiSystem.AfterMonthEnd | uiSystem.js:124-200 | cash gains the revenue, the month advances by one, the counter is 0; on victory or game over the game is stopped and ended, otherwise it is the credited record |
| UiSystem.AfterHit | uiSystem.js:3-31 | the game is paused and the counter rises by one; reaching the maximum ends the month; a counter below the maximum stays below it |
| UiSystem.HitOutcome | uiSystem.js:23-26 | a hit reports a month-end outcome exactly when it completes the month |
| UiSystem.Round | uiSystem.js:279 | `Math.round`: the nearest integer, halves rounded up |
| UiSystem.StatusLine | uiSystem.js:276-290 | counter 0 gives the goal line with the target, months left = limit - month + 1 and progress the rounded percentage of the target; counter 1 gives "one more card"; anything else gives "month complete" |
| UiSystem.Step | uiSystem.js:3-122 | every event keeps the stored decision one of the table's |
| UiSystem.Run | uiSystem.js:3-122 | a run of events keeps the stored decision one of the table's |
| UiSystem.MonthEveryTwoHits | uiSystem.js:3-130 | with two cards a month, the counter is the hit count modulo 2 and the month advances once per pair of hits, whatever the decisions |
| UiSystem.CashNeverDecreases | uiSystem.js:41-126 | with non-negative revenue, no sequence of hits, decisions and closes lowers cash or revenue |
| UiSystem.NoEndWithoutTarget | uiSystem.js:133-142 | without a target and a month limit, no run of events ends the game |
| UiSystem.Session.constructor | game.js:2-11 | the session starts with the menu record and no decision |
| UiSystem.Session.ShowCardPopup | uiSystem.js:29-76 | the game is paused, a decision from the table is stored, and nothing else changes |
| UiSystem.Session.HitCard | uiSystem.js:3-27 | the new record is AfterHit of the old one, the outcome is HitOutcome, and the picked decision is stored |
| UiSystem.Session.EndMonth | uiSystem.js:124-171 | the new record is AfterMonthEnd of the old one and the outcome is the verdict on the credited record |
| UiSystem.Session.ShowVictoryScreen | uiSystem.js:173-175 | the game is stopped and ended |
| UiSystem.Session.ShowGameOverScreen | uiSystem.js:198-200 | the game is stopped and ended |
| UiSystem.Session.MakeDecision | uiSystem.js:78-104 | with a stored decision the chosen option is applied and the game resumes; without one nothing changes |
| UiSystem.Session.ClosePopup | uiSystem.js:106-122 | the game resumes and nothing else changes |
| MoneySystem.Offer | moneySystem.js:19-23 | the offered record is kept, at the end, iff the pool holds fewer than 20; otherwise the pool is unchanged; a pool within 20 stays within 20 |
| MoneySystem.OfferAllSnoc | moneySystem.js:19-23 | offering one more record is one more Offer |
| MoneySystem.OfferAllKeepsPrefix | moneySystem.js:10-23 | offering records to a pool of at most 20 gives the old pool followed by the first offered records that fit, and never more than 20 |
| MoneySystem.OfferAllFull | moneySystem.js:20 | a full pool takes nothing |
| MoneySystem.Advance | moneySystem.js:61-83 | a record is released iff it was already collected; an uncollected one moves by 0.025 per delta unit and is collected iff its new depth is at most 0.3, so the cull behind -2 never fires |
| MoneySystem.SweepCons | moneySystem.js:60-83 | the backward sweep over a list is the sweep over its tail followed by the first record's step |
| MoneySystem.EffectAt | moneySystem.js:169-175 | the effect starts with timer 30 and the record's value at its projected point |
| MoneySystem.Countdown | moneySystem.js:85-91 | the effect's timer drops by the delta and the effect is cleared once it is at most 0 |
| MoneySystem.TickConservesMoney | moneySystem.js:60-187 | one tick credits exactly the value that leaves the uncollected part of the list, so each record is credited once |
| MoneySystem.TicksConserveMoney | moneySystem.js:56-92 | over any run of ticks the credited cash plus the value still uncollected equals the value uncollected at the start |
| MoneySystem.PendingNonNegative | moneySystem.js:43-54 | over records of non-negative value the uncollected value is non-negative |
| MoneySystem.CreditNonNegative | moneySystem.js:162-187 | over records of non-negative value one tick never lowers cash |
| MoneySystem.SurvivorsNonNegative | moneySystem.js:60-83 | a tick keeps every record's value, so non-negative values stay non-negative |
| MoneySystem.CreditOverTicksBounded | moneySystem.js:56-92 | over any run of ticks over records of non-negative value, the cash credited is between 0 and the value uncollected at the start |
| MoneySystem.NumBills | moneySystem.js:216 | a wave has 3, 4 or 5 bills |
| MoneySystem.BillValue | moneySystem.js:221 | the bill value is the floor of revenue / bills, so the bills add up to at most the revenue |
| MoneySystem.MoneySystem.constructor | moneySystem.js:2-9 | no records, an empty pool and no effect |
| MoneySystem.MoneySystem.GetMoneyFromPool | moneySystem.js:12-17 | a non-empty pool gives its last record and shrinks by one; an empty pool gives a fresh record and stays empty |
| MoneySystem.MoneySystem.ReturnMoneyToPool | moneySystem.js:19-23 | the pool becomes Offer of the old pool and stays within 20 |
| MoneySystem.MoneySystem.InitMoneySystem | moneySystem.js:25-41 | no records and no effect |
| MoneySystem.MoneySystem.SpawnMoneyAt | moneySystem.js:242-251 | an uncollected record at the given depth and value (50 when the value is omitted), offset 0, is appended; one spare record is used up |
| MoneySystem.MoneySystem.SpawnMoney | moneySystem.js:43-54 | with a business selected, a record worth a tenth of the revenue is appended at depth 4; otherwise nothing changes |
| MoneySystem.MoneySystem.CollectMoney | moneySystem.js:162-187 | cash gains the record's value, the record is flagged collected in place and the effect is replaced |
| MoneySystem.MoneySystem.Update | moneySystem.js:56-92 | paused: nothing changes; running: the list is Survivors of the old list, the pool is the old pool offered the released records, cash gains Credit of the old list, and the effect is the latest collection's, counted down |
| MoneySystem.MoneySystem.SweepStep | moneySystem.js:61-83 | one loop iteration extends the swept suffix by one record |
| MoneySystem.MoneySystem.ReleaseAt | moneySystem.js:63-67 | a collected record is offered to the pool and spliced out |
| MoneySystem.MoneySystem.CollectAt | moneySystem.js:70-76 | a record at the collection depth is moved, credited and flagged in place |
| MoneySystem.MoneySystem.ResetMoneySystem | moneySystem.js:189-195 | the list and effect are cleared and every live record is offered to the pool, which stays within 20 |
| MoneySystem.MoneySystem.HasEnoughSpaceForMoney | moneySystem.js:198-212 | true iff no card lies within 2.0 of the depth and no record within 1.2 |
| MoneySystem.MoneySystem.FindBillDistance | moneySystem.js:222-226 | the depth is 3.5 + 1.5i + 0.5k for the first k with room or at depth 10 or beyond; every earlier candidate had no room and lay below 10 |
| MoneySystem.MoneySystem.SpawnBill | moneySystem.js:219-237 | while running, one uncollected bill of value floor(revenue / bills) at offset 0 is appended at the first candidate 3.5 + 1.5·i + 0.5·k with room, every earlier candidate being below 10 and without room (so at depth 10 or beyond only when none had room); when paused nothing changes |
| CardSystem.GetRandomCardType | cardSystem.js:20-22 | the type is one of the four card types |
| CardSystem.ChosenType | cardSystem.js:59 | a given non-empty type is kept; a missing or empty one becomes a random card type |
| CardSystem.FindSpawnDistance | cardSystem.js:43-58 | the distance is start + 0.5k for the first k whose candidate is clear of money within 2.0, or 12 if none before it is; it lies between the start and 12 |
| CardSystem.AtMostOneHit | cardSystem.js:75-81 | over any run of ticks without a respawn a card hits at most once, and an empty slot never hits |
| CardSystem.HitWithin | cardSystem.js:72-77 | a card at depth z hits exactly once within n >= 1 unit ticks when z - 0.025n <= 0.2 |
| CardSystem.CardArtFor | cardSystem.js:84-116 | nothing for an empty slot, a depth at most 0 or a size of at most 10 pixels; otherwise the type image if it is loaded with positive width, else the generic image if it is, else the glyph |
| CardSystem.CardSystem.constructor | cardSystem.js:2-18 | no card, and the next spawn is a first one |
| CardSystem.CardSystem.SpawnCard | cardSystem.js:41-66 | the card is placed at the search result from 6 (first card) or 3.5, with offset 0 and the chosen type, and the next spawn is not a first one |
| CardSystem.CardSystem.HasCard | cardSystem.js:138-140 | true exactly when the slot holds a card; every spawn leaves it true and an update without it changes nothing |
| CardSystem.CardSystem.InitGameCards | cardSystem.js:24-39 | a first card of a random type is placed at the search result from 6 |
| CardSystem.CardSystem.UpdateGameCards | cardSystem.js:68-82 | paused or empty: nothing changes; otherwise the card moves, it hits iff its new depth is at most 0.2, a hit runs hitCard once and clears the slot without a respawn |
| CardSystem.CardSystem.ResetCardSystem | cardSystem.js:118-121 | no card, and the next spawn is a first one |
| CardSystem.CardSystem.SpawnCardAt | cardSystem.js:126-135 | the card is placed exactly at the distance (3.5 when omitted) with the chosen type and offset 0, and the next spawn is not a first one |
| Renderer.AnimTick | renderer.js:58-62 | the counter rises by one; on reaching the frame speed it resets to 0 and the frame advances modulo the frame count; the frame stays in range and the counter stays below the frame speed or at 0 |
| Renderer.CountWithinFrame | renderer.js:58-62 | from a reset counter, fewer updates than the frame speed only count up |
| Renderer.AnimTicksAdd | renderer.js:55-63 | m + n updates are m updates followed by n |
| Renderer.OneFrame | renderer.js:58-62 | frame-speed updates from a reset counter advance the frame by one |
| Renderer.FramesAdvance | renderer.js:55-63 | frame-speed times k updates from a reset counter advance the frame by k, the last frame wrapping to the first |
| Renderer.WalkCyclePeriodic | renderer.js:55-63 | frame speed times the frame count updates bring the animation back to where it was |
| Renderer.Sprite.constructor | renderer.js:3-26 | not loaded, frame and counter 0, no scaled frames; missing frames take the walk cycle, and a missing or 0 speed, width, height or scale takes 8, 32, 32 or 20 |
| Renderer.Sprite.OnLoad | renderer.js:8-12 | loaded, with one scaled frame per frame |
| Renderer.Sprite.CreateScaledFrames | renderer.js:28-53 | one canvas per frame, in order, cut from the frame's cell and sized by the scale |
| Renderer.Sprite.Update | renderer.js:55-63 | not loaded: nothing changes; loaded: the counters take one AnimTick; the frame stays in range |
| Renderer.Sprite.Draw | renderer.js:65-79 | nothing is drawn, the source's false, iff not loaded or no frames are cut; otherwise the current frame is drawn bottom-centred on the point |
| Renderer.EmojisOf | renderer.js:104-108 | glyphs exist iff a business is selected, and there are eight |
| Renderer.NewDecoration | renderer.js:108-143 | the glyph is one of the business's; zone roadside, landscape or horizon for a zone draw below 0.5, below 0.8, or else; lateral distance in [1,3), [2,5) or [3,8) and size in [0.8,1.4), [0.6,1.0) or [0.4,0.7) by zone; right of the road iff the side draw exceeds 0.5; rotation 0 and bob phase in [0, 2 pi) |
| Renderer.DriftedSound | renderer.js:152-171 | every survivor of the move-and-cull pass is a moved original that is not culled, so it is not behind -0.5 and is on screen when beyond 0.3; the list does not grow |
| Renderer.DriftedComplete | renderer.js:152-171 | every moved original that is not culled survives the pass |
| Renderer.SpawnDepth | renderer.js:178 | a new decoration enters 4 to 6 units away |
| Renderer.InitialDepth | renderer.js:98 | an initial decoration lies 1 to 5 units away |
| Renderer.Spawned | renderer.js:173-179 | a tick adds one decoration iff the spawn draw is below the spawn rate and a business is selected, 4 to 6 units away |
| Renderer.Background.constructor | renderer.js:83 | no decorations |
| Renderer.Background.SpawnDecoration | renderer.js:103-146 | with a business, one NewDecoration is appended; without one nothing changes |
| Renderer.Background.InitBackgroundDecorations | renderer.js:85-101 | empty without a business; otherwise exactly 12 (phone) or 20 decorations from the draws, all 1 to 5 units away |
| Renderer.Background.UpdateBackgroundDecorations | renderer.js:148-180 | not started: nothing changes; otherwise the list is Drifted of the old one followed by the tick's spawn |
| Renderer.Background.DriftStep | renderer.js:153-170 | one loop iteration extends the moved-and-culled suffix by one decoration |
| Renderer.Alpha | renderer.js:200 | the opacity is 2.5 times the scale clamped to [0.5, 1] |
| Renderer.Insert | renderer.js:186 | inserting adds exactly the element |
| Renderer.InsertFarToNear | renderer.js:186 | inserting into a far-to-near list keeps it far to near |
| Renderer.SortFarToNear | renderer.js:186 | the sorted copy is far to near and a permutation of the list |
| Renderer.PaintAll | renderer.js:188-217 | every painted item passes the depth, visibility and size tests and comes from the list |
| Renderer.PaintAllComplete | renderer.js:188-217 | every decoration of the list that passes the depth, visibility and size tests is painted |
| Renderer.DrawPlanOrdered | renderer.js:182-218 | decorations are painted far to near, only at depths in [0, 6], with opacity in [0.5, 1], and each comes from the list; every decoration of the list that passes the tests is painted |
| Renderer.PaintAllOrdered | renderer.js:188 | painting keeps the order of a far-to-near list |
| Game.RoadStep | game.js:105-108 | the offset grows by 0.01 and drops by 1 only when it passes 1; from [0, 1] it stays in (0, 1] |
| Game.RoadAdvances | game.js:105-108 | within 100 ticks from [0, 1] the offset has grown by 0.01 per tick, wrapping once past 1 |
| Game.RoadCycle | game.js:105-108 | from 0 the offset reaches exactly 1.0 after 100 ticks, and from (0, 1] it repeats every 100 ticks |
| Game.SpawnOnEmptyRoad | cardSystem.js:43-58 | with no money on the road the card spawns at its start distance |
| Game.SpriteConfigOf | game.js:19-28 | the player's sprite takes the business's frames and frame speed |
| Game.RestartState | uiSystem.js:226-240 | the selected business, cash 0, its revenue, month 1, counter 0, two cards a month, target 1000, twelve months, not ended, and neither won nor out of time |
| Game.Game.constructor | game.js:2-14 | the menu record and no decision, no sprite, an empty card slot with the next spawn a first one, empty money list and pool, no effect, no decorations |
| Game.Game.Update | game.js:101-123 | paused: nothing in the session, cards, money, decorations or sprite changes; running: the road steps, the sprite takes its update, the card takes its tick, the decorations drift; on a hit the month outcome and the decision are those of hitCard and the money list, pool and effect stay as they were, since the hit paused the game first; otherwise the money sweeps with delta 1, the released records are offered to the pool and the effect counts down |
| Game.Game.InitCanvas | renderer.js:224-228 | the canvas takes the window's size |
| Game.Game.Resize | game.js:149-153 | only a running game follows the window |
| Game.Game.SelectBusiness | game.js:49-70 | the business and its revenue are set and the game starts, with a new unloaded sprite of its walk cycle and frame speed at frame 0, 12 or 20 decorations of the business at depths in [1, 5), a first card of a random type placed against the money still on the road, an empty money list with the pool kept, and the decision unchanged |
| Game.Game.GoBack | game.js:72-92 | the menu record, no decorations, no card with the next spawn a first one, no money or effect, and the live money offered to the pool |
| Game.Game.RestartGame | uiSystem.js:224-261 | without a business nothing changes; otherwise the restart record with the game running, a first card exactly 6 units ahead, and an empty money list whose records went to the pool |

## Left out

- DOM, canvas, image loading and audio: popup HTML, button markup, status colours, the painted shapes of `drawSky`, `drawGround`, `drawRoad`, `drawPlayer` and `drawMoneySystem`, and the sounds are not modelled. The image load state enters `CardSystem.CardArtFor` as a parameter.
- `requestAnimationFrame` and every `setTimeout`: the frame loop is not modelled, and the deferred card respawns after a decision or close are the caller's to make. The monthly bills are one `SpawnBill` call per timer callback, with the bill index, the card slot and the game record at that moment as parameters. Each `selectBusiness` call starts another frame loop in the source; the model does not capture how many loops are running.
- Game.Game.SelectBusiness: in the source the `gameLoop()` call at its end (game.js:68-69) runs one `update()` synchronously before `selectBusiness` returns, so the road has already stepped by 0.01, the first card is one tick closer and the decorations have moved once (the sprite, created unloaded just before, does not advance); the model's `SelectBusiness` ends before that tick, and the caller owes one `Game.Game.Update` to reach the source's state.
- `Math.random()` and the user-agent test are parameters. `Math.PI * 2` is the constant 6.283185307179586.
- IEEE-754 doubles are exact reals here. In particular 0.01 added 100 times is exactly 1 (`Game.RoadCycle`); in doubles it overshoots slightly, so the wrap comes one tick earlier.
- Renderer.PaintAll: the painted y coordinate includes `Math.sin(bobOffset)` and is not modelled; a painted item keeps its decoration, its floored x, its size and its opacity.
- Renderer.SortFarToNear: the model's insertion sort keeps equal depths in list order, as the stable `Array.prototype.sort` does, but stability is not proved.
- Renderer.Sprite.constructor: requires a non-empty frame list when frames are given; an empty array is truthy in JavaScript and would make `update` compute frame `NaN`, and no business config has one.
- The two `updateUI` definitions (game.js:94 and uiSystem.js:263): which wins depends on script order. The status-line choice of the second is `UiSystem.StatusLine`; the text fields are not modelled.
- `restartGame` and `makeDecision` throw in the source when no business or no decision exists (`null.revenue`, `undefined.option1`) before changing anything. The model returns `ok == false` with nothing changed.
- `worldToScreen` divides by zero at depth -0.5. Every projection here requires another depth, and a collection effect at depth -0.5 has no position (`MoneySystem.EffectAt`).
- Money records are values: a record taken from the pool has every field overwritten, so which spare record is reused is not observable. Object identity of pooled records is not modelled.
- config.js texts, icons and colours, the spawn helpers beyond `spawnMoneyAt`/`spawnCardAt`, and audioSystem.js are not part of this model.
- `endMonth` credits the revenue to cash and then sends 3 to 5 bills of floor(revenue / bills) each down the road (moneySystem.js:214-237), together at most the revenue (`MoneySystem.BillValue`). Both are modelled as written, so collected bills add to the revenue already credited. The bills' timers run while the card popup that `hitCard` opened (uiSystem.js:8, 31) still pauses the game, so the 0 ms timer of bill 0 finds `gameStarted` false and `SpawnBill` drops it, and bill i arrives only if the popup was closed within i·600 ms.
