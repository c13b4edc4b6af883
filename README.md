# Tesseract tap-to-bet grid, modelled in Dafny

Tesseract is a tap-to-bet game drawn over a scrolling price chart. The world is a
grid of cells. It scrolls left under a fixed vertical price line, while a
simulated price wanders up and down. The player taps (or drags across) cells ahead
of the line to bet the selected stake on them. Each bet freezes a payout multiplier
chosen by how many rows the cell lies from the current price. When the price line
reaches the bet's column, the bet is settled.

This project models two variants of that engine.

- **The refined game** (`src/components/tap-trade.tsx`).
  - Placement is refused when:
    - the cell lies behind the line;
    - the cell already holds a pending bet;
    - the balance is below the stake.
  - Every animation frame settles at most one bet.
    - Pending bets are visited from left to right.
    - A bet wins when the line is inside its column and the price is inside its row.
    - A bet loses once the line has passed its right edge.
  - Pending bets more than ten columns behind the line are dropped.
  - A win credits stake × multiplier and sets off an explosion of comets, sparks and
    embers, plus an impact flash.
- **The reference variant** (`references/concept_artifact/src/app/page.tsx`).
  - Placement is refused only behind the line.
  - On an eight-column grid, every pending bet the line reaches settles in the same
    frame, by a random roll against a win chance that falls with the distance.
  - A periodic cleanup drops far-behind pending bets.
  - A win sets off a burst of 24 particles.

The two variants are separate modules. They share only the multiplier table, the
ease-out curve, the price process and the notification list.

Module layout:

| file | module | contents |
|---|---|---|
| `numeric.dfy` | `Numeric` | small real-arithmetic facts |
| `wrappers.dfy` | `Wrappers` | `Option`, keep-last-n |
| `payout.dfy` | `Payout` | multiplier table, ease-out curve (both variants) |
| `price.dfy` | `PriceProcess` | frame delta, velocity process, price trail (both variants) |
| `ledger.dfy` | `Ledger` | bets, statuses, notifications, pending bets per cell |
| `viewport.dfy` | `Viewport` | refined geometry and coordinate maps |
| `resolution.dfy` | `Resolution` | refined per-frame settlement, as a loop and as a specification |
| `particles.dfy` | `Particles` | refined explosion particles and impacts (class `Effects`) |
| `taptrade.dfy` | `TapTrade` | the refined session state (class `Game`) |
| `concept_grid.dfy` | `ConceptGrid` | reference geometry and hit test |
| `concept_particles.dfy` | `ConceptParticles` | reference particle burst |
| `concept_bets.dfy` | `ConceptBets` | reference resolution and cleanup |
| `concept_game.dfy` | `ConceptGame` | the reference session state (class `Game`) |

Arithmetic is over `real`. The following are parameters of the operations that
use them:

- every random draw;
- the sine drift of the price;
- the cosine and sine of each particle's angle;
- every clock reading.

`Math.floor` is `.Floor`. JavaScript's truncating `%` is written out (`ConceptGrid.JsRem`).

## Model

| member | source | states |
|---|---|---|
| Payout.GetMultiplier | src/components/tap-trade.tsx:27-38 | the payout factor is always one of the ten table values, between 2 and 200 |
| Payout.Band | src/components/tap-trade.tsx:27-38 | an independent description of the bands as a ceiling: the band index is always a valid table index |
| Payout.MultiplierIsBandLookup | src/components/tap-trade.tsx:27-38 | the if-chain equals the table entry of the band holding the distance, upper edges included |
| Payout.MultiplierMonotone | src/components/tap-trade.tsx:27-38 | a greater distance never pays a smaller multiplier |
| Payout.MultiplierEdges | src/components/tap-trade.tsx:27-38 | 0, 0.3 and 0.5 pay 2; 0.51 and 1.5 pay 5; 8.5 pays 150; 9 pays 200 |
| Payout.EaseOutExpo | src/components/tap-trade.tsx:43-46 | the ease-out maps [0, 1] into [0, 1] |
| Payout.EaseOutExpoShape | src/components/tap-trade.tsx:43-46 | the curve starts at 0, ends at 1 and is non-decreasing on [0, 1] |
| Payout.EasedStep | src/components/tap-trade.tsx:488-499 | an eased step is never longer than the velocity it scales |
| PriceProcess.FrameDelta | src/components/tap-trade.tsx:695-697 | the delta is at most 50 ms, 0 on the first frame, never negative for a later timestamp, and the true elapsed time when that is at most 50 |
| PriceProcess.Clamp | src/components/tap-trade.tsx:704 | the result lies within the limit, is no larger in magnitude than the input, and is the input when that is within the limit |
| PriceProcess.StepVelocity | src/components/tap-trade.tsx:702-704 | after a shock, the damping and the clamp, the velocity is within the speed limit |
| PriceProcess.CalmStepSlowsDown | src/components/tap-trade.tsx:702-704 | a step without a shock shrinks the speed at least by the damping factor |
| PriceProcess.ShockIsBounded | src/components/tap-trade.tsx:702 | a shock changes the velocity by at most half its scale |
| PriceProcess.Aged | src/components/tap-trade.tsx:710 | every trail sample keeps its price and ages by exactly the step |
| PriceProcess.KeepYoung | src/components/tap-trade.tsx:713 | the age filter never lengthens the trail |
| PriceProcess.KeepYoungMembers | src/components/tap-trade.tsx:713 | a sample survives the filter exactly when it was on the trail and is younger than the age limit |
| PriceProcess.KeepYoungKeepsOrder | src/components/tap-trade.tsx:713 | the filter keeps the trail newest-first |
| PriceProcess.AdvanceTrailInvariant | src/components/tap-trade.tsx:710-713 | after aging, prepending the new price and filtering, the trail is newest-first with ages in [0, maxAge), it grows by at most one, and the current price leads it |
| Ledger.AddToast | src/components/tap-trade.tsx:132-136 | the new notification is last, at most three are shown, and the two most recent older ones are kept when the list was full |
| Ledger.CountZeroIffNone | src/components/tap-trade.tsx:241 | a cell's pending count is zero exactly when no pending bet is on that cell, which is the duplicate check placement performs |
| Ledger.CountAppend | src/components/tap-trade.tsx:241 | pending counts add up over concatenation |
| Ledger.CountPerm | src/components/tap-trade.tsx:727-732 | reordering the bets (as the sort does) leaves every cell's pending count unchanged |
| Ledger.AppendToFreeCell | src/components/tap-trade.tsx:241-261 | appending a pending bet to a cell without one keeps every cell at most singly occupied |
| Viewport.CellDims | src/components/tap-trade.tsx:222-230 | cells are square, positive and at most 90 px. They reach 90 exactly when the grid is at least 500 px wide. Five cells fit in 90% of the grid, and the visible columns cover the grid |
| Viewport.PriceLineAtHead | src/components/tap-trade.tsx:715 | the price-line column is drawn exactly at the fixed head, 40% across the grid |
| Viewport.CentreOffset | src/components/tap-trade.tsx:707-708 | with this offset, the price's row is drawn at the vertical middle of the grid |
| Viewport.PointerToGrid | src/components/tap-trade.tsx:819-827 | no hit while a cell size is zero; otherwise the hit is on the grid exactly when the pointer lies within the padded area |
| Viewport.RoundTrip | src/components/tap-trade.tsx:819-836 | mapping any cell to its screen centre and back yields the same cell |
| Viewport.PointerInsideItsCell | src/components/tap-trade.tsx:819-836 | the pointer lies within half a cell of the centre of the cell it is mapped to |
| Resolution.Settled | src/components/tap-trade.tsx:727-732 | the settled part holds no pending bet |
| Resolution.PendingOf | src/components/tap-trade.tsx:727-732 | the pending part holds only pending bets |
| Resolution.SplitIsPermutation | src/components/tap-trade.tsx:727-732 | the settled and pending parts together are a permutation of the bets |
| Resolution.InsertByX | src/components/tap-trade.tsx:727-732 | insertion adds exactly one bet and keeps a column-sorted list sorted |
| Resolution.SortByX | src/components/tap-trade.tsx:727-732 | the pending bets, sorted by column, as a permutation |
| Resolution.InsertByXColumn | src/components/tap-trade.tsx:727-732 | inserting a bet puts it first among the bets of its own column and leaves every other column's bets as they were |
| Resolution.SortByXIsStable | src/components/tap-trade.tsx:727-732 | the sort is stable: in every column the bets keep the order they had, as the comparator's `a.gridX - b.gridX` ties leave them |
| Resolution.OrderIsPermutation | src/components/tap-trade.tsx:727-732 | the visiting order is a permutation of the bets |
| Resolution.OrderSettledFirst | src/components/tap-trade.tsx:727-732 | settled bets come first in their original order, and everything after them is pending |
| Resolution.OrderPendingByColumn | src/components/tap-trade.tsx:727-732 | pending bets are visited in non-decreasing column order |
| Resolution.ResolveBlocks | src/components/tap-trade.tsx:723-786 | the settlement updater returns exactly the specified bets and outcome |
| Resolution.WalkBlocks | src/components/tap-trade.tsx:734-784 | the loop with its `resolvedOne` flag computes the specified walk (loop invariant) |
| Resolution.FirstDue | src/components/tap-trade.tsx:734-783 | the index of the first due bet: no earlier bet is due, and the bet at the index is |
| Resolution.Settle | src/components/tap-trade.tsx:752-780 | a settled bet is no longer pending, and only its status changed |
| Resolution.DropStale | src/components/tap-trade.tsx:740 | dropping stale bets never lengthens the list |
| Resolution.DropStaleMember | src/components/tap-trade.tsx:721-740 | a bet survives exactly when it was there and is not a pending bet more than ten columns behind the line |
| Resolution.ScanIsSettleFirstDue | src/components/tap-trade.tsx:724-783 | the walk equals the independent description: settle the first due bet, drop the stale ones, keep the rest in order |
| Resolution.SameBets | src/components/tap-trade.tsx:727 | the visiting order holds the same bets |
| Resolution.QuietIffNoneDue | src/components/tap-trade.tsx:734-783 | a frame settles nothing exactly when no bet is due |
| Resolution.SettlesLeftmostDue | src/components/tap-trade.tsx:724-746 | the settled bet was due, and no due bet lies in a column left of it |
| Resolution.SettlementReason | src/components/tap-trade.tsx:752-780 | a win only with the line inside the column and the price within half a row; a loss only with the line past the right edge |
| Resolution.KeptBetsComeFromInput | src/components/tap-trade.tsx:734-783 | every bet after the frame is a non-stale input bet or the settled outcome bet |
| Resolution.OtherBetsKept | src/components/tap-trade.tsx:734-783 | every non-stale bet other than the outcome bet survives unchanged |
| Resolution.SettledBetsStay | src/components/tap-trade.tsx:735-738 | settled bets stay in front, unchanged and in their order |
| Resolution.ResolveKeepsCellsSingle | src/components/tap-trade.tsx:734-783 | a frame never raises any cell's pending count |
| Resolution.ResolvePreservesOnePendingPerCell | src/components/tap-trade.tsx:734-783 | no cell holds two pending bets after a frame if none did before |
| Particles.Jitter | src/components/tap-trade.tsx:150-151 | a spawn offset lies within half the spread of the centre |
| Particles.NewComet | src/components/tap-trade.tsx:144-164 | a comet has full life in [0.4, 0.7), size in [2.5, 4.5), gravity in [0.03, 0.05), lies within 2 px of the centre, and its trail starts at the centre |
| Particles.NewSpark | src/components/tap-trade.tsx:166-184 | a spark has full life in [0.15, 0.35), size in [1.5, 3), gravity 0.02, no trail, and lies within 3 px of the centre |
| Particles.NewEmber | src/components/tap-trade.tsx:186-205 | an ember has full life in [0.5, 0.9), size in [2, 3.5), gravity in [0.04, 0.07), lies within 4 px of the centre, and its trail starts at the centre |
| Particles.Spawned | src/components/tap-trade.tsx:143-205 | draws 0-5 give comets, 6-17 sparks and 18-22 embers, each well formed with life equal to its life span |
| Particles.Explosion | src/components/tap-trade.tsx:139-208 | an explosion is 23 well-formed particles |
| Particles.Move | src/components/tap-trade.tsx:487-506 | a spark moves by its full velocity and slows by friction 0.92. A comet or ember moves by at most its velocity and keeps it |
| Particles.Advance | src/components/tap-trade.tsx:481-516 | dropped exactly when below 3% of its life or when 0.02 more uses it up. Otherwise life falls by 0.02 and stays positive. The comet trail keeps its last 12 positions and the ember trail its last 6 |
| Particles.Survivors | src/components/tap-trade.tsx:481-511 | a frame never adds particles; every survivor has positive life and stays well formed |
| Particles.SurvivorsAge | src/components/tap-trade.tsx:509 | a frame takes 0.02 off every surviving particle's life |
| Particles.BurnOut | src/components/tap-trade.tsx:481-511 | particles with at most n frames of life are all gone after n frames |
| Particles.LastFrame | src/components/tap-trade.tsx:509-511 | particles with at most one frame of life all die in the next frame |
| Particles.AllGoneWithinFiftyFrames | src/components/tap-trade.tsx:481-511 | with nothing spawned, every particle is gone within 50 frames |
| Particles.LiveImpacts | src/components/tap-trade.tsx:427-430 | the impact filter never adds impacts |
| Particles.LiveImpactMember | src/components/tap-trade.tsx:427-430 | an impact stays exactly when it is at most 250 ms old |
| Particles.Effects.constructor | src/components/tap-trade.tsx:115-116 | no particles and no impacts at start |
| Particles.Effects.SpawnExplosion | src/components/tap-trade.tsx:139-208 | one impact and the 23 particles of the explosion are appended, all well formed |
| Particles.Effects.UpdateParticles | src/components/tap-trade.tsx:481-516 | the particles become exactly the survivors of one frame |
| Particles.Effects.ExpireImpacts | src/components/tap-trade.tsx:427-430 | the impacts become exactly the live ones |
| Payout.FrozenMultiplier | src/components/tap-trade.tsx:250-251 | a placed bet's multiplier is a table value; the reference variant freezes it the same way (references/concept_artifact/src/app/page.tsx lines 178-179) |
| TapTrade.WinAtLeastDouble | src/components/tap-trade.tsx:756 | a won bet pays at least twice its positive stake |
| TapTrade.ResolveKeepsPrices | src/components/tap-trade.tsx:734-783 | settlement keeps every stake offered and every multiplier in the table, the outcome bet's included |
| TapTrade.WinRate | src/components/tap-trade.tsx:895-896 | the win rate is the percentage of wins among settled bets, in [0, 100], and 0 before any settlement |
| TapTrade.TrailStep | src/components/tap-trade.tsx:710-713 | a trail update keeps the motion invariant and puts the new price first |
| TapTrade.Game.Pnl | src/components/tap-trade.tsx:893 | profit equals total won minus total wagered, and is never below minus the starting balance |
| TapTrade.Game.constructor | src/components/tap-trade.tsx:99-124 | a session starts with a balance of 1000, a stake of 5, no bets or notifications, zero counters and totals, no scroll, the price at row 6 with zero velocity, an empty trail, zero vertical offset and clock, the geometry of the given container, no hover, drag or remembered cell, and no particles or impacts |
| TapTrade.Game.SelectBet | src/components/tap-trade.tsx:1274-1277 | selecting an offered stake sets the stake and keeps the session invariant; bets, balance, notifications, statistics, scroll, price, trail, clock, geometry, drag state and effects stay |
| TapTrade.Game.Resize | src/components/tap-trade.tsx:213-233 | a usable container recomputes the geometry; an empty one leaves it. Nothing else changes: stake, bets, balance, notifications, statistics, scroll, price, trail, clock, drag state and effects stay |
| TapTrade.Game.PlaceBlock | src/components/tap-trade.tsx:239-262 | placement succeeds exactly when the cell is at or ahead of the line, is free, and the stake is covered. On success the stake is debited (the balance stays non-negative), it is added to the wager total, and one pending bet with the frozen multiplier is appended. On refusal nothing changes except the insufficient-balance notification |
| TapTrade.Game.Scroll | src/components/tap-trade.tsx:695-699 | the world scrolls by 0.04 px per clamped millisecond, at most 2 px per frame |
| TapTrade.Game.MovePrice | src/components/tap-trade.tsx:700-713 | the velocity takes one bounded step, the price moves by drift plus velocity, the grid is re-centred on it, and the trail is advanced with the price first |
| TapTrade.Game.Credit | src/components/tap-trade.tsx:756-760 | a win raises the balance and the won total by stake × multiplier, counts one win, and posts the amount |
| TapTrade.Game.CreditWin | src/components/tap-trade.tsx:754-766 | as Credit, and an explosion plus an impact at the price head |
| TapTrade.Game.CountLoss | src/components/tap-trade.tsx:774-780 | a loss counts one loss, posts the stake, and leaves the balance alone |
| TapTrade.Game.RecordOutcome | src/components/tap-trade.tsx:752-780 | a win, a loss or a quiet frame has exactly its booking effect |
| TapTrade.Game.ResolveAtLine | src/components/tap-trade.tsx:715-786 | the bets become the settled bets at the current line and price, keeping the invariant, and nothing else changes |
| TapTrade.Game.SettleBets | src/components/tap-trade.tsx:721-786 | the bets and the outcome are those of the specification, and the outcome is booked |
| TapTrade.Notified | src/components/tap-trade.tsx:760-776 | a win adds its payout notification, a loss its stake notification, a quiet frame none; at most three show |
| TapTrade.Game.MoveWorld | src/components/tap-trade.tsx:694-713 | scroll by the clamped frame delta, then the velocity step, the price move, the centring offset and the trail aged by the scrolled distance |
| TapTrade.Game.SettleAndAnimate | src/components/tap-trade.tsx:715-786 | the bets and outcome are those of the specification; the balance, counters and notification follow the outcome; the particles are one frame's survivors of the old particles together with a win's explosion, and the impacts the live ones (with a win's impact) |
| TapTrade.Game.AnimateEffects | src/components/tap-trade.tsx:481-516 | the impacts become the live ones and the particles the survivors of one frame |
| TapTrade.Game.Tick | src/components/tap-trade.tsx:694-790 | one frame: scroll, price step, trail, at most one settlement with its credit, counters and notification, and the particle and impact update; the session invariant holds throughout |
| TapTrade.Game.PlaceWithExplosion | src/components/tap-trade.tsx:849-854 | a bet is placed exactly when `PlaceBlock` accepts it; then it is appended and debited, its cell is remembered and an explosion goes off at the cell's centre; otherwise bets, books, remembered cell and effects stay and only a short balance notifies |
| TapTrade.Game.PointerDown | src/components/tap-trade.tsx:838-855 | off the grid nothing changes. Behind the line or with the stake uncovered, only a notification. Otherwise dragging starts, and a free aimed cell gets the bet, the debit, the remembered cell and the explosion at its centre, while an occupied one changes nothing more. In every case the scroll, price, velocity, trail, clock, geometry, stake, statistics and hover stay |
| TapTrade.Game.PointerMove | src/components/tap-trade.tsx:857-878 | hover follows the pointer on the grid and clears off it. While dragging with the stake covered, a free on-grid cell ahead of the line other than the remembered one gets the bet, the debit, the remembered cell and the explosion; in every other case bets, books, remembered cell and effects stay. The scroll, price, velocity, trail, clock, geometry, stake and statistics always stay |
| TapTrade.Game.PointerUp | src/components/tap-trade.tsx:880-883 | dragging stops and the remembered cell is forgotten; everything else (hover, stake, bets, books, statistics, scroll, price, trail, clock, geometry, effects) stays |
| TapTrade.Game.PointerLeave | src/components/tap-trade.tsx:885-889 | as a release, and the hover clears; stake, bets, books, statistics, scroll, price, trail, clock, geometry and effects stay |
| ConceptParticles.Ease | references/concept_artifact/src/app/page.tsx:44-50 | the squaring form equals the tenth-power ease-out, in [0, 1] on [0, 1] |
| ConceptParticles.Fresh | references/concept_artifact/src/app/page.tsx:118-135 | a fresh particle has life 1, lies within 3 px of the centre, moves slower than 20 px per frame per axis, has size in [2.5, 4.5), and its trail holds its spawn point |
| ConceptParticles.Burst | references/concept_artifact/src/app/page.tsx:115-140 | a burst is 24 well-formed particles with life 1 |
| ConceptParticles.Update | references/concept_artifact/src/app/page.tsx:307-324 | a frame takes 0.03 of life and adds 0.04 of gravity. The trail keeps its last 18 points. The particle stays visible exactly when more than 0.03 of life was left |
| ConceptParticles.UpdateStepIsBounded | references/concept_artifact/src/app/page.tsx:319-320 | a live particle moves by at most its velocity per axis |
| ConceptParticles.NextFrame | references/concept_artifact/src/app/page.tsx:307-348 | the filter never adds particles |
| ConceptParticles.NextFrameKeepsWellFormed | references/concept_artifact/src/app/page.tsx:307-348 | survivors stay well formed |
| ConceptParticles.NextFrameAges | references/concept_artifact/src/app/page.tsx:322 | a frame takes 0.03 off every survivor's life |
| ConceptParticles.FinalFrame | references/concept_artifact/src/app/page.tsx:322-347 | particles with at most 0.03 of life are all gone after the next frame |
| ConceptParticles.FadeOut | references/concept_artifact/src/app/page.tsx:307-348 | particles with at most n frames of life are all gone after n frames |
| ConceptParticles.AllGoneWithinThirtyFourFrames | references/concept_artifact/src/app/page.tsx:307-348 | with nothing spawned, every particle is gone within 34 frames |
| ConceptGrid.Resized | references/concept_artifact/src/app/page.tsx:154-159 | cells are square, eight fill 90% of the grid width, and the size is positive exactly when the container is wider than the padding |
| ConceptGrid.Trunc | references/concept_artifact/src/app/page.tsx:465 | truncation toward zero, as JavaScript's `%` uses |
| ConceptGrid.JsRemBounds | references/concept_artifact/src/app/page.tsx:465 | the remainder lies in (-c, c), and for a non-negative dividend it is the floored remainder |
| ConceptGrid.RowScrollIsFlooredRemainder | references/concept_artifact/src/app/page.tsx:463 | the double remainder is the floored remainder, in [0, cell height) |
| ConceptGrid.LineColumn | references/concept_artifact/src/app/page.tsx:425-426 | the line column is the floored scroll column plus 3.2, and it is undefined while the cell width is zero |
| ConceptGrid.ExactLineColumn | references/concept_artifact/src/app/page.tsx:552 | the cleanup's unfloored line lies within one column ahead of the frame's floored line |
| ConceptGrid.LineOverColumn | references/concept_artifact/src/app/page.tsx:430 | the line is over column gx, both edges included, exactly when the floored scroll column is gx - 3 |
| ConceptGrid.AheadOfLine | references/concept_artifact/src/app/page.tsx:168-169 | a column is at or ahead of the line exactly when it is at least four past the floored scroll column |
| ConceptGrid.AimAt | references/concept_artifact/src/app/page.tsx:454-478 | no aim while a cell size is zero. The aim is within the grid rows exactly when the pointer is between the padded top and bottom. The world cell is the aimed column and row past the whole scrolled cells |
| ConceptGrid.AimIsWorldCell | references/concept_artifact/src/app/page.tsx:461-478 | for a non-negative scroll, the aimed cell is the world cell containing the pointer, on both axes |
| ConceptGrid.AimCentreIsCellCentre | references/concept_artifact/src/app/page.tsx:486-488 | the burst point is the screen centre of the aimed world cell |
| ConceptBets.WinChance | references/concept_artifact/src/app/page.tsx:432 | the chance falls by a quarter per row and never drops below 5%; it is at most 1 |
| ConceptBets.HitsWithinOneRow | references/concept_artifact/src/app/page.tsx:431-433 | a hit happens exactly when the distance is at most one row and the roll is under 1 - d/4, so the 5% floor never decides a win |
| ConceptBets.Judge | references/concept_artifact/src/app/page.tsx:428-446 | only a pending bet reached by the line (both edges included) changes; it wins exactly when it hits, and always loses beyond one row |
| ConceptBets.JudgeAll | references/concept_artifact/src/app/page.tsx:428-447 | every bet is judged with its own roll, with no throttle |
| ConceptBets.Walk | references/concept_artifact/src/app/page.tsx:428-447 | the map with its side effects computes the specified pass (loop invariant) |
| ConceptBets.SweepJudgesAll | references/concept_artifact/src/app/page.tsx:428-447 | the pass's bets are the judged bets |
| ConceptBets.SweepPaysOut | references/concept_artifact/src/app/page.tsx:434-436 | the pass credits exactly the payouts of the bets it settles as won |
| ConceptBets.SweepBursts | references/concept_artifact/src/app/page.tsx:438 | one burst of 24 fresh particles per win |
| ConceptBets.SweepToasts | references/concept_artifact/src/app/page.tsx:107-113 | at most three notifications after the pass |
| ConceptBets.PayoutAtLeastDouble | references/concept_artifact/src/app/page.tsx:435 | a won bet pays at least twice its positive stake |
| ConceptBets.PayoutsNonNegative | references/concept_artifact/src/app/page.tsx:434-436 | a frame's payout is never negative, and is positive when some bet wins |
| ConceptBets.JudgeAllKeepsPrices | references/concept_artifact/src/app/page.tsx:428-447 | judging keeps stakes and multipliers |
| ConceptBets.Cleared | references/concept_artifact/src/app/page.tsx:553 | the cleanup never adds bets |
| ConceptBets.ClearedMember | references/concept_artifact/src/app/page.tsx:553 | a bet survives exactly when it was there and is settled or within ten columns of the line |
| ConceptBets.ClearedKeepsSettled | references/concept_artifact/src/app/page.tsx:553 | the cleanup never drops a settled bet |
| ConceptBets.ClearedKeepsPrices | references/concept_artifact/src/app/page.tsx:553 | the cleanup keeps the bets well priced |
| ConceptGame.TrailStep | references/concept_artifact/src/app/page.tsx:421-424 | a trail update keeps the motion invariant and puts the new price first |
| ConceptGame.SweepKeepsInvariant | references/concept_artifact/src/app/page.tsx:428-447 | the pass keeps bets well priced, the balance non-negative, the bursts well formed and the notifications at three or fewer |
| ConceptGame.Animate | references/concept_artifact/src/app/page.tsx:307-348 | the particle filter loop computes exactly one frame of the particles |
| ConceptGame.Game.constructor | references/concept_artifact/src/app/page.tsx:84-101 | a session starts with a balance of 1000, a stake of 5, no bets, the price at row 6 and zero geometry |
| ConceptGame.Game.SelectBet | references/concept_artifact/src/app/page.tsx:600 | selecting an offered stake sets the stake and keeps the session invariant; bets, balance, notifications, scroll, price, trail, clock, geometry, particles and drag state stay |
| ConceptGame.Game.Resize | references/concept_artifact/src/app/page.tsx:143-160 | a container with area recomputes the geometry; an empty one leaves it. Stake, bets, balance, notifications, scroll, price, trail, offset, clock, particles and drag state stay |
| ConceptGame.Game.PlaceBlock | references/concept_artifact/src/app/page.tsx:167-190 | placement succeeds exactly at or ahead of the line, even on an occupied cell. A covered stake is debited. An uncovered one is not debited and posts a notification, yet the bet is appended anyway |
| ConceptGame.Game.SpawnParticles | references/concept_artifact/src/app/page.tsx:115-140 | the 24 particles of a burst are appended |
| ConceptGame.Game.Scroll | references/concept_artifact/src/app/page.tsx:407-411 | the world scrolls by 0.04 px per clamped millisecond, at most 2 px per frame |
| ConceptGame.Game.MovePrice | references/concept_artifact/src/app/page.tsx:412-424 | the velocity takes one bounded step, the price moves by drift plus velocity, the grid is offset by the distance from row 6, and the trail is advanced |
| ConceptGame.Game.Settle | references/concept_artifact/src/app/page.tsx:425-447 | every bet is judged, the balance grows by exactly the payouts, the notifications are the pass's, and the pass's bursts at the price head (24 particles per win) are appended. Nothing happens while the line is undefined |
| ConceptGame.Game.Book | references/concept_artifact/src/app/page.tsx:428-447 | the bets become the judged bets, the balance grows by the payouts, the notifications become the pass's and the pass's bursts at the price head are appended |
| ConceptGame.Game.UpdateParticles | references/concept_artifact/src/app/page.tsx:307-348 | the particles become exactly one frame of the filter |
| ConceptGame.Game.MoveWorld | references/concept_artifact/src/app/page.tsx:406-424 | scroll by the clamped frame delta, then the velocity step, the price move, the grid offset and the trail aged by the scrolled distance |
| ConceptGame.Game.SettleAndAnimate | references/concept_artifact/src/app/page.tsx:425-447 | the reached bets are judged, paid out and notified, and the particles become one frame of the old ones plus the bursts. While the cell width is zero the line is undefined and the frame is not drawn, so nothing is judged and the particles stay as they were |
| ConceptGame.Game.Tick | references/concept_artifact/src/app/page.tsx:406-450 | one frame: scroll, price step, grid offset, trail, every reached bet judged, paid out and notified, and the particles moved one frame with the new bursts; at zero cell width no bet is judged and the particles stay, since no frame is drawn. The session invariant holds throughout |
| ConceptGame.Game.Cleanup | references/concept_artifact/src/app/page.tsx:548-556 | the bets become the cleared bets, while the cell width is non-zero; every settled bet stays, and nothing but the bets changes |
| ConceptGame.Game.MouseDown | references/concept_artifact/src/app/page.tsx:454-491 | off the eight columns or rows nothing happens. Behind the line or with the stake uncovered, only a notification. Otherwise the bet is placed and debited, dragging starts, the cell is remembered, and a burst starts at its centre. Refused presses leave dragging, the remembered cell and the particles as they were. The scroll, price, velocity, trail, clock, geometry, stake and hover always stay |
| ConceptGame.Game.DragPlace | references/concept_artifact/src/app/page.tsx:523-531 | a dragged-over bet is placed, debited and remembered, and a burst starts; the scroll, price, velocity, trail, clock, geometry, stake, hover and drag flag stay |
| ConceptGame.Game.MouseMove | references/concept_artifact/src/app/page.tsx:493-535 | hover is the aimed cell on the board and clears off it. A drag places a bet exactly on an on-board cell ahead of the line that is not the remembered one, and a burst starts at that cell's centre; otherwise bets, balance, remembered cell and particles stay. The notifications, drag flag, scroll, price, velocity, trail, clock, geometry and stake always stay |
| ConceptGame.Game.MouseUp | references/concept_artifact/src/app/page.tsx:537-540 | dragging stops and the remembered cell is forgotten; hover, bets, balance, notifications, particles, stake, geometry, scroll, price, trail and clock stay |
| ConceptGame.Game.MouseLeave | references/concept_artifact/src/app/page.tsx:542-546 | as a release, and the hover clears; bets, balance, notifications, particles, stake, geometry, scroll, price, trail and clock stay |

## Left out

- Drawing:
  - all canvas drawing (colours, alpha and radius curves, gradients, text);
  - the share card, image export and sharing;
  - `formatMultiplier`, which only formats text.
- The 1.5 s timer that removes a notification. Only the three-item cap is modelled.
- React scheduling:
  - `useState` updaters run in the order the handlers call them, and a frame is one
    sequential `Tick`;
  - the stale closures over `balance` in the pointer handlers and in refined
    `placeBlock` (whose updater re-checks the balance) are modelled as reading the
    current balance;
  - the stale `blocksRef` snapshot is modelled as the current bet list.
- DOM geometry and events:
  - pointer extraction and touch/mouse event plumbing (`getPointerCoords`) are left
    out; handlers take pixel coordinates;
  - `requestAnimationFrame` and `useEffect` wiring are left out.
- Clocks and ids:
  - `performance.now()` and `Date.now()` are a `now` parameter, one reading per frame
    or handler;
  - a bet's string id is a `nat` parameter.
- Trigonometry:
  - the sideways wave steering of comets and embers (refined) and of every particle
    (reference) uses square roots and sines, so it is left out and velocities are not
    steered;
  - particle directions are parameters.
- Floating point: IEEE rounding, and the `Infinity`/`NaN` a zero cell width produces
  in the refined handlers and tick.
- TapTrade.Game.constructor: takes the first container size and requires it to be
  wider than the padding and of positive height, whereas the component mounts with zero geometry and resizes
  afterwards.
- TapTrade.Game.Resize: also ignores a container too narrow to leave a positive cell
  size, where the source would store a non-positive cell width.
- TapTrade.Game.Tick: requires timestamps that never decrease, as animation frames
  deliver them.
- ConceptGame.Game.Tick: requires timestamps that never decrease, for the same reason.
- TapTrade.Game.SettleAndAnimate: the source spawns a win's explosion and impact from
  inside the `setBlocks` updater. The model applies them at once, so the new explosion
  is advanced by the same frame's particle update.
- ConceptGame.Game.Settle: the source fires the balance, notification and particle
  effects from inside the `setBlocks` updater. The model applies them at once, and
  before the particle update of the same frame.
- ConceptBets.Judge: each bet's roll and burst draws are a `Luck` parameter, one per
  bet per frame.
- ConceptParticles.NextFrame: its contract bounds the length only; well-formedness of
  the survivors is `NextFrameKeepsWellFormed` and their ageing is `NextFrameAges`.
- ConceptGame.Game.Cleanup: the 2-second interval is an operation the caller invokes.
- The refined tick draws explosion particles from a `draws` parameter on every frame;
  only a winning frame uses them.
