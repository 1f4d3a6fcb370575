# Verification of the hedging bot

A Dafny model of the bot that keeps a hedge position in step with a net exposure, and proofs about it. `dafny verify
dfyconfig.toml` checks everything.

The centre is the hedge loop of one configuration, a step system over what the database and the exchange know. Its
steps are automatic and manual runs, exchange fills, reconciliations, position and exposure syncs and the passing of
time; every answer of the outside world is a parameter of a step. The close lifecycle is a second step system built on
the first: an exit in its four separate steps, reconciliation chains, crashes at any point and the recovery at start-up.
The main theorems are about all runs of these systems. Around them stand the components they rely on.

| file | content |
|---|---|
| Money, Symbols | decimals as `real`, options, case and white space of names |
| Calculator | the hedge decision, the close decision, convergence |
| Positions, ExitPosition | exchange positions, snapshots, closing exactly, the live position an exit works on |
| Monitor | the second decision function, of the monitoring read model |
| OrderStore | plans and executions, as specification functions and as the class `Database` |
| HedgeLoop | the step system of one configuration |
| Guard | what a reconcile stores and when an automatic run is blocked for which reason, read off rows and orders |
| RunSteps | what a run asks for and leaves, and what every other step changes, field by field |
| Idempotence | one plan, one execution and one placement per key |
| PlanAgreement | when plans show the status of their executions, live and dry runs mixed, exactly |
| Sequencing | orders come one after the other: at most one is outstanding, and the guard looks it up |
| Cooldown | between a fill and any later execution lies at least the cooldown |
| FreshDecisions | no stale decision, no flip |
| Clocks, LoopLimits | when a decision is stale, exactly; two histories in which one is |
| CloseStore, Chains | close requests with the class `Repository`; reconciliation tasks and their delays |
| CloseLifecycle | the step system of closing |
| CloseSteps | what every step of a close does to rows, snapshot and tasks |
| CloseInvariants, CloseOutcome | one outstanding request, nothing stranded, safe completion, chains that end |
| CloseDiscipline | when a request is outstanding exactly while closing, and when ended requests stay ended, exactly |
| RunsAfterClose | which runs still order after a close has begun, exactly |
| CloseLimits | histories from the start of the service in which those exact conditions fail |
| HedgeService | the service as a class; every method is proved to make exactly the steps of the systems above |
| Locking | the token lock |
| SimulatedExchange, SimulatedLoop | the in-memory exchange, its maps and its position fold; the hedge loop on it |
| PositionSync, ExposureSync | the two periodic syncs |
| MarketRows, MarketSync, MarketTable | market normalisation, deduplication, filters, upsert and prune |

Code that works by changing things in place is modelled by classes and loops, each method proved against a specification
function (or directly against its promise); the theorems are about those functions. What each specification function
computes is stated once more without it, over rows, orders, snapshots and reported values (`Guard`, `RunSteps`,
`CloseSteps`, and the lemmas named `...Exactly` beside the functions themselves).

## What the proofs found

Several things one would expect of the code are not true of it. For each there is a theorem that says exactly when they
hold, and a concrete state or history in which they do not.

- The guard trusts a snapshot whose stamp is not before the last fill. Over every run on an exchange that behaves,
  whatever the clock reads, every order is decided on the quantity held if and only if no run passes its guard on such a
  snapshot that is not what the loop's own records say the last order has left, and then executes an order
  (`Clocks.FreshExactly`, `Clocks.NextRunIsStaleExactly`). With a clock that advances between steps and no stamps in the
  future, every decision is fresh and the position never flips (`Clocks.AdvancingDecisionsAreFresh`,
  `Clocks.AdvancingNeverFlips`); a position stamped in the future, or a sync and a fill at one instant, break it
  (`LoopLimits`).
- Only automatic runs are held back by an order that is still open. Over every run of any kind, all executions but the
  last are final if and only if no other run executes over an open order (`Sequencing.OrderedExactly`); nothing is
  assumed of the exchange.
- The check constraint on order executions (internal/db/migrations/000001_init.up.sql:304) knows no canceled order. A
  placement the exchange answers with "canceled" leaves no execution, and the next run places it again
  (`Idempotence.CanceledPlacementIsRepeated`). Over every run, PlaceOrder is called once per key, with an execution for
  each, if and only if no run about to call it is answered with such a status (`Idempotence.OncePerKeyExactly`). The store
  stays sound whatever is answered (`Idempotence.StoreStaysSound`), and a key with an execution is never submitted again
  (`Idempotence.NeverResubmitted`).
- A plan and its execution agree in their status, live and dry runs mixed, if and only if no dry run wants an order for
  which an earlier run left a plan open (`PlanAgreement.PlansAgreeExactly`, `Idempotence.DryRunToggleDisagrees`).
- A reduce-only order that shrinks a hedge can ask for more than is held. Filled completely by an exchange that does not
  clamp it, it flips the position if and only if its adjustment is worth more than the holding at the exposure's mark
  and it is no close leg of a reversal (`Calculator.UnclampedFlipExactly`). The simulated exchange is the default one
  (internal/config/config.go:72) and does not clamp: it stores the reduce-only flag and fills the whole quantity
  (internal/exchange/simulated.go:251-267). The clamp assumed by `FreshDecisions.PositionNeverFlips` is therefore false
  of it. There an order flips the position exactly under that condition (`SimulatedLoop.SimulatedFlipExactly`,
  `SimulatedLoop.SimulatedExchangeFlips`), and never while the stored notional is within the holding's value at the
  exposure's mark (`SimulatedLoop.NoSimulatedFlip`).
- With a minimum order of zero the monitor asks for orders of size zero that the calculator never places; the exact
  condition is `Monitor.ZeroAdjustmentPasses`.
- An account in hedge mode with legs at different marks can be stored with quantity and notional of opposite signs. The
  monitor reads a synced snapshot as stored if and only if the two signed sums do not have opposite signs
  (`PositionSync.ReadAsStoredExactly`, `PositionSync.MixedLegsAreStoredMixed`).
- Two configurations whose targets differ only in case share one synced snapshot, written under one spelling. For every
  list: a configuration's own spelling is written if and only if each later one that wants the symbol under another
  spelling is followed by one that spells it this way again (`PositionSync.SpellingWrittenExactly`).
- `UpdateHedgeCloseStatus` and `finishHedgeClose` do not look at the status they overwrite. A second chain can set a
  completed close back to verifying, and a leftover chain can disable the configuration under a new close
  (`CloseLimits`). Over whole runs, a request is outstanding exactly while the configuration is closing if and only if
  every verdict is about an outstanding request, or ends one while none is outstanding, or tries in vain to reopen one
  while another is, or says nothing final; the last attempt of a chain may also close what it reopened
  (`CloseDiscipline.CoupledExactly`). The condition for ended requests to stay as they are is another
  (`CloseDiscipline.EndedExactly`).
- A run loads the lifecycle before it takes the lock. After a close has begun, no run places an order if and only if none
  that loaded the active configuration gets the lock and is about to place (`RunsAfterClose.OrdersAfterCloseExactly`),
  and `RunsAfterClose.RunsAreInertExactly` says when runs change nothing at all.
- An exit whose fetch shows nothing while the stored snapshot shows something orders the stored quantity. A close order
  is for what is held if and only if something is held (`ExitPosition.CloseMatchesHolding`).
- An exit of a stored configuration without symbol and target leaves its request outstanding with nobody to decide it;
  placing strands a request in no other case (`HedgeService.ExitStrandsExactly`).
- The uniqueness key of a reconciliation task outlives a task lost in a crash. Recovery follows an outstanding request if
  and only if the queue takes its chain (`CloseInvariants.RecoveryFollowsExactly`).
- The comment on `ReconcileOrderExecution` promises that terminal executions are returned without another API call; for
  the execution of a close request the code fetches the position again each time. The model follows the code.

## Assumptions

Each theorem states its hypotheses. Those of the run theorems are predicates: `FreshDecisions.Behaves` (automatic runs
only, fills within the order and within the clamp of reduce-only orders, canceled and failed orders unfilled, a placement
error means no order, no outside trades, position fetches that work show what is held, with a notional of its sign) with
`FreshDecisions.ClocksFit` (no run acts on a hidden fill; both together are `FreshDecisions.AllowedTrace`) or with
`Clocks.Advances` (the clock advances, no later stamps); `Sequencing.AllAutomatic` and `Cooldown.OneCooldown`, which are
all that the outstanding-order and cooldown theorems assume; `Idempotence.AllRecorded`; `CloseInvariants.NamesSymbol` (an
exit has a target symbol) and `CloseInvariants.QueueTakes` (the queue takes the chains of exits, of further attempts and
of recovery); `RunsAfterClose.LoadsUnderLock`; `CloseDiscipline.Disciplined`; `Locking.AllFresh`;
`SimulatedExchange.FreshIds`. Reconcile (read, fetch, update) and position sync (fetch, stamp, write) are single steps.
Store and queue calls succeed unless a step says otherwise.

## Model

| member | source | states |
|---|---|---|
| Calculator.OrdersExactly | internal/hedge/calculator.go:145-236 | exactly when a run orders, which action it takes and when it fails, from the distance between wanted and current notional and the thresholds |
| Calculator.WantedExactly | internal/hedge/calculator.go:165-176 | the wanted notional is zero within the exit threshold, otherwise the ratio's part of the exposure on the other side, of at most the cap's size |
| Calculator.ReasonsExactly | internal/hedge/calculator.go:145-236 | exactly which error is raised, which reason every decision carries, and its target, adjustment and symbol |
| Calculator.ClosesExactly | internal/hedge/calculator.go:89-142 | exactly when a position can be closed, at which mark it is valued, and side, quantity and flags of the closing order |
| Calculator.OrdersCarryTheLimit | internal/hedge/calculator.go:250-259 | every order of a run, and every close at its stored or implied mark, is for the right symbol, from the notional it was decided on, with a limit off the mark by exactly the allowed slippage in the direction of the order |
| Calculator.OrderLandsOnZeroOrTarget | internal/hedge/calculator.go:145-248 | every order moves the notional to the wanted one, or to zero as the close leg of a reversal; reduce-only is set exactly when the position gets smaller; side and quantity fit the adjustment |
| Calculator.NoFlipInOneOrder | internal/hedge/calculator.go:201-276 | whatever part of an order executes and however the two marks differ, the quantity does not jump over zero on an exchange that clamps reduce-only fills |
| Calculator.UnclampedFlipExactly | internal/hedge/calculator.go:201-276 | without the clamp a complete fill flips the position if and only if the order is reduce-only and asks for more than is held, that is, is no close leg of a reversal and its adjustment exceeds the holding at the exposure's mark |
| Calculator.NoFlipWithoutClamp | internal/hedge/calculator.go:201-276 | no clamp is needed while the stored notional is within the holding's value at the exposure's mark |
| Calculator.UnclampedShrinkFlips | internal/hedge/calculator.go:201-236 | one order that needs the clamp: reduce-only, and asking for more than is held |
| Calculator.CapIsKept | internal/hedge/calculator.go:169-236 | a position within the notional cap stays within it |
| Calculator.FillMovesByAdjustment | internal/hedge/calculator.go:145-248 | a complete fill moves the notional by exactly the adjustment |
| Calculator.ConvergesInTwoOrders | internal/hedge/calculator.go:145-248 | with a fixed exposure and full fills the third run places no order |
| Calculator.FirstOrderOfTwoIsAFlipClose | internal/hedge/calculator.go:201-236 | a second order follows only the close leg of a reversal; it opens the other side and reaches the capped target |
| Calculator.StaysSettled | internal/hedge/calculator.go:145-248 | after two runs the position never moves again |
| Positions.FlatMeansZeroQuantity | internal/service/position_sync_service.go:249-277 | a reported position counts as flat exactly when its quantity is zero |
| Positions.SignedNotionalSign | internal/service/position_sync_service.go:260-277 | a normalised notional never has the sign opposite to the quantity, and has the same sign when it or a mark is known |
| Positions.SizeIsReported | internal/service/position_sync_service.go:249-277 | the quantity keeps its size and takes the sign of its side; a reported notional keeps its size, and only a missing one is the quantity at the mark |
| Positions.ReadBackIsStored | internal/service/hedge_monitor_service.go:433-452 | the monitor reads every normalised snapshot as the notional that was stored |
| Positions.ReadsExactly | internal/service/hedge_monitor_service.go:433-452 | the monitor reads a snapshot as stored if and only if its notional does not contradict its side, or on the NET side the sign of its quantity |
| Positions.EnsuredMarkIsPositive | internal/service/hedge_service.go:878-910 | ensuring a mark gives a positive mark and changes nothing else |
| Positions.EnsuredMarkExactly | internal/service/hedge_service.go:878-910 | exactly when a mark is known and which one: the snapshot's, the one its notional implies, the ticker's mark, its last price |
| Positions.ExpectedMoves | internal/service/hedge_service.go:848-861 | after a fill the expected quantity is the previous one moved by the filled size in the order's direction, or by the whole order when no fill is reported |
| Positions.CloseCannotFail | internal/hedge/calculator.go:89-142 | with a symbol and an ensured mark the close decision never fails, and holds exactly when nothing is held |
| Positions.CloseClosesExactly | internal/hedge/calculator.go:99-142 | for every raw position with non-zero quantity: normalise, ensure a mark, close, fill in full, and exactly nothing is left |
| ExitPosition.FirstOpen | internal/service/hedge_service.go:738-744 | no open position is found exactly when all positions on the symbol have quantity zero |
| ExitPosition.LivePosition | internal/service/hedge_service.go:723-776 | flat exactly when the fetch worked and showed quantity zero everywhere on the symbol; otherwise the first open position, with side, entry price and mark as reported for it |
| ExitPosition.FirstOpenIsFirst | internal/service/hedge_service.go:738-744 | the position taken is on the symbol up to case, open, and the first such in the list |
| ExitPosition.LiveIsReported | internal/service/hedge_service.go:746-776 | for every fetch with an open position the snapshot has the side, entry price and mark reported for it, quantity and notional in their reported size with the sign of the side, and the present as stamp |
| ExitPosition.LoadedExactly | internal/service/hedge_service.go:702-721 | exactly what an exit loads and leaves stored: nothing on a failed fetch, the reported open position, or else the stored snapshot, with an ensured mark |
| ExitPosition.ClosesAtReportedMark | internal/service/hedge_service.go:359-415 | a fetch with an open position at a positive mark makes the exit order its whole quantity on the other side, reduce-only, at a limit off the reported mark by exactly the slippage |
| ExitPosition.RefreshStoresExactly | internal/service/hedge_service.go:778-838 | a fill replaces the snapshot exactly if it is live and the fetch shows the previous quantity moved by it; then side, mark and entry price are those fetched, or the mark is kept when nothing is left |
| ExitPosition.LoadedCloses | internal/service/hedge_service.go:359-415 | once an exit has loaded its position the close decision cannot fail, and a hold outside dry-run means the fetch was flat |
| ExitPosition.CloseMatchesHolding | internal/service/hedge_service.go:697-776 | with a fetch that shows the holding, a complete fill of the close order leaves nothing if and only if something is held; otherwise the order is for the stored snapshot's quantity |
| Monitor.MonitorAgreesWithCalculator | internal/service/hedge_monitor_service.go:319-415 | equal targets, and equal actions if and only if no zero adjustment passes all thresholds |
| Monitor.PositiveMinimumAlwaysAgrees | internal/service/hedge_monitor_service.go:395-415 | with a positive minimum order the agreement is complete |
| Monitor.MonitorFollowsItsReading | internal/service/hedge_monitor_service.go:319-452 | on every snapshot, mixed legs included, the monitor asks for exactly what the calculator would do with the position as the monitor reads it, unless a zero adjustment passes all thresholds |
| Monitor.ShownExactly | internal/service/hedge_monitor_service.go:319-431 | switch, health and status of every row, in their order of precedence, with the ages at which an exposure or a position counts as stale |
| Monitor.StatusPredictsTheRun | internal/service/hedge_monitor_service.go:417-431 | the status asks for an order exactly when the switches, the account and the last execution allow it and the calculator would place it |
| Monitor.MixedLegsAreReadDifferently | internal/service/hedge_monitor_service.go:433-452 | a snapshot with mixed signs on which the two decisions differ; what separates such snapshots is stated by ReadsExactly, ReadAsStoredExactly and MonitorFollowsItsReading |
| OrderStore.Latest | internal/db/coredb/order_guard.go:22-38 | the latest execution is the maximum by update time and then id |
| OrderStore.FindByClient | internal/db/coredb/core.sql.go:319-326 | a lookup misses exactly when no row has the client id |
| OrderStore.PlanInsertedExactly | internal/db/coredb/core.sql.go:141-182 | a new key is appended, a known one changes nothing but its update time |
| OrderStore.ExecutionInsertedExactly | internal/db/coredb/core.sql.go:63-94 | exactly when an insert is refused, touches the plan's execution, or appends the row |
| OrderStore.Database.CreateOrderPlan | internal/db/coredb/core.sql.go:141-182 | an existing key is only touched, a new one appended |
| OrderStore.Database.CreateOrderExecution | internal/db/coredb/core.sql.go:63-94 | a plan's second execution only touches the first; a refused insert changes nothing |
| OrderStore.Database.UpdateOrderExecutionStatus | internal/db/coredb/core.sql.go:630-653 | order, status, filled quantity and update time of one row are set; the submitted, filled and failed times are set by their statuses, once; no other row changes |
| OrderStore.Database.UpdateOrderPlanStatus | internal/db/coredb/core.sql.go:699-704 | only the plan's status and update time change |
| Guard.FetchesExactly | internal/service/hedge_service.go:565-573 | the order read is the one the execution names, otherwise the newest with its client id |
| Guard.ReconciledExactly | internal/service/hedge_service.go:556-700 | a reconcile works exactly when the order can be read; then the execution is filled if and only if the exchange order is, failed if and only if that failed or was canceled, submitted otherwise, and the snapshot follows exactly a filled order whose fill the fetch shows |
| Guard.BlockedExactly | internal/service/hedge_service.go:515-554 | from every sound store: an automatic run is blocked by a pending order, by the cooldown or by the position sync exactly under the stated conditions on rows, orders and snapshot, and gets through exactly otherwise: nothing executed, the latest failed, dry or canceled, or filled with the cooldown over and a snapshot as recent |
| Guard.BlockedAtAll | internal/service/hedge_service.go:233-251 | a run is blocked if and only if it is automatic and does not get through |
| Guard.EndedOrderUnblocks | internal/service/hedge_service.go:525-554 | an order that failed or was canceled at the exchange does not block the next automatic run that can read it |
| RunSteps.AsksExactly | internal/service/hedge_service.go:253-271 | exactly when a run past its guard asks for an order; a run for a new hedge ratio ignores the rebalance threshold |
| RunSteps.AsksForExactly | internal/hedge/calculator.go:145-259 | adjustment, side, quantity, limit, reduce-only flag, target and reason of that order, from the exposure and the snapshot found |
| RunSteps.FirstExecutionExactly | internal/service/hedge_service.go:956-1054 | what a first execution calls and stores in each case: dry, without an account, refused, canceled, and with the order and status the exchange answers |
| RunSteps.ExecutesExactly | internal/service/hedge_service.go:912-1064 | executing a decision: an executed key is not executed again and a failed one is an error; otherwise the exchange has exactly the decided order under that key, and the row its answer |
| RunSteps.PlansExactly | internal/service/hedge_service.go:912-946 | a new plan has the decided side, quantity, limit, flag and reason, a known one keeps its own; no other plan changes, and the status follows the row recorded |
| RunSteps.SnapshotsExactly | internal/service/hedge_service.go:778-838 | a run replaces the snapshot exactly if its live execution is filled and the fetch shows the stored quantity moved by the fill; a flat fetch keeps the stored mark, or takes the exposure's if there was none |
| RunSteps.EndsExactly | internal/service/hedge_service.go:253-300 | exactly which outcome a run past its guard reports |
| RunSteps.StepsExactly | internal/service/position_sync_service.go:157-220 | what fills, ends without a fill, reconciliations and the two syncs change, and that they change nothing else |
| Idempotence.ExecutesOncePerKey | internal/service/hedge_service.go:912-1064 | from an empty store, at the end of every run: the store is sound, and PlaceOrder was called at most once per key, each with an execution, if every answer to a call can be recorded |
| Idempotence.StoreStaysSound | internal/service/hedge_service.go:912-1064 | over every run, whatever the exchange answers and the clock reads: one plan per key, at most one execution per plan, its client id is the key, rows only evolve, terminal rows are frozen and times are written once |
| Idempotence.StepKeepsInvariantExactly | internal/service/hedge_service.go:1029-1054 | a step of any kind keeps one call per key, with an execution for each, if and only if it is no run about to place or the answer can be recorded |
| Idempotence.OncePerKeyExactly | internal/service/hedge_service.go:912-1064 | over whole runs the same holds in every state passed through if and only if every answer to a call can be recorded |
| Idempotence.NeverResubmitted | internal/service/hedge_service.go:947-954 | from any state and whatever the exchange answers, a key that has an execution, failed or not, keeps one and is never submitted again |
| PlanAgreement.PlansAgreeInLiveRuns | internal/service/hedge_service.go:1009-1054 | with live runs only every plan shows its execution's status, whatever the exchange answers |
| PlanAgreement.RunAgreesExactly | internal/service/hedge_service.go:912-1064 | from a state in which all plans agree a run keeps that if and only if it is no dry run that wants an order whose plan is stored with another status and has no execution |
| PlanAgreement.PlansAgreeExactly | internal/service/hedge_service.go:947-1054 | over whole runs, live and dry mixed, all plans agree in every state passed through if and only if every run meets that condition |
| Idempotence.ReconciledIsSound | internal/service/hedge_service.go:556-622 | reconciling keeps the store sound and only lets rows evolve |
| Idempotence.ExecutedIsSound | internal/service/hedge_service.go:912-1064 | executing a decision keeps the store sound whatever is answered; its key has an execution afterwards if and only if it had one or the execution is recorded |
| Idempotence.RunKeepsInvariantExactly | internal/service/hedge_service.go:1029-1054 | a run keeps the invariant if and only if the answered status can be recorded or the run is not about to place: guard, exposure, decision, no execution for the key, live, usable account |
| Idempotence.PlacesExactly | internal/service/hedge_service.go:233-300 | a run calls PlaceOrder if and only if its guard passes, it wants an order, the key has no execution, it is live and the account usable; then once, with that key and on the quantity stored when it decides |
| Idempotence.CanceledPlacementIsRepeated | internal/service/hedge_service.go:1029-1043 | a canceled placement is placed again by the next run |
| Idempotence.DryRunToggleDisagrees | internal/service/hedge_service.go:947-976 | two runs in which a plan stays "planned" beside a dry-run execution |
| Sequencing.OneOutstandingOrder | internal/service/hedge_service.go:515-554 | in every run of automatic hedging, nothing assumed of exchange, positions or clocks: at most one execution is submitted, it is the one looked up as latest, and all others are terminal |
| Sequencing.OrderedExactly | internal/service/hedge_service.go:233-251 | over whole runs of every kind, every execution but the last is terminal, in every state passed through, if and only if no run that is not automatic executes over an open order |
| Sequencing.RunIsOrderedExactly | internal/service/hedge_service.go:196-300 | the same condition for one run |
| Sequencing.GuardedIsOrdered | internal/service/hedge_service.go:515-554 | the guard lets an automatic run through only when no order is outstanding |
| FreshDecisions.EveryDecisionWasFresh | internal/service/hedge_service.go:233-251 | in every run on an exchange that behaves, in which no run acts on a snapshot that by the loop's own records misses the last fill, each order was decided on a stored quantity equal to the quantity held when it was submitted |
| FreshDecisions.PositionNeverFlips | internal/hedge/calculator.go:201-276 | in every such run no step carries the position over zero, and from one order to the next it is never on opposite sides |
| FreshDecisions.FillIsAccounted | internal/service/hedge_service.go:778-861 | after a fill the quantity held is what the order was decided on plus the filled quantity of its execution |
| FreshDecisions.GuardedIsRegular | internal/service/hedge_service.go:515-554 | a run that passes the guard has a true snapshot and no open order, unless the snapshot hides a fill |
| FreshDecisions.ReconciledIsRegular | internal/service/hedge_service.go:556-622 | a reconcile keeps the loop's invariant |
| FreshDecisions.StepIsRegular | internal/service/hedge_service.go:196-300 | every allowed step keeps the loop's invariant and the side of the position |
| Clocks.NextRunIsStaleExactly | internal/service/hedge_service.go:515-554 | after a fill that the stored snapshot misses, the next run is decided on the stale quantity if and only if the snapshot's stamp is not before the fill was recorded, the cooldown is over, and the run executes an order |
| Clocks.RunIsStaleExactly | internal/service/hedge_service.go:233-251 | from every regular state, also with an order pending that the guard reconciles first, a run is decided on a stale quantity if and only if it passes its guard on a snapshot that the stamps vouch for and the loop's own records contradict, and executes an order |
| Clocks.FreshExactly | internal/service/hedge_service.go:233-251 | over whole runs, whatever the clock reads, every order is decided on the quantity held if and only if no run does that |
| Clocks.StaleMeansPlaced | internal/service/hedge_service.go:912-1054 | a live run decides on a stale quantity if and only if it places an order decided on a quantity that is not held |
| Clocks.AdvancingIsAllowed | internal/service/hedge_service.go:541-552 | a clock that advances between steps and no stamps in the future are enough for the clock hypothesis of the whole-run theorems |
| Clocks.AdvancingDecisionsAreFresh | internal/service/hedge_service.go:233-251 | with such a clock and an exchange that behaves, from the start: every order was decided on a stored quantity equal to the quantity held when it was submitted |
| Clocks.AdvancingNeverFlips | internal/hedge/calculator.go:201-276 | with such a clock and an exchange that behaves, from the start: no step carries the position over zero, and from one order to the next it is never on opposite sides |
| Cooldown.CooldownIsKept | internal/service/hedge_service.go:540-543 | in every run of automatic hedging with one cooldown, nothing assumed of exchange, positions or clocks: each execution after a fill was stored at least the cooldown after that fill |
| Cooldown.GuardedIsSpaced | internal/service/hedge_service.go:515-554 | a run that passes the guard starts at least the cooldown after the last fill |
| LoopLimits.FutureStampHidesAFill | internal/service/position_sync_service.go:195-198 | one history: with a position stamped in the future a second run buys again on a stale snapshot |
| LoopLimits.TieHidesAFill | internal/service/hedge_service.go:541-552 | one history: the same when a sync and a fill share one instant |
| CloseStore.NewestOutstanding | internal/db/mgmt/hedge_close.go:34-42 | no request is found exactly when none is outstanding |
| CloseStore.FindByExecution | internal/db/mgmt/hedge_close.go:76-86 | the newest request of an execution, missed exactly when there is none |
| CloseStore.Repository.BeginHedgeCloseRequest | internal/db/mgmt/hedge_close.go:26-64 | an outstanding request is returned unchanged, otherwise one is created; at most one stays outstanding |
| CloseStore.Repository.AttachHedgeCloseExecution | internal/db/mgmt/hedge_close.go:66-74 | only an outstanding request takes an execution |
| CloseStore.Repository.UpdateHedgeCloseStatus | internal/db/mgmt/hedge_close.go:88-94 | refused exactly when a second request would become outstanding, whatever status was there |
| CloseStore.Repository.CompleteHedgeClose | internal/db/mgmt/hedge_close.go:96-98 | ends the request and disables the configuration |
| CloseStore.Repository.FailHedgeClose | internal/db/mgmt/hedge_close.go:100-102 | ends the request and marks the configuration close_failed, still enabled |
| CloseStore.Repository.FinishHedgeClose | internal/db/mgmt/hedge_close.go:104-127 | status and lifecycle move together |
| CloseSteps.VerifiesExactly | internal/service/hedge_service.go:455-481 | verifying completes a request exactly in a dry run or on a fetch that shows nothing left; a live position that is still open is stored as reported, the request is put to verifying unless another is outstanding, and failures are errors |
| CloseSteps.AttemptsExactly | internal/service/hedge_service.go:624-673 | one attempt: an unreadable order changes nothing, a canceled or failed one fails its request at once, a filled or dry one completes it exactly when nothing is left |
| CloseSteps.AttemptStores | internal/service/hedge_service.go:624-673 | an attempt changes the loop by the reconcile and, for a fill that is followed up, by storing the live position |
| CloseSteps.ChainStepsExactly | internal/tasks/reconciliation.go:173-217 | a chain step takes its task off; nothing follows an ended attempt, otherwise the next attempt is queued, and after the last one an outstanding request fails |
| CloseSteps.QueuesExactly | internal/tasks/reconciliation.go:114-140 | four attempts for an ordinary chain, six for a close; what the queue makes of each further task |
| CloseSteps.BeginsExactly | internal/service/hedge_service.go:335-363 | an exit opens a request and moves the configuration to closing, or, while one is outstanding, only queues the first task of its chain again |
| CloseSteps.PlacesExactly | internal/service/hedge_service.go:365-422 | which load, decision and execution fail, complete or leave the request, and what each stores |
| CloseSteps.SendsTheClose | internal/service/hedge_service.go:365-422 | an exit with an open position at a positive mark and a fresh key sends one reduce-only order for the reported quantity on the other side, decided at a limit off the reported mark by exactly the slippage |
| CloseSteps.LinksExactly | internal/service/hedge_service.go:423-431 | an outstanding request takes the execution, submitted while its order is and verifying otherwise |
| CloseSteps.ConcludesExactly | internal/service/hedge_service.go:434-453 | a close that filled at once, or was dry, is verified; the first task of its chain is queued unless that completed it |
| CloseSteps.TracksExactly | internal/service/hedge_service.go:1036-1043 | a run takes effect exactly if it loaded the active lifecycle, and queues a chain exactly for a newly placed order that is submitted |
| CloseSteps.StepsExactly | cmd/hedging-bot/main.go:131-145 | what a crash forgets and keeps, and which steps wait for the recovery and for the lock |
| Chains.DelaysReachCheckpoint | internal/tasks/reconciliation.go:143-155 | for any checkpoints the delays up to attempt k add up to checkpoint k, and are positive when the checkpoints increase |
| Chains.LastAttempt | internal/tasks/reconciliation.go:26-40 | the last attempt comes after ten seconds, of a close chain after sixty |
| Chains.AttemptsComeExactly | internal/tasks/reconciliation.go:26-40 | the attempts come one, two, five and ten seconds after the chain was scheduled, those of a close also thirty and sixty, and no others |
| CloseInvariants.AtMostOneCloseRequest | internal/db/migrations/000014_add_hedge_close_lifecycle.up.sql:33-35 | at most one close request is outstanding in every reachable state, whatever symbol exits name and whatever the queue does |
| CloseInvariants.NoCloseIsStranded | cmd/hedging-bot/main.go:131-145 | whenever the service is up and no exit is in progress, every outstanding request has an execution and a pending task for it, through crashes and recovery, if exits name a symbol and the queue takes the chains |
| CloseInvariants.RecoveryFollowsExactly | internal/tasks/reconciliation.go:119-140 | after recovery an outstanding request whose task was lost is followed if and only if the queue takes its chain |
| CloseInvariants.ChainFits | internal/tasks/reconciliation.go:173-217 | a chain step leaves a further task or has ended the request it followed |
| CloseInvariants.ExitPlacedFits | internal/service/hedge_service.go:359-429 | loading, deciding and placing leave the request ended or with an order to link |
| CloseInvariants.ExitEndedFits | internal/service/hedge_service.go:430-453 | the end of an exit leaves its request ended or its execution with a pending task |
| CloseInvariants.RecoveredShape | cmd/hedging-bot/main.go:131-145 | recovery gives every request it passes an end or a pending task and touches no other |
| CloseOutcome.CompletionSawFlat | internal/service/hedge_service.go:406-481 | outside dry-run a request becomes completed only in a step whose fetch showed every position on the symbol at zero, on all three paths |
| CloseOutcome.HandledTakesAttempt | internal/tasks/reconciliation.go:202-217 | every handled task uses up an attempt, and no attempt beyond the checkpoints is ever pending |
| CloseOutcome.EveryChainStops | internal/tasks/reconciliation.go:173-217 | from every reachable state the pending chains on their own take no more steps than they have attempts left |
| CloseOutcome.ChainStepsAreBounded | internal/tasks/reconciliation.go:173-217 | in any interleaving with other steps, the chain steps taken and the attempts still left are at most the attempts left at the start plus four for each run and six for each begin or end of an exit and each recovery |
| CloseOutcome.ChainStepsFromTheStart | internal/tasks/reconciliation.go:173-217 | from the start of the service the chain steps taken are bounded by the events alone |
| CloseOutcome.StoppedChainDecided | internal/service/hedge_service.go:624-687 | when a chain stops although the queue takes its tasks, the newest request of its execution is completed or failed |
| RunsAfterClose.LifecycleStaysClosed | internal/db/mgmt/hedge_close.go:104-127 | no step brings the lifecycle back to active |
| RunsAfterClose.NoRunAfterClose | internal/service/hedge_service.go:208-216 | once a close has begun no run changes anything, if load and lock are one step |
| RunsAfterClose.RunPlacesExactly | internal/service/hedge_service.go:204-300 | in every state a run step places an order if and only if the lifecycle it loaded was active, the service is up, no exit holds the lock, and the loop is about to place |
| RunsAfterClose.OrdersAfterCloseExactly | internal/service/hedge_service.go:204-231 | after a close has begun no run places an order if and only if none that loaded the active configuration gets the lock and is about to place; the lifecycle never returns to active |
| RunsAfterClose.RunInertExactly | internal/service/hedge_service.go:204-300 | a run step changes nothing but the time if and only if the lifecycle it loaded was not active, the service is down, an exit holds the lock, or, read off the rows before it, guard and decision have nothing to change |
| RunsAfterClose.RunsAreInertExactly | internal/service/hedge_service.go:204-231 | the same over whole runs after a close has begun |
| CloseDiscipline.DisciplinedRuns | internal/db/mgmt/hedge_close.go:88-127 | if only outstanding requests are decided, an outstanding request exists exactly while closing, and ended requests never change |
| CloseDiscipline.ClosingMeansOutstanding | internal/db/mgmt/hedge_close.go:26-64 | from the start of the service: a request is outstanding exactly while closing, in every state passed through, if and only if every step meets its condition; runs that decide about outstanding requests only always do |
| CloseDiscipline.AttemptExactly | internal/service/hedge_service.go:624-673 | the exact conditions under which one attempt keeps a request outstanding exactly while closing, and under which it leaves ended requests alone |
| CloseDiscipline.StepCoupledExactly | internal/service/hedge_service.go:455-481 | the exact condition under which a step of any kind keeps a request outstanding exactly while closing, exhausted chains included |
| CloseDiscipline.CoupledExactly | internal/db/mgmt/hedge_close.go:88-127 | over whole runs a request is outstanding exactly while closing, in every state passed through, if and only if every step meets that condition |
| CloseDiscipline.StepSparesExactly | internal/service/hedge_service.go:649-687 | the exact condition under which a step of any kind leaves completed and failed requests as they are |
| CloseDiscipline.EndedExactly | internal/db/mgmt/hedge_close.go:88-127 | over whole runs completed and failed are absorbing if and only if every step meets that condition |
| CloseLimits.CompletedCloseComesBack | internal/service/hedge_service.go:463-474 | a history from the start of the service in which a second chain sets a completed close back to verifying while the configuration stays disabled |
| CloseLimits.OldChainDisablesNewClose | internal/db/mgmt/hedge_close.go:104-127 | a history from the start of the service in which a leftover chain disables the configuration under a new close |
| CloseLimits.ReachesTwoChains | cmd/hedging-bot/main.go:131-145 | an exit, an attempt in vain, a crash and the recovery leave two chains for one close |
| CloseLimits.StaleLoadOrdersAfterClose | internal/service/hedge_service.go:204-231 | one history: a run that loaded its configuration before the lock orders after a close has completed |
| HedgeService.HedgeService.RefreshFilledPosition | internal/service/hedge_service.go:778-815 | makes exactly the checked refresh of the loop, and changes only the snapshot |
| HedgeService.HedgeService.ReconcileSubmittedOrder | internal/service/hedge_service.go:556-622 | makes exactly the reconcile step, or changes nothing; then the execution is filled, failed or submitted exactly as the exchange order says, a canceled one failed |
| HedgeService.HedgeService.AutomaticRunBlockReason | internal/service/hedge_service.go:515-554 | makes exactly the guard step; returns each of the three reasons exactly under its condition on rows, orders and snapshot, and none exactly when the run gets through |
| HedgeService.HedgeService.CreatePlanAndExecute | internal/service/hedge_service.go:912-1054 | makes exactly the execution step; a chain is queued only for a newly submitted order that is not a close |
| HedgeService.HedgeService.RunOnce | internal/service/hedge_service.go:196-300 | makes exactly one run step with its outcome; blocked exactly if the run is automatic and does not get through, for exactly the reason read off the rows |
| HedgeService.HedgeService.FetchLivePosition | internal/service/hedge_service.go:723-776 | the walk over the reported positions finds the specified live position, with the entry price and mark reported for it |
| HedgeService.HedgeService.FinalizeHedgeClose | internal/service/hedge_service.go:455-481 | makes exactly the verification step of a close |
| HedgeService.HedgeService.ReconcileOrderExecution | internal/service/hedge_service.go:624-673 | makes exactly one attempt with its result |
| HedgeService.HedgeService.FailCloseReconciliation | internal/service/hedge_service.go:675-687 | fails the request of an exhausted chain unless it has ended |
| HedgeService.HedgeService.HandleOrder | internal/tasks/reconciliation.go:173-217 | makes exactly one chain step |
| HedgeService.HedgeService.ExitHedge | internal/service/hedge_service.go:302-453 | the whole exit is the sequence of its four steps, each pinned by CloseSteps, so every invariant of the step system holds for it |
| HedgeService.HedgeService.RecoverCloseRequests | cmd/hedging-bot/main.go:131-145 | the start-up loop makes exactly the recovery step |
| HedgeService.ExitLeavesNothingStranded | internal/service/hedge_service.go:302-453 | when an exit with a target symbol returns and the queue took its chain, every request is completed, failed, or has an execution with a pending reconciliation |
| HedgeService.ExitStrandsExactly | internal/service/hedge_service.go:359-429 | placing leaves a request outstanding and unfollowed if and only if the configuration names no symbol and the position could be loaded |
| Locking.OneHolder | internal/lock/redis_lock.go:28-49 | of two sections on one key, one has been released or has expired, at every time |
| Locking.SectionsDoNotOverlap | internal/lock/redis_lock.go:28-49 | a section released less than its time to live after its start is released before the next one on its key starts |
| Locking.HeldForItsTime | internal/lock/redis_lock.go:28-49 | after any history a key that is not released is held by its token until its time to live is over, for ever without one, and not after it |
| Locking.GrantLastsExactly | internal/lock/redis_lock.go:28-42 | a granted key is held after a wait of d exactly if it has no time to live or d is less than it |
| Locking.OverlapMeansExpired | internal/lock/redis_lock.go:28-49 | a later section starts before the earlier one is released only if the earlier one had expired by then |
| Locking.GrantedExactly | internal/lock/redis_lock.go:28-42 | after any history a lock is granted if and only if every section on its key was released or has expired |
| Locking.ReleaseSparesOthers | internal/lock/redis_lock.go:13-18 | a release, however late, leaves every other running section's key alone |
| Locking.OverrunOverlaps | internal/lock/redis_lock.go:28-49 | one history in which a section overruns its time to live and overlaps |
| Locking.RedisLocker.TryLock | internal/lock/redis_lock.go:28-42 | grants exactly when the key is not held, and always without a client; the granted key carries the token and expires one full time to live later, and no other key changes |
| Locking.RedisLocker.Release | internal/lock/redis_lock.go:43-49 | deletes the key exactly while it holds the caller's token |
| SimulatedExchange.NetIsHistorySum | internal/exchange/simulated.go:84-118 | after any history of placements and cancels the net per symbol and account is the signed sum of the filled placements, and the client index is sound |
| SimulatedExchange.TotalSplits | internal/exchange/simulated.go:92-118 | the sum over the order map does not depend on the order of iteration |
| SimulatedExchange.PlacementAdds | internal/exchange/simulated.go:231-292 | a placement adds exactly its own filled part |
| SimulatedExchange.PlacementMovesExactly | internal/exchange/simulated.go:84-118 | a placement moves a net position by its signed quantity or value exactly if it is filled, on the symbol, and of the exchange, account and symbols asked for |
| SimulatedExchange.PlacesExactly | internal/exchange/simulated.go:231-292 | exactly which requests are refused and why, and every field of the order stored for the others |
| SimulatedExchange.FindsExactly | internal/exchange/simulated.go:378-393 | an order is found exactly under its id or else under its client id |
| SimulatedExchange.CancelsExactly | internal/exchange/simulated.go:304-328 | exactly which cancels are refused; the others change the status of that order only |
| SimulatedExchange.CancelKeepsPositions | internal/exchange/simulated.go:304-328 | cancels never change positions |
| SimulatedExchange.RefreshStoresTheSum | internal/service/hedge_service.go:778-861 | the refresh after a filled live order stores exactly the exchange's signed sum, if the previous snapshot did |
| SimulatedExchange.AskedAsStoredExactly | internal/exchange/simulated.go:74-82 | asking for a symbol filters for exactly that symbol if and only if it is not empty and has no surrounding blanks |
| SimulatedExchange.SimulatedAdapter.PlaceOrder | internal/exchange/simulated.go:231-292 | a refused request changes nothing, an accepted one is stored and indexed, and the index stays sound |
| SimulatedExchange.SimulatedAdapter.CancelOrder | internal/exchange/simulated.go:304-328 | only an order that is not final is canceled, and the index stays sound |
| SimulatedExchange.SimulatedAdapter.FetchOrder | internal/exchange/simulated.go:294-302 | finds by order id first, then through the client index |
| SimulatedExchange.Find | internal/exchange/simulated.go:378-393 | a found order is stored under its id and has the id or the client id asked for |
| SimulatedLoop.SimulatedFlipExactly | internal/exchange/simulated.go:251-267 | on the simulated exchange an order of the calculator flips the position if and only if it is reduce-only, no close leg of a reversal, and its adjustment exceeds the holding at the exposure's mark |
| SimulatedLoop.NoSimulatedFlip | internal/exchange/simulated.go:251-267 | it cannot while the stored notional is within the holding's value at the exposure's mark |
| SimulatedLoop.SimulatedExchangeFlips | internal/exchange/simulated.go:251-267 | one order that does |
| SimulatedLoop.SimulatedRun | internal/service/hedge_service.go:233-300 | a whole run that orders on the truth and fetches from the simulated exchange leaves holding and stored snapshot at the exchange's signed sum |
| SimulatedExchange.SimulatedAdapter.FetchPositions | internal/exchange/simulated.go:68-142 | each symbol with a net quantity is listed once with its signed sums, the average entry and the price of some filled order as mark, and no other, whatever the map iteration order |
| PositionSync.GroupsAreExact | internal/service/position_sync_service.go:133-155 | an account syncs exactly the normalised targets of its eligible configurations |
| PositionSync.WantsExactly | internal/service/position_sync_service.go:133-155 | a configuration wants a symbol exactly if it names it up to case and blanks on an account that exists and belongs to its agent |
| PositionSync.SpellingWrittenExactly | internal/service/position_sync_service.go:133-155 | for every list, a configuration's own spelling is written if and only if every later one that wants the same symbol of the account under another spelling is followed by one with this spelling |
| PositionSync.CaseTwinsShareASnapshot | internal/service/position_sync_service.go:140-152 | of two targets that differ in case only the later is written |
| PositionSync.GroupPositionSyncAccounts | internal/service/position_sync_service.go:133-155 | the loop computes that grouping |
| PositionSync.AggregateIsSignedSum | internal/service/position_sync_service.go:179-201 | a snapshot's quantity and notional are the signed sums over the symbol's positions |
| PositionSync.SumIsOrderFree | internal/service/position_sync_service.go:179-201 | the sums of quantity and notional do not depend on the order of the list |
| PositionSync.AggregateKeepsLast | internal/service/position_sync_service.go:190-198 | mark and entry price are the last positive ones listed for the symbol, the stamp is the latest of the positions' and the present |
| PositionSync.StoredSnapshotExactly | internal/service/position_sync_service.go:179-220 | every field of the snapshot stored: the net side, the signed sums, the last positive prices, the latest stamp |
| PositionSync.NoneIsPricedLater | internal/service/position_sync_service.go:190-198 | the price kept is that of a position after which none on the symbol has one |
| PositionSync.CommonMarkIsKept | internal/service/position_sync_service.go:260-277 | with one positive mark the net notional is the mark times the net quantity, so their signs agree |
| PositionSync.ReadAsStoredExactly | internal/service/position_sync_service.go:179-201 | the monitor reads a synced snapshot as stored if and only if the two signed sums of the list do not have opposite signs |
| PositionSync.MixedLegsAreStoredMixed | internal/service/position_sync_service.go:179-201 | two legs at different marks that are stored with opposite signs and read differently |
| PositionSync.PositionStore.SyncAccount | internal/service/position_sync_service.go:157-220 | each configured symbol gets exactly one snapshot, the aggregate of the list; no other snapshot changes |
| MarketRows.NormalSymbolTwice | internal/db/mgmt/exchange_market.go:288-308 | normalising a symbol is idempotent |
| Symbols.TrimmedExactly | internal/db/mgmt/exchange_market.go:288-308 | trimming cuts exactly the white space before the first other character and after the last one |
| Symbols.CasesExactly | internal/service/redis_exposure_store.go:147-157 | letters change case by their character code, every other character stays |
| MarketRows.NormalizeMarketSymbol | internal/db/mgmt/exchange_market.go:288-308 | the loop computes the normal symbol |
| MarketRows.SuffixIsDropped | internal/db/mgmt/exchange_market.go:288-308 | base, separator, quote and settlement suffix are normalised to base and quote |
| MarketRows.RejectedExactly | internal/db/mgmt/exchange_market.go:187-243 | exactly why a row is refused, in the order in which its columns are checked |
| MarketRows.CleanedExactly | internal/db/mgmt/exchange_market.go:187-243 | every column of a cleaned row, with the derived symbol, the default environment and the inferred type |
| MarketRows.PreparedIsClean | internal/db/mgmt/exchange_market.go:187-243 | every prepared row has cleaned columns, a known type and environment and a normal symbol |
| MarketRows.PrepareTwice | internal/db/mgmt/exchange_market.go:187-243 | preparing a row twice is preparing it once |
| MarketSync.DedupeIsExact | internal/db/mgmt/exchange_market.go:256-273 | identities are unique, the last value of each is kept, in the order of first occurrence |
| MarketSync.SameIdentityExactly | internal/db/mgmt/exchange_market.go:275-286 | two rows have one identity exactly if the six columns of the unique index agree |
| MarketSync.NoneIsLater | internal/db/mgmt/exchange_market.go:256-273 | the row kept for an identity is one after which none has it |
| MarketSync.DedupeExchangeMarkets | internal/db/mgmt/exchange_market.go:256-273 | the loop with its index map computes that list |
| MarketSync.WrittenIsClean | internal/service/market_sync_service.go:106-113 | the rows a sync writes are clean, distinct, and of the account's type and the allowlist |
| MarketSync.ListedExactly | internal/service/market_sync_service.go:184-232 | every column of the row a listed market becomes, its own values before the account's |
| MarketSync.WrittenExactly | internal/service/market_sync_service.go:86-122 | exactly which rows a sync writes, and when it refuses them all |
| MarketTable.WrittenIsStored | internal/db/mgmt/exchange_market.go:41-52 | preparing the rows again before the upsert changes nothing |
| MarketTable.ScopeIsClean | internal/db/mgmt/exchange_market.go:88-128 | after a sync every stored row in scope has the account's market type and an allowed symbol, whatever was stored before |
| MarketTable.OwnRowsStay | internal/service/market_sync_service.go:114-121 | no row a sync writes is removed by its own prune |
| MarketTable.UpsertedExactly | internal/db/mgmt/exchange_market.go:41-86 | an upsert is refused exactly if one row cannot be prepared; otherwise every identity has the last row prepared for it and every other row stays |
| MarketTable.PruneKeepsExactly | internal/db/mgmt/exchange_market.go:88-128 | exactly which rows a prune keeps, over the columns of row and filter |
| MarketTable.OthersStay | internal/service/market_sync_service.go:86-122 | a row of another exchange, environment or settlement, which the sync does not write, stays as it is |
| MarketTable.SyncTwice | internal/service/market_sync_service.go:86-122 | a second sync of the same data changes nothing |
| MarketTable.MarketRepository.UpsertExchangeMarkets | internal/db/mgmt/exchange_market.go:41-86 | one invalid row refuses the whole batch |
| MarketTable.MarketRepository.PruneExchangeMarkets | internal/db/mgmt/exchange_market.go:88-128 | exactly the unwanted rows in scope are removed |
| MarketTable.MarketRepository.SyncAccount | internal/service/market_sync_service.go:86-122 | the method makes exactly one account sync |
| MarketTable.FilterMarketsByAccountMarketType | internal/service/market_sync_service.go:234-247 | the loop keeps exactly the rows of the type |
| MarketTable.FilterMarketsByAllowlist | internal/service/market_sync_service.go:260-280 | the loop keeps exactly the allowed rows |
| ExposureSync.GroupsPartition | internal/service/exposure_sync_service.go:239-268 | every configuration is in exactly one group or one validation failure, and the counts add up |
| ExposureSync.GroupExposureConfigs | internal/service/exposure_sync_service.go:239-268 | the loop computes groups and failures |
| ExposureSync.KeysExactly | internal/service/redis_exposure_store.go:147-157 | two configurations share a group exactly if agent, source and symbol agree up to case and blanks, a blank source being the platform |
| ExposureSync.RunsExactly | internal/service/exposure_sync_service.go:136-201 | a run is queued exactly if switches, lifecycle, account and key are in order, the group's stages succeed and the queue takes it |
| ExposureSync.ExposureSyncService.QueueGroup | internal/service/exposure_sync_service.go:182-200 | each configuration of a group is queued, skipped or failed once; the failures are exactly those of the executable ones the queue refused |
| ExposureSync.ExposureSyncService.SyncGroup | internal/service/exposure_sync_service.go:136-201 | a snapshot is written exactly when all stages succeed: the net quantity read for agent and symbol, or zero, the fetched price, quantity times price as notional, the group's sync time; otherwise one failure names the first stage that failed |
| ExposureSync.ExposureSyncService.SyncEnabledConfigs | internal/service/exposure_sync_service.go:91-212 | configurations = enqueued + skipped + enqueue failures, snapshots = groups - group failures; every snapshot written has the measured quantity, price, their product and the sync time; a configuration is queued exactly when it is valid, can execute, is accepted and its group's snapshot was written in this sync |

## Left out

- HTTP, gRPC, generated code, the web page, logging, metrics, environment parsing and connections: plumbing.
- internal/exchange/ccxt_adapter.go: maps fields onto a package that is not part of this model; the exchange is abstract.
- Credentials, audit events and JSON payloads: they never change the control flow; a credential error is an unusable account or a failed fetch.
- ClickHouse queries: the net exposure is an input.
- gocron and asynq internals: a scheduled task is a pending step that may run at any time; whether the queue accepts, skips or refuses a task is a parameter of each enqueue.
- Rounding of the decimal library: amounts are `real`, so quantities are exact where the library divides to a fixed precision.
- The hash of the client order id: keys are compared by their parts, so a collision of truncated hashes is not modelled.
- The separator of market identity keys: identities are compared by their parts, so names with embedded zero characters are not modelled.
- Letters and white space beyond ASCII in symbols and names.
- Partial fills on canceled orders, placement errors after the exchange accepted the order, trades outside the bot, and stale fetches written by concurrent reconcilers: the code does not defend against them, and the run theorems exclude them.
- A crash between placing an order and recording it in a hedge run; crashes of exits and chains are modelled between their stored steps.
- Runs with a reason and manual exits in the freshness and cooldown theorems: they bypass the guard. They are included in idempotence, in the order of executions and in the close lifecycle.
- An exchange that returns no order id, and order statuses outside submitted, filled, failed and canceled, in the freshness theorems.
- The lock inside the step systems: runs and exits of one configuration are serialised by construction; that the lock provides this is proved separately, for sections that end before their time to live.
- Edits of a configuration between runs, such as a changed target symbol; each run carries the configuration it loaded.
- Configurations other than one in the two step systems: rows of others are never touched.
- The order in which `SyncEnabledConfigs` sorts its groups: they are taken in an arbitrary order.
- Timestamps of market rows, and the columns that are only copied: one opaque field stands for the latter.
- `SyncActiveAccounts`, `PositionSyncService.Sync` and `HedgeMonitorService.Refresh`: loops over accounts and rows that call what is modelled; `Sync` skips inactive accounts.
- Monitor status texts, external order and position-setting verification, exchange-account defaults and patches.
- Clocks of more than one machine: one clock stands for the service and the database.
- The fallback to the configuration's symbol when it names no target (`targetSymbolForConfig`): each run and exit carries its resolved target. The monitor looks positions up by the bare target (internal/service/hedge_monitor_service.go:192), so for such a configuration it finds none; that difference is not modelled.
- Simulated balances, tickers, markets, leverage and margin mode.
- CloseDiscipline.DisciplinedRuns: holds for runs that decide about outstanding requests only, because the code has no such check; the exact condition is CloseDiscipline.CoupledExactly.
- Clocks.AdvancingNeverFlips: assumes an exchange that clamps reduce-only fills, as FreshDecisions.PositionNeverFlips does.
- FreshDecisions.PositionNeverFlips: assumes an exchange that clamps reduce-only fills, which the simulated one does not; what holds there is SimulatedLoop.SimulatedFlipExactly.
- SimulatedExchange.SimulatedAdapter.FetchPositions: does not say which filled order the reported mark comes from, because that depends on the map iteration order.
- RunsAfterClose.NoRunAfterClose: assumes that load and lock are one step, because the code loads first; the exact condition is RunsAfterClose.RunsAreInertExactly.
