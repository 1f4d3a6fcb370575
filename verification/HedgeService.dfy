/** The hedge service as the object it is (internal/service/hedge_service.go and internal/tasks/reconciliation.go): every
    method changes the stored rows, the position snapshot and the task queue in place, and is proved to make exactly the
    step, or the sequence of steps, of the system whose runs the other modules reason about. */
module HedgeService {
  import opened Money
  import opened Calculator
  import opened Positions
  import opened ExitPosition
  import opened CloseStore
  import opened Chains
  import opened Symbols
  import Store = OrderStore
  import Loop = HedgeLoop
  import Close = CloseLifecycle
  import Invariants = CloseInvariants
  import G = Guard
  import Idempotence

  class HedgeService {
    const core: Store.Database
    const mgmt: Repository
    var now: int
    var snapshot: Option<Snapshot>
    var exposure: Option<ObservedExposure>
    var queue: seq<Task>

    // The exchange: its orders, what is held there, and the calls of PlaceOrder it received.
    var orders: seq<Loop.ExchangeOrder>
    var held: real
    var placements: seq<Loop.Placement>

    /** What the hedge loop sees. */
    function View(): Loop.State
      reads this, core
    {
      Loop.State(now, core.Rows(), orders, held, snapshot, exposure, placements)
    }

    /** The state between two calls: no exit in progress, the service up. */
    function Whole(): Close.State
      reads this, core, mgmt
    {
      Close.State(View(), mgmt.State(), queue, Close.Idle, false)
    }

    constructor (now: int, enabled: bool)
      ensures Whole() == Close.State(Loop.State(now, Store.Tables([], []), [], 0.0, None, None, []),
                                     Rows(enabled, Active, []), [], Close.Idle, false)
      ensures fresh(core) && fresh(mgmt)
    {
      core := new Store.Database();
      mgmt := new Repository(enabled);
      this.now, snapshot, exposure, queue := now, None, None, [];
      orders, held, placements := [], 0.0, [];
    }

    // ---- The hedge loop -------------------------------------------------------------------------------------------

    method RefreshFilledPosition(
      c: Config, previous: Option<Snapshot>, side: Side, quantity: real, e: Store.Execution, fetch: Fetch)
      modifies this`snapshot
      ensures View() == Loop.Refreshed(old(View()), c, previous, side, quantity, e, fetch)
    {
      if c.dryRun || !e.status.Filled? {
        return;
      }
      var live := FetchLivePosition(c.targetSymbol, fetch);
      if live.LiveError? {
        return;
      }
      var position := if live.LiveOpen? then live.snapshot
                      else Snapshot(Net, 0.0, 0.0, 0.0, if previous.Some? then previous.value.mark else 0.0, now);
      if position.quantity == ExpectedQuantity(previous, side, quantity, e.filled) {
        snapshot := Some(position);
      }
    }

    /** False when the order could not be read; nothing has changed then. */
    method ReconcileSubmittedOrder(id: nat, c: Config, works: bool, fetch: Fetch) returns (ok: bool)
      requires id < |core.executions|
      modifies this`snapshot, core
      ensures var r := Loop.Reconciled(old(View()), id, c, works, fetch);
              ok == r.Some? && View() == if r.Some? then r.value else old(View())
      ensures Idempotence.Sound(old(core.Rows())) && ok ==>
                var order, row := Loop.FetchOrder(old(View()), old(core.executions)[id]), core.executions[id];
                && order.Some? && row.filled == orders[order.value].filled && row.orderId == order
                && (row.status.Filled? <==> orders[order.value].status.Filled?)
                && (row.status.Failed? <==> orders[order.value].status.Failed? || orders[order.value].status.Canceled?)
                && (row.status.Submitted? || row.status.Filled? || row.status.Failed?)
    {
      ghost var before := View();
      if Idempotence.Sound(core.Rows()) {
        G.ReconciledExactly(before, id, c, works, fetch);
      }
      hide Idempotence.Sound;
      var e := core.executions[id];
      var order := Loop.FetchOrder(View(), e);
      if !works || order.None? || e.planId >= |core.plans| {
        return false;
      }
      var o := orders[order.value];
      var status := Loop.PersistedStatus(o.status);
      core.UpdateOrderExecutionStatus(id, order, status, o.filled, now);
      core.UpdateOrderPlanStatus(e.planId, status, now);
      assert core.plans[e.planId].side == old(core.plans[e.planId].side);
      RefreshFilledPosition(c, snapshot, core.plans[e.planId].side, o.filled, core.executions[id], fetch);
      return true;
    }

    method AutomaticRunBlockReason(run: Loop.RunInput) returns (block: Option<Loop.Block>)
      modifies this`snapshot, core
      ensures (View(), block) == Loop.Guarded(old(View()), run)
      ensures Idempotence.Sound(old(core.Rows())) ==>
                && (block == Some(Loop.PendingOrder) <==> G.AwaitsOrder(old(View()), run))
                && (block == Some(Loop.Cooldown) <==> G.CoolsDown(old(View()), run))
                && (block == Some(Loop.PositionSyncWait) <==> G.AwaitsSync(old(View()), run))
                && (block.None? <==> G.GetsThrough(old(View()), run))
    {
      if Idempotence.Sound(core.Rows()) {
        G.GuardBlocksExactly(View(), run);
      }
      hide Loop.Reconciled, Idempotence.Sound, G.AwaitsOrder, G.CoolsDown, G.AwaitsSync, G.GetsThrough, Loop.FetchOrder;
      var latest := Store.Latest(core.executions);
      if latest.None? {
        return None;
      }
      var id := latest.value;
      if core.executions[id].status.Submitted? {
        var ok := ReconcileSubmittedOrder(id, run.config, run.accountUsable && run.fetchWorks, run.guardFetch);
        if !ok {
          return Some(Loop.PendingOrder);
        }
      }
      var e := core.executions[id];
      if e.status.Submitted? {
        return Some(Loop.PendingOrder);
      }
      if e.status.Filled? {
        if run.cooldown > 0 && now < e.updatedAt + run.cooldown {
          return Some(Loop.Cooldown);
        }
        if snapshot.None? || snapshot.value.observedAt < e.updatedAt {
          return Some(Loop.PositionSyncWait);
        }
      }
      return None;
    }

    /** No execution means an error return. A newly submitted order that is not a close gets an ordinary chain. */
    method CreatePlanAndExecute(
      run: Loop.RunInput, exposed: ObservedExposure, position: Option<Snapshot>, d: Decision, queueing: Queueing)
      returns (id: Option<nat>)
      requires d.side.Some?
      modifies this, core
      ensures (View(), id) == Loop.Executed(old(View()), run, exposed, position, d)
      ensures queue == if id.Some? && |placements| > |old(placements)| && d.reason != ManualClose
                       then Close.Tracked(old(queue), id.value, run.place, queueing) else old(queue)
    {
      var key := Loop.KeyOf(run.configId, exposed.observedAt, d);
      var plan := Store.Plan(key, d.side.value, d.quantity, d.limitPrice, d.reduceOnly, d.reason,
                             if run.config.dryRun then Store.DryRun else Store.Planned, now);
      var planId := core.CreateOrderPlan(plan, now);
      var existing := Store.FindByClient(core.executions, key);
      if existing.Some? {
        return if core.executions[existing.value].status.Failed? then None else existing;
      }
      id := PlaceAndRecord(run, planId, key, Loop.QuantityOf(position), d, queueing);
    }

    /** The part of an execution after no earlier one was found. */
    method PlaceAndRecord(
      run: Loop.RunInput, planId: nat, key: Store.Key, decidedOn: real, d: Decision, queueing: Queueing)
      returns (id: Option<nat>)
      requires d.side.Some? && planId < |core.plans|
      modifies `placements, `orders, `held, `queue, core
      ensures (View(), id) == Loop.FirstExecution(old(View()), run, planId, key, decidedOn, d)
      ensures queue == if id.Some? && |placements| > |old(placements)| && d.reason != ManualClose
                       then Close.Tracked(old(queue), id.value, run.place, queueing) else old(queue)
    {
      hide Store.NewExecution, Store.WithExecution, Store.WithPlanStatus, Enqueue;
      if run.config.dryRun {
        id := core.CreateOrderExecution(Store.NewExecution(planId, key, None, Store.DryRun, 0.0, now), now);
        return;
      }
      if !run.accountUsable {
        return None;
      }
      match run.place {
        case PlaceError =>
          placements := placements + [Loop.Placement(key, decidedOn, held, None)];
          id := Record(planId, Store.NewExecution(planId, key, None, Store.Failed, 0.0, now));
          id := None;
        case Accepted(status, filled) =>
          placements := placements + [Loop.Placement(key, decidedOn, held, Some(|orders|))];
          orders := orders + [Loop.ExchangeOrder(key, d.side.value, d.quantity, d.reduceOnly, status, filled)];
          held := held + Directed(d.side.value, filled);
          id := Record(planId, Store.NewExecution(planId, key, Some(|orders| - 1), status, filled, now));
          if id.Some? && status.Submitted? && d.reason != ManualClose {
            queue := Enqueue(queue, Task(id.value, 0, false), queueing);
          }
      }
    }

    method Record(planId: nat, e: Store.Execution) returns (id: Option<nat>)
      requires planId < |core.plans|
      modifies core
      ensures (View(), id) == Loop.Recorded(old(View()), planId, e)
    {
      id := core.CreateOrderExecution(e, now);
      if id.Some? {
        core.UpdateOrderPlanStatus(planId, e.status, now);
      }
    }

    /** One run, with the lifecycle its configuration had when it was loaded. No outcome means the run was skipped. */
    method RunOnce(run: Loop.RunInput, loaded: Lifecycle, queueing: Queueing) returns (outcome: Option<Loop.RunOutcome>)
      modifies this, core
      ensures Whole() == Close.Ran(old(Whole()), run, loaded, queueing)
      ensures outcome == if loaded.Active? then Some(Loop.RunOnce(old(View()), run).1) else None
      ensures loaded.Active? && Idempotence.Sound(old(core.Rows())) ==>
                outcome.Some? && (outcome.value.Blocked? <==> run.kind.Automatic? && !G.GetsThrough(old(View()), run))
    {
      hide Loop.Guarded, Loop.Decided, Close.Tracked, Idempotence.Sound, G.GetsThrough;
      ghost var before := View();
      if Idempotence.Sound(before.tables) {
        G.BlockedAtAll(before, run);
      }
      if !loaded.Active? {
        return None;
      }
      if run.kind.Automatic? {
        var block := AutomaticRunBlockReason(run);
        if block.Some? {
          return Some(Loop.Blocked(block.value));
        }
      }
      now := now + run.pause;
      var decided := Decide(run, queueing);
      return Some(decided);
    }

    /** The part of a run after the guard. */
    method Decide(run: Loop.RunInput, queueing: Queueing) returns (outcome: Loop.RunOutcome)
      modifies this, core
      ensures (View(), outcome) == Loop.Decided(old(View()), run)
      ensures queue == if outcome.Ordered? && |placements| > |old(placements)|
                       then Close.Tracked(old(queue), outcome.execution, run.place, queueing) else old(queue)
    {
      hide Loop.Executed, RefreshedAfter, Loop.RunDecision, Close.Tracked;
      if exposure.None? {
        return Loop.NoExposure;
      }
      var position := Loop.RunPosition(View(), exposure.value);
      var decision := Loop.RunDecision(run, exposure.value, position);
      if decision.Err? {
        return Loop.CalculationError(decision.error);
      }
      var d := decision.value;
      if !d.IsOrder() || d.side.None? {
        return Loop.NotNeeded(d);
      }
      RunReason(run, exposure.value, position);
      var id := CreatePlanAndExecute(run, exposure.value, position, d, queueing);
      if id.None? {
        return Loop.OrderError(d);
      }
      RefreshFilledPosition(run.config, position, d.side.value, d.quantity, core.executions[id.value], run.placeFetch);
      return Loop.Ordered(d, id.value);
    }

    // ---- Closing --------------------------------------------------------------------------------------------------

    /** Walks the reported positions for the first one on the target symbol that is not flat. */
    method FetchLivePosition(target: string, fetch: Fetch) returns (live: Live)
      ensures live == LivePosition(target, fetch, now)
    {
      if fetch.FetchFailed? {
        return LiveError;
      }
      var positions := fetch.positions;
      for i := 0 to |positions|
        invariant FirstOpen(target, positions) == FirstOpen(target, positions[i..])
      {
        if EqualFold(positions[i].symbol, target) && !Flat(positions[i]) {
          return LiveOpen(Normalized(positions[i], now));
        }
      }
      return LiveFlat;
    }

    method FinalizeHedgeClose(request: nat, config: Config, fetch: Fetch) returns (verdict: Close.Verdict)
      requires request < |mgmt.requests|
      modifies `snapshot, mgmt
      ensures (Whole(), verdict) == Close.Finalized(old(Whole()), request, config, fetch)
    {
      hide WithStatus, LivePosition;
      if config.dryRun {
        mgmt.CompleteHedgeClose(request);
        return Close.Done;
      }
      var live := FetchLivePosition(config.targetSymbol, fetch);
      if live.LiveError? {
        var _ := mgmt.UpdateHedgeCloseStatus(request, Verifying);
        return Close.VerifyError;
      }
      if live.LiveOpen? {
        snapshot := Some(live.snapshot);
        if live.snapshot.quantity != 0.0 {
          var ok := mgmt.UpdateHedgeCloseStatus(request, Verifying);
          return if ok then Close.StillOpen else Close.VerifyError;
        }
      }
      mgmt.CompleteHedgeClose(request);
      return Close.Done;
    }

    method ReconcileOrderExecution(execution: nat, a: Close.Answers) returns (attempt: Close.Attempt)
      modifies `snapshot, core, mgmt
      ensures (Whole(), attempt) == Close.ReconcileExecution(old(Whole()), execution, a)
    {
      hide Loop.Reconciled, Close.Finalized, FindByExecution;
      if execution >= |core.executions| {
        return Close.AttemptError;
      }
      if core.executions[execution].status.Submitted? {
        var ok := ReconcileSubmittedOrder(execution, a.config, a.works, a.refresh);
        if !ok {
          return Close.AttemptError;
        }
      }
      attempt := FollowExecution(execution, a);
    }

    /** The second half of an attempt. */
    method FollowExecution(execution: nat, a: Close.Answers) returns (attempt: Close.Attempt)
      requires execution < |core.executions|
      modifies `snapshot, mgmt
      ensures (Whole(), attempt) == Close.Judged(old(Whole()), execution, a)
    {
      hide Close.Finalized, FindByExecution;
      var status := core.executions[execution].status;
      var request := FindByExecution(mgmt.requests, execution);
      if request.None? {
        return if status.Filled? || status.Canceled? || status.Failed? then Close.Ended else Close.Unsettled;
      }
      if status.Filled? || status.DryRun? {
        var verdict := FinalizeHedgeClose(request.value, a.config, a.fetch);
        return match verdict
               case Done => Close.Ended
               case StillOpen => Close.Unsettled
               case VerifyError => Close.AttemptError;
      }
      if status.Failed? || status.Canceled? {
        mgmt.FailHedgeClose(request.value);
        return Close.Ended;
      }
      return Close.Unsettled;
    }

    method FailCloseReconciliation(execution: nat)
      modifies mgmt
      ensures Whole() == Close.Exhausted(old(Whole()), execution)
    {
      var request := FindByExecution(mgmt.requests, execution);
      if request.Some? && Outstanding(mgmt.requests[request.value]) {
        mgmt.FailHedgeClose(request.value);
      }
    }

    /** Takes one task from the queue and handles it. */
    method HandleOrder(i: nat, a: Close.Answers, queueing: Queueing)
      requires i < |queue|
      modifies `snapshot, `queue, core, mgmt
      ensures Whole() == Close.Step(old(Whole()), Close.Chain(i, a, queueing))
    {
      hide Close.ReconcileExecution, Close.Exhausted, Enqueue, DelayAt;
      var task := queue[i];
      queue := Without(queue, i);
      var attempt := ReconcileOrderExecution(task.execution, a);
      if attempt.Ended? {
        return;
      }
      var next := task.(attempt := task.attempt + 1);
      if DelayAt(Checkpoints(task.close), next.attempt).None? {
        FailCloseReconciliation(task.execution);
      } else {
        queue := Enqueue(queue, next, queueing);
      }
    }

    /** The middle of an exit: load, decide and place; no order means the exit has ended. */
    method PlaceClose(request: nat, context: Close.Context, a: Close.ExitAnswers) returns (order: Option<Close.CloseOrder>)
      requires request < |mgmt.requests|
      modifies this, core, mgmt
      ensures var s := Close.ExitPlaced(old(Whole()).(stage := Close.Opened(request, context)), request, context, a);
              && Whole() == s.(stage := Close.Idle)
              && s.stage == if order.None? then Close.Idle else Close.Placed(request, context, order.value)
      ensures |mgmt.requests| == old(|mgmt.requests|)
    {
      hide LoadExit, ClosePosition, Loop.Executed;
      match LoadExit(context.config, a.fetch, a.ticker, snapshot, now) {
        case LoadFailed(stored) =>
          snapshot := stored;
          mgmt.FailHedgeClose(request);
          return None;
        case Loaded(position, stored) =>
          snapshot := stored;
          var decision := ClosePosition(context.config, ToPosition(context.config.targetSymbol, position));
          if decision.Err? {
            return None;
          }
          var d := decision.value;
          if !d.IsOrder() || d.side.None? {
            mgmt.CompleteHedgeClose(request);
            return None;
          }
          var exposed := match position
                         case None => ObservedExposure(0.0, 0.0, now)
                         case Some(p) => ObservedExposure(0.0, p.mark, p.observedAt);
          var run := Loop.RunInput(context.configId, context.config, 0, Loop.OtherReason, a.accountUsable, true,
                                   FetchFailed, 0, a.place, FetchFailed);
          CloseReason(context.config, ToPosition(context.config.targetSymbol, position));
          var id := CreatePlanAndExecute(run, exposed, position, d, Accepts);
          if id.None? {
            mgmt.FailHedgeClose(request);
            return None;
          }
          return Some(Close.CloseOrder(d, position, id.value, core.executions[id.value]));
      }
    }

    /** The end of an exit whose order was placed and linked. */
    method VerifyClose(
      request: nat, context: Close.Context, order: Close.CloseOrder, refresh: Fetch, fetch: Fetch, queueing: Queueing)
      requires request < |mgmt.requests|
      modifies `snapshot, `queue, mgmt
      ensures Whole() == Close.ExitEnded(old(Whole()), request, context, order, refresh, fetch, queueing)
    {
      hide RefreshedAfter, Close.Concluded;
      var d := order.decision;
      if d.side.Some? {
        RefreshFilledPosition(context.config, order.position, d.side.value, d.quantity, order.row, refresh);
      }
      ConcludeClose(request, context, order, fetch, queueing);
    }

    method ConcludeClose(
      request: nat, context: Close.Context, order: Close.CloseOrder, fetch: Fetch, queueing: Queueing)
      requires request < |mgmt.requests|
      modifies `snapshot, `queue, mgmt
      ensures Whole() == Close.Concluded(old(Whole()), request, context, order, fetch, queueing)
    {
      hide Close.Finalized, Enqueue;
      if order.row.status.Filled? || order.row.status.DryRun? {
        var verdict := FinalizeHedgeClose(request, context.config, fetch);
        if verdict.Done? {
          return;
        }
      }
      queue := Enqueue(queue, Task(order.id, 0, true), queueing);
    }

    /** The whole exit is the sequence of its four steps. */
    method ExitHedge(
      context: Close.Context, a: Close.ExitAnswers, refresh: Fetch, fetch: Fetch, queueing: Queueing)
      modifies this, core, mgmt
      ensures Whole() == Close.Trace(old(Whole()), ExitSteps(context, a, refresh, fetch, queueing))
    {
      hide Close.ExitPlaced, Close.ExitEnded, Enqueue, Begun, Attached;
      FourSteps(Whole(), context, a, refresh, fetch, queueing);
      var request, created := mgmt.BeginHedgeCloseRequest();
      if !created {
        var execution := mgmt.requests[request].execution;
        if execution.Some? {
          queue := Enqueue(queue, Task(execution.value, 0, true), queueing);
        }
        return;
      }
      var order := PlaceClose(request, context, a);
      if order.None? {
        return;
      }
      mgmt.AttachHedgeCloseExecution(request, order.value.id,
                                     if order.value.row.status.Submitted? then Submitted else Verifying);
      StageIsDropped(Whole(), Close.Linked(request, context, order.value), request, context, order.value, refresh, fetch,
                     queueing);
      VerifyClose(request, context, order.value, refresh, fetch, queueing);
    }

    /** Start-up after a crash: every outstanding request fails or gets a new chain. */
    method RecoverCloseRequests(queueing: Queueing)
      modifies `queue, mgmt
      ensures Whole() == Close.Step(old(Whole()).(down := true), Close.Recover(queueing))
    {
      hide Enqueue, Close.RecoveredUpTo;
      var requests := mgmt.requests;
      ghost var s := Whole().(down := true);
      NothingRecovered(s, queueing);
      for i := 0 to |requests|
        invariant Whole().(down := true) == Close.RecoveredUpTo(s, i, queueing)
        invariant |mgmt.requests| == |requests|
      {
        OneRecovered(s, i + 1, queueing);
        if Outstanding(requests[i]) {
          match requests[i].execution
          case None => mgmt.FailHedgeClose(i);
          case Some(execution) => queue := Enqueue(queue, Task(execution, 0, true), queueing);
        }
      }
    }
  }

  lemma RunReason(run: Loop.RunInput, exposed: ObservedExposure, position: Option<Snapshot>)
    requires Loop.RunDecision(run, exposed, position).Ok?
    ensures Loop.RunDecision(run, exposed, position).value.reason != ManualClose
  {
    hide Sized, CappedTarget, ToPosition;
    var c := if run.kind.RatioAdjustment? then run.config.(rebalance := 0.0) else run.config;
    var e, p := Exposure(exposed.notional, exposed.mark), ToPosition(run.config.targetSymbol, position);
    if e.mark > 0.0 {
      var target := CappedTarget(c, e.notional);
      SizedReason(c, e, p, 0.0, Exit, ExitHedge);
      SizedReason(c, e, p, target, Open, FirstTrigger);
      SizedReason(c, e, p, target, Rebalance, RebalanceDrift);
    }
  }

  lemma SizedReason(c: Config, e: Exposure, p: Position, target: real, action: Action, reason: Reason)
    requires e.mark > 0.0 && reason != ManualClose
    ensures Sized(c, e, p, target, action, reason).reason != ManualClose
  {
    hide LimitPrice, Units, WouldFlip, ShouldReduceOnly, Abs, SideOf;
  }

  lemma NothingRecovered(s: Close.State, queueing: Queueing)
    ensures Close.RecoveredUpTo(s, 0, queueing) == s
  {
  }

  lemma OneRecovered(s: Close.State, n: nat, queueing: Queueing)
    requires 0 < n <= |s.rows.requests|
    ensures var t, r := Close.RecoveredUpTo(s, n - 1, queueing), s.rows.requests[n - 1];
            Close.RecoveredUpTo(s, n, queueing) ==
            if !Outstanding(r) then t
            else if r.execution.None? then t.(rows := Finished(t.rows, n - 1, false))
            else Close.ScheduledClose(t, r.execution.value, queueing)
  {
  }

  lemma CloseReason(c: Config, p: Position)
    requires ClosePosition(c, p).Ok? && ClosePosition(c, p).value.IsOrder()
    ensures ClosePosition(c, p).value.reason == ManualClose
  {
  }

  lemma StageIsDropped(
    s: Close.State, stage: Close.Stage, request: nat, context: Close.Context, order: Close.CloseOrder, refresh: Fetch,
    fetch: Fetch, queueing: Queueing)
    requires request < |s.rows.requests|
    ensures Close.ExitEnded(s.(stage := stage), request, context, order, refresh, fetch, queueing) ==
            Close.ExitEnded(s, request, context, order, refresh, fetch, queueing)
  {
    hide RefreshedAfter, Close.Finalized, Enqueue;
  }

  function ExitSteps(
    context: Close.Context, a: Close.ExitAnswers, refresh: Fetch, fetch: Fetch, queueing: Queueing): seq<Close.Event>
  {
    [Close.ExitBegin(context, queueing), Close.ExitPlace(a), Close.ExitLink, Close.ExitEnd(refresh, fetch, queueing)]
  }

  lemma FourSteps(
    s: Close.State, context: Close.Context, a: Close.ExitAnswers, refresh: Fetch, fetch: Fetch, queueing: Queueing)
    ensures Close.Trace(s, ExitSteps(context, a, refresh, fetch, queueing)) ==
            Close.Step(Close.Step(Close.Step(Close.Step(s, Close.ExitBegin(context, queueing)), Close.ExitPlace(a)),
                                  Close.ExitLink), Close.ExitEnd(refresh, fetch, queueing))
  {
    hide Close.Step;
    var steps := ExitSteps(context, a, refresh, fetch, queueing);
    var s1 := Close.Step(s, steps[0]);
    var s2 := Close.Step(s1, steps[1]);
    var s3 := Close.Step(s2, steps[2]);
    assert Close.Trace(s, steps) == Close.Trace(s1, steps[1..]);
    assert steps[1..][1..] == steps[2..] && steps[2..][1..] == steps[3..] && steps[3..][1..] == [];
    assert Close.Trace(s1, steps[1..]) == Close.Trace(s2, steps[2..]);
    assert Close.Trace(s2, steps[2..]) == Close.Trace(s3, steps[3..]);
    assert Close.Trace(Close.Step(s3, steps[3]), []) == Close.Step(s3, steps[3]);
  }

  // ---- What an exit leaves behind -------------------------------------------------------------------------------

  lemma ExitComesToAnEnd(
    s: Close.State, context: Close.Context, a: Close.ExitAnswers, refresh: Fetch, fetch: Fetch, queueing: Queueing)
    requires Invariants.Fits(s) && s.stage.Idle? && !s.down && context.config.targetSymbol != ""
    requires !queueing.Refuses?
    ensures var t := Close.Trace(s, ExitSteps(context, a, refresh, fetch, queueing));
            Invariants.Fits(t) && t.stage.Idle? && !t.down
  {
    FourSteps(s, context, a, refresh, fetch, queueing);
    hide Invariants.Fits, LoadExit, ClosePosition, Close.CloseOrdered, Enqueue, Close.Finalized, RefreshedAfter, Attached;
    var s1 := Close.Step(s, Close.ExitBegin(context, queueing));
    Invariants.StepFits(s, Close.ExitBegin(context, queueing));
    var s2 := Close.Step(s1, Close.ExitPlace(a));
    Invariants.StepFits(s1, Close.ExitPlace(a));
    var s3 := Close.Step(s2, Close.ExitLink);
    Invariants.StepFits(s2, Close.ExitLink);
    Invariants.StepFits(s3, Close.ExitEnd(refresh, fetch, queueing));
    StageIsOpen(s1);
    StageIsOpen(s2);
    StageIsOpen(s3);
    assert s1.stage.Idle? || s1.stage.Opened?;
    assert s2.stage.Idle? || s2.stage.Placed?;
    assert s3.stage.Idle? || s3.stage.Linked?;
    assert !s1.down && !s2.down && !s3.down;
    if s3.stage.Linked? {
      Invariants.ExitEndedShape(s3, s3.stage.request, s3.stage.context, s3.stage.order, refresh, fetch, queueing);
    }
  }

  lemma StageIsOpen(s: Close.State)
    requires Invariants.Fits(s)
    ensures !s.stage.Idle? ==> s.stage.request < |s.rows.requests|
  {
  }

  /** Whatever the exchange answers, when an exit returns every close request has completed, has failed, or has an
      execution whose reconciliation is pending. */
  lemma ExitLeavesNothingStranded(
    s: Close.State, context: Close.Context, a: Close.ExitAnswers, refresh: Fetch, fetch: Fetch, queueing: Queueing, q: nat)
    requires Invariants.Fits(s) && s.stage.Idle? && !s.down && context.config.targetSymbol != ""
    requires !queueing.Refuses?
    requires q < |Close.Trace(s, ExitSteps(context, a, refresh, fetch, queueing)).rows.requests|
    ensures var t := Close.Trace(s, ExitSteps(context, a, refresh, fetch, queueing));
            var r := t.rows.requests[q];
            || r.status.Completed? || r.status.Failed?
            || (r.execution.Some? && Invariants.HasChain(t.tasks, r.execution.value))
  {
    ExitComesToAnEnd(s, context, a, refresh, fetch, queueing);
    var t := Close.Trace(s, ExitSteps(context, a, refresh, fetch, queueing));
    if Outstanding(t.rows.requests[q]) {
      assert Invariants.Followed(t, q);
    }
  }

  /** Exactly when placing strands a request, leaving it outstanding with nobody to decide it: the position could be loaded
      and the configuration names no symbol, so that the close decision fails. Requests through the API always name one;
      only a stored configuration without symbol and target gets here. */
  lemma ExitStrandsExactly(s: Close.State, a: Close.ExitAnswers)
    requires Invariants.Arranged(s) && !s.down && s.stage.Opened?
    ensures var t, q := Close.Step(s, Close.ExitPlace(a)), s.stage.request;
            && q < |t.rows.requests|
            && (Outstanding(t.rows.requests[q]) && !Invariants.Followed(t, q) <==>
                  s.stage.context.config.targetSymbol == ""
                  && LoadExit(s.stage.context.config, a.fetch, a.ticker, s.loop.snapshot, s.loop.now).Loaded?)
  {
    var c := s.stage.context.config;
    var loaded := LoadExit(c, a.fetch, a.ticker, s.loop.snapshot, s.loop.now);
    if loaded.Loaded? {
      if c.targetSymbol == "" {
        assert ClosePosition(c, ToPosition(c.targetSymbol, loaded.position)).Err?;
      } else {
        LoadedCloses(c, a.fetch, a.ticker, s.loop.snapshot, s.loop.now);
      }
    }
    hide LoadExit, ClosePosition, Close.CloseOrdered, Invariants.HasChain;
  }
}
