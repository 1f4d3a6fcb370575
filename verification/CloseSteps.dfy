/** What each step of a close does to the rows, the snapshot and the tasks, field by field: verifying, one reconciliation
    attempt, one chain step, and the four steps of an exit. */
module CloseSteps {
  import opened Money
  import opened Calculator
  import opened Positions
  import opened ExitPosition
  import opened CloseStore
  import opened Chains
  import opened CloseLifecycle
  import opened Idempotence
  import Store = OrderStore
  import Loop = HedgeLoop
  import Guarding = Guard
  import Runs = RunSteps

  // ---- Rows -----------------------------------------------------------------------------------------------------

  /** A completed close disables the configuration; a failed one leaves it enabled as it was. */
  lemma EndsExactly(rows: Rows, q: nat, completed: bool)
    requires q < |rows.requests|
    ensures var r := Finished(rows, q, completed);
            && r.requests == rows.requests[q := rows.requests[q].(status := if completed then Completed else Failed)]
            && (completed ==> r.lifecycle == Disabled && !r.enabled)
            && (!completed ==> r.lifecycle == CloseFailed && r.enabled == rows.enabled)
  {
  }

  /** Another request is outstanding. */
  predicate AnotherOutstanding(rows: Rows, q: nat) {
    exists i :: 0 <= i < |rows.requests| && i != q && Outstanding(rows.requests[i])
  }

  // ---- Verifying ------------------------------------------------------------------------------------------------

  /** The live position that a working fetch shows open is stored, with the side, prices and quantity reported for it; any
      other fetch, and a dry run, leaves the stored one. */
  predicate LiveStored(before: Option<Snapshot>, after: Option<Snapshot>, config: Config, fetch: Fetch, now: int) {
    if config.dryRun || fetch.FetchFailed? || FirstOpen(config.targetSymbol, fetch.positions).None? then after == before
    else
      var p := FirstOpen(config.targetSymbol, fetch.positions).value;
      && after.Some? && after.value.side == p.side && after.value.entry == p.entry && after.value.mark == p.mark
      && after.value.quantity == SignedQuantity(p) && after.value.observedAt == now
  }

  /** Verifying a close completes it exactly in a dry run or on a fetch that shows nothing left. Otherwise its request is put
      to verifying, unless another one is outstanding; a failed fetch and a refused update are errors. */
  lemma VerifiesExactly(s: State, q: nat, config: Config, fetch: Fetch)
    requires q < |s.rows.requests|
    ensures var (t, verdict) := Finalized(s, q, config, fetch);
            var flat, refused := config.dryRun || ShowsFlat(config.targetSymbol, fetch), AnotherOutstanding(s.rows, q);
            && t == s.(rows := t.rows, loop := s.loop.(snapshot := t.loop.snapshot))
            && LiveStored(s.loop.snapshot, t.loop.snapshot, config, fetch, s.loop.now)
            && (verdict.Done? <==> flat)
            && (verdict.VerifyError? <==> !flat && (fetch.FetchFailed? || refused))
            && t.rows == (if flat then Rows(false, Disabled, s.rows.requests[q := s.rows.requests[q].(status := Completed)])
                          else if refused then s.rows
                          else s.rows.(requests := s.rows.requests[q := s.rows.requests[q].(status := Verifying)]))
  {
    if !config.dryRun && fetch.Fetched? && FirstOpen(config.targetSymbol, fetch.positions).Some? {
      LiveIsReported(config.targetSymbol, fetch, s.loop.now);
    }
    UpdatesExactly(s.rows, q);
    hide FirstOpen, LivePosition, WithStatus, AnotherOutstanding;
  }

  lemma UpdatesExactly(rows: Rows, q: nat)
    requires q < |rows.requests|
    ensures WithStatus(rows, q, Verifying) ==
            if AnotherOutstanding(rows, q) then None
            else Some(rows.(requests := rows.requests[q := rows.requests[q].(status := Verifying)]))
  {
    var requests := rows.requests[q := rows.requests[q].(status := Verifying)];
    assert forall i :: 0 <= i < |requests| && i != q ==> requests[i] == rows.requests[i];
    if AnotherOutstanding(rows, q) {
      var i :| 0 <= i < |rows.requests| && i != q && Outstanding(rows.requests[i]);
      assert Outstanding(requests[i]);
    }
  }

  // ---- One attempt ----------------------------------------------------------------------------------------------

  /** How the order of an execution has turned out, as far as an attempt can tell: a stored end is final, a submitted order is
      fetched, and none means that it could not be read. */
  datatype Seen = Unreadable | Working | Gone(filled: bool)

  function SeenStatus(s: State, execution: nat, a: Answers): Seen {
    if execution >= |s.loop.tables.executions| then Unreadable
    else
      var e := s.loop.tables.executions[execution];
      if e.status.Filled? || e.status.DryRun? then Gone(true)
      else if !e.status.Submitted? then Gone(false)
      else if !a.works || Loop.FetchOrder(s.loop, e).None? then Unreadable
      else
        var o := s.loop.orders[Loop.FetchOrder(s.loop, e).value];
        if o.status.Filled? then Gone(true) else if o.status.Failed? || o.status.Canceled? then Gone(false) else Working
  }

  /** The loop after a submitted order has been reconciled. */
  function SeenLoop(s: State, execution: nat, a: Answers): Loop.State
    requires execution < |s.loop.tables.executions|
  {
    var r := Loop.Reconciled(s.loop, execution, a.config, a.works, a.refresh);
    if s.loop.tables.executions[execution].status.Submitted? && r.Some? then r.value else s.loop
  }

  /** The loop moves by that reconcile, and a fill that is followed up stores the live position that is still open. */
  lemma AttemptStores(s: State, execution: nat, a: Answers)
    requires Sound(s.loop.tables) && execution < |s.loop.tables.executions|
    ensures var loop, after, seen := SeenLoop(s, execution, a), ReconcileExecution(s, execution, a).0.loop,
                                     SeenStatus(s, execution, a);
            && after == loop.(snapshot := after.snapshot)
            && if seen.Gone? && seen.filled && FindByExecution(s.rows.requests, execution).Some?
               then LiveStored(loop.snapshot, after.snapshot, a.config, a.fetch, s.loop.now)
               else after.snapshot == loop.snapshot
  {
    hide Sound, Finalized, FindByExecution, Loop.FetchOrder, Loop.Reconciled, Finished;
    StoredKinds(s, execution);
    if s.loop.tables.executions[execution].status.Submitted? {
      Guarding.ReconciledExactly(s.loop, execution, a.config, a.works, a.refresh);
    }
    var request := FindByExecution(s.rows.requests, execution);
    if request.Some? {
      VerifiesExactly(s.(loop := SeenLoop(s, execution, a)), request.value, a.config, a.fetch);
    }
    hide LiveStored, ShowsFlat, AnotherOutstanding;
  }

  /** What an attempt does to the rows and what it reports. An order that cannot be read changes nothing and is an error, one
      that still works changes nothing. One that failed or was canceled fails its request at once. One that was filled, or was
      dry, completes its request exactly in a dry run or on a fetch that shows nothing left. */
  lemma AttemptsExactly(s: State, execution: nat, a: Answers)
    requires Sound(s.loop.tables)
    ensures var (t, attempt) := ReconcileExecution(s, execution, a);
            var request, seen := FindByExecution(s.rows.requests, execution), SeenStatus(s, execution, a);
            && t == s.(rows := t.rows, loop := t.loop)
            && match seen
               case Unreadable => t == s && attempt.AttemptError?
               case Working => t.rows == s.rows && attempt.Unsettled?
               case Gone(filled) =>
                 if request.None? then
                   t.rows == s.rows
                   && (attempt.Ended? <==> !s.loop.tables.executions[execution].status.DryRun?) && !attempt.AttemptError?
                 else
                   var q := request.value;
                   var flat := a.config.dryRun || ShowsFlat(a.config.targetSymbol, a.fetch);
                   if !filled then
                     attempt.Ended? && t.rows == Rows(s.rows.enabled, CloseFailed,
                                                      s.rows.requests[q := s.rows.requests[q].(status := Failed)])
                   else
                     && (attempt.Ended? <==> flat)
                     && (attempt.AttemptError? <==> !flat && (a.fetch.FetchFailed? || AnotherOutstanding(s.rows, q)))
                     && t.rows ==
                        (if flat then Rows(false, Disabled, s.rows.requests[q := s.rows.requests[q].(status := Completed)])
                         else if AnotherOutstanding(s.rows, q) then s.rows
                         else s.rows.(requests := s.rows.requests[q := s.rows.requests[q].(status := Verifying)]))
  {
    hide Sound, Finalized, FindByExecution, Loop.FetchOrder, Loop.Reconciled, ShowsFlat, AnotherOutstanding, Finished;
    if execution < |s.loop.tables.executions| {
      StoredKinds(s, execution);
      var loop := s.loop;
      if s.loop.tables.executions[execution].status.Submitted? {
        Guarding.ReconciledExactly(s.loop, execution, a.config, a.works, a.refresh);
        var r := Loop.Reconciled(s.loop, execution, a.config, a.works, a.refresh);
        loop := if r.Some? then r.value else s.loop;
      }
      var request := FindByExecution(s.rows.requests, execution);
      if request.Some? {
        VerifiesExactly(s.(loop := loop), request.value, a.config, a.fetch);
        EndsExactly(s.rows, request.value, false);
        VerdictIsReported(s.(loop := loop), request.value, a);
      }
      hide LiveStored;
    }
  }

  lemma VerdictIsReported(s: State, q: nat, a: Answers)
    requires q < |s.rows.requests|
    ensures var verdict, attempt := Finalized(s, q, a.config, a.fetch).1, FollowedFill(s, q, a).1;
            && (attempt.Ended? <==> verdict.Done?) && (attempt.AttemptError? <==> verdict.VerifyError?)
  {
    hide Finalized;
  }

  lemma StoredKinds(s: State, execution: nat)
    requires Sound(s.loop.tables) && execution < |s.loop.tables.executions|
    ensures var status := s.loop.tables.executions[execution].status;
            status.Submitted? || status.Filled? || status.Failed? || status.DryRun?
  {
    assert Stamped(s.loop.tables.executions[execution]);
  }

  // ---- Chains ---------------------------------------------------------------------------------------------------

  /** What the queue makes of one more task. */
  predicate QueuedAs(before: seq<Task>, after: seq<Task>, t: Task, queueing: Queueing) {
    match queueing
    case Accepts => after == before + [t]
    case SkipsPending => after == if t in before then before else before + [t]
    case Refuses => after == before
  }

  /** A chain of an ordinary order makes four attempts, that of a close six. */
  function Attempts(close: bool): nat {
    if close then 6 else 4
  }

  lemma QueuesExactly(tasks: seq<Task>, t: Task, queueing: Queueing)
    ensures if t.attempt < Attempts(t.close) then QueuedAs(tasks, Enqueue(tasks, t, queueing), t, queueing)
            else Enqueue(tasks, t, queueing) == tasks
    ensures DelayAt(Checkpoints(t.close), t.attempt).Some? <==> t.attempt < Attempts(t.close)
  {
  }

  /** One chain step: the task is taken off and its attempt made. Nothing follows an attempt that ended; otherwise the next
      attempt is queued, and after the last one an outstanding request of the execution fails. */
  lemma ChainStepsExactly(s: State, i: nat, a: Answers, queueing: Queueing)
    requires i < |s.tasks|
    ensures var task, t := s.tasks[i], Handled(s, i, a, queueing);
            var rest := s.tasks[..i] + s.tasks[i + 1..];
            var (u, attempt) := ReconcileExecution(s.(tasks := rest), task.execution, a);
            var q := FindByExecution(u.rows.requests, task.execution);
            if attempt.Ended? then t == u
            else if task.attempt + 1 < Attempts(task.close) then
              && t == u.(tasks := t.tasks)
              && QueuedAs(u.tasks, t.tasks, Task(task.execution, task.attempt + 1, task.close), queueing)
            else if q.Some? && Outstanding(u.rows.requests[q.value]) then
              t == u.(rows := Rows(u.rows.enabled, CloseFailed,
                                   u.rows.requests[q.value := u.rows.requests[q.value].(status := Failed)]))
            else t == u
  {
    var task := s.tasks[i];
    var u := ReconcileExecution(s.(tasks := Without(s.tasks, i)), task.execution, a).0;
    QueuesExactly(u.tasks, task.(attempt := task.attempt + 1), queueing);
    hide ReconcileExecution, FindByExecution, Enqueue, DelayAt;
  }

  // ---- The four steps of an exit --------------------------------------------------------------------------------

  /** An exit either opens a request, which enables the configuration and moves it to closing, or finds one outstanding and
      only queues the first task of its chain again, if it has an execution. */
  lemma BeginsExactly(s: State, context: Context, queueing: Queueing)
    ensures var t, q := ExitBegun(s, context, queueing), NewestOutstanding(s.rows.requests);
            match q
            case None =>
              t == s.(rows := Rows(true, Closing, s.rows.requests + [Request(None, Requested)]),
                      stage := Opened(|s.rows.requests|, context))
            case Some(i) =>
              && t == s.(tasks := t.tasks)
              && match s.rows.requests[i].execution
                 case None => t == s
                 case Some(execution) => QueuedAs(s.tasks, t.tasks, Task(execution, 0, true), queueing)
  {
    hide NewestOutstanding, Enqueue;
    var q := NewestOutstanding(s.rows.requests);
    if q.Some? && s.rows.requests[q.value].execution.Some? {
      QueuesExactly(s.tasks, Task(s.rows.requests[q.value].execution.value, 0, true), queueing);
    }
  }

  /** The second step. A position that cannot be loaded, or an order without an execution to show, fails the request; nothing
      to close completes it; an undecidable close leaves it; otherwise the decided order was executed through the store, with
      the snapshot's stamp as the time of its key, and waits to be linked. */
  lemma PlacesExactly(s: State, q: nat, context: Context, a: ExitAnswers)
    requires q < |s.rows.requests|
    ensures var t, c := ExitPlaced(s, q, context, a), context.config;
            var loaded := LoadExit(c, a.fetch, a.ticker, s.loop.snapshot, s.loop.now);
            var failed := Rows(s.rows.enabled, CloseFailed, s.rows.requests[q := s.rows.requests[q].(status := Failed)]);
            var u := s.(loop := s.loop.(snapshot := loaded.stored));
            match loaded
            case LoadFailed(_) => t == u.(rows := failed, stage := Idle)
            case Loaded(position, _) =>
              match ClosePosition(c, ToPosition(c.targetSymbol, position))
              case Err(_) => t == u.(stage := Idle)
              case Ok(d) =>
                if d.action.Hold? then
                  t == u.(rows := Rows(false, Disabled, s.rows.requests[q := s.rows.requests[q].(status := Completed)]),
                          stage := Idle)
                else
                  && d.side.Some?
                  && var run := Loop.RunInput(context.configId, c, 0, Loop.OtherReason, a.accountUsable, true, FetchFailed, 0,
                                              a.place, FetchFailed);
                     var exposure := if position.None? then ObservedExposure(0.0, 0.0, s.loop.now)
                                     else ObservedExposure(0.0, position.value.mark, position.value.observedAt);
                     var (loop, id) := Loop.Executed(u.loop, run, exposure, position, d);
                     if id.None? then t == u.(loop := loop, rows := failed, stage := Idle)
                     else t == u.(loop := loop,
                                  stage := Placed(q, context, CloseOrder(d, position, id.value,
                                                                         loop.tables.executions[id.value])))
  {
    hide LoadExit, Loop.Executed;
    var loaded := LoadExit(context.config, a.fetch, a.ticker, s.loop.snapshot, s.loop.now);
    EndsExactly(s.rows, q, true);
    EndsExactly(s.rows, q, false);
    if loaded.Loaded? {
      ClosesExactly(context.config, ToPosition(context.config.targetSymbol, loaded.position));
    }
    hide ClosePosition, Finished;
  }

  /** What an exit sends: with an open position at a positive mark, a usable account and a key without an execution, the
      exchange gets one order for the whole reported quantity, on the other side, reduce-only, decided at a limit exactly the
      allowed slippage off the reported mark; its execution waits to be linked. */
  lemma SendsTheClose(s: State, q: nat, context: Context, a: ExitAnswers, d: Decision)
    requires q < |s.rows.requests| && Sound(s.loop.tables)
    requires context.config.targetSymbol != "" && !context.config.dryRun && a.accountUsable && a.fetch.Fetched?
    requires FirstOpen(context.config.targetSymbol, a.fetch.positions).Some?
    requires FirstOpen(context.config.targetSymbol, a.fetch.positions).value.mark > 0.0
    requires a.place.Accepted?
             && (a.place.status.Submitted? || a.place.status.Filled? || a.place.status.Failed?)
    requires var position := LoadExit(context.config, a.fetch, a.ticker, s.loop.snapshot, s.loop.now).position;
             ClosePosition(context.config, ToPosition(context.config.targetSymbol, position)) == Ok(d)
    requires Store.FindByClient(
               s.loop.tables.executions,
               Store.Key(context.configId, s.loop.now, Exit, d.symbol, d.target, d.current, d.adjustment)).None?
    ensures var t, p := ExitPlaced(s, q, context, a), FirstOpen(context.config.targetSymbol, a.fetch.positions).value;
            && t.stage.Placed? && t.stage.request == q && t.rows == s.rows && t.stage.order.decision == d
            && |t.loop.orders| == |s.loop.orders| + 1 && s.loop.orders <= t.loop.orders
            && t.stage.order.row.orderId == Some(|s.loop.orders|) && t.stage.order.row.status == a.place.status
            && t.loop.snapshot.Some? && t.loop.snapshot.value.mark == p.mark
            && var o := t.loop.orders[|s.loop.orders|];
               && o.quantity == Abs(p.quantity) && o.reduceOnly && o.side == (if SignedQuantity(p) < 0.0 then Buy else Sell)
               && o.status == a.place.status && o.filled == a.place.filled
               && OffBySlippage(context.config, o.side, d.limitPrice, p.mark)
  {
    hide FirstOpen, ClosePosition, Sound, OffBySlippage, Store.FindByClient, SignedQuantity, LoadExit;
    ClosesAtReportedMark(context.config, a.fetch, a.ticker, s.loop.snapshot, s.loop.now);
    LoadedExactly(context.config, a.fetch, a.ticker, s.loop.snapshot, s.loop.now);
    LiveStampIsNow(context.config, a.fetch, a.ticker, s.loop.snapshot, s.loop.now);
    PlacesExactly(s, q, context, a);
    var loaded := LoadExit(context.config, a.fetch, a.ticker, s.loop.snapshot, s.loop.now);
    var run := Loop.RunInput(context.configId, context.config, 0, Loop.OtherReason, a.accountUsable, true, FetchFailed, 0,
                             a.place, FetchFailed);
    var exposure := ObservedExposure(0.0, loaded.position.value.mark, loaded.position.value.observedAt);
    Runs.ExecutesExactly(s.loop.(snapshot := loaded.stored), run, exposure, loaded.position, d);
    hide Loop.Executed, ExitPlaced, LivePosition;
  }

  lemma LiveStampIsNow(c: Config, fetch: Fetch, ticker: Ticker, stored: Option<Snapshot>, now: int)
    requires !c.dryRun && fetch.Fetched? && FirstOpen(c.targetSymbol, fetch.positions).Some?
    requires LoadExit(c, fetch, ticker, stored, now).Loaded?
    ensures var r := LoadExit(c, fetch, ticker, stored, now); r.position.Some? && r.position.value.observedAt == now
  {
    hide FirstOpen;
  }

  /** The third step: an outstanding request takes the execution, and is submitted while the order is, else verifying. */
  lemma LinksExactly(s: State, q: nat, context: Context, order: CloseOrder)
    requires q < |s.rows.requests|
    ensures var t, r := ExitLinked(s, q, context, order), s.rows.requests[q];
            && t == s.(rows := t.rows, stage := Linked(q, context, order))
            && t.rows == if r.status.Completed? || r.status.Failed? then s.rows
                         else s.rows.(requests := s.rows.requests[q :=
                                Request(Some(order.id), if order.row.status.Submitted? then Submitted else Verifying)])
  {
  }

  /** The last step: the snapshot is refreshed after the order, a close that was filled at once, or was dry, is verified, and
      the first task of its chain is queued unless that completed it. */
  lemma ConcludesExactly(
    s: State, q: nat, context: Context, order: CloseOrder, refresh: Fetch, fetch: Fetch, queueing: Queueing)
    requires q < |s.rows.requests| && order.decision.side.Some?
    ensures var t, d := ExitEnded(s, q, context, order, refresh, fetch, queueing), order.decision;
            var u := s.(loop := s.loop.(snapshot := RefreshedAfter(context.config, s.loop.snapshot, order.position,
                                                                   d.side.value, d.quantity, order.row, refresh,
                                                                   s.loop.now)), stage := Idle);
            var ended := order.row.status.Filled? || order.row.status.DryRun?;
            var (v, verdict) := if ended then Finalized(u, q, context.config, fetch) else (u, StillOpen);
            if ended && verdict.Done? then t == v
            else t == v.(tasks := t.tasks) && QueuedAs(s.tasks, t.tasks, Task(order.id, 0, true), queueing)
  {
    var d := order.decision;
    var u := s.(loop := s.loop.(snapshot := RefreshedAfter(context.config, s.loop.snapshot, order.position, d.side.value,
                                                           d.quantity, order.row, refresh, s.loop.now)), stage := Idle);
    VerifiesExactly(u, q, context.config, fetch);
    QueuesExactly(s.tasks, Task(order.id, 0, true), queueing);
    hide Finalized, RefreshedAfter, Enqueue, LiveStored, ShowsFlat, AnotherOutstanding;
  }

  // ---- Runs, crashes and recovery -------------------------------------------------------------------------------

  /** A run takes effect exactly when it loaded the active lifecycle. It then makes one run of the loop, and queues the first
      task of an ordinary chain exactly when it placed an order that the exchange reports as submitted and that was stored. */
  lemma TracksExactly(s: State, run: Loop.RunInput, loaded: Lifecycle, queueing: Queueing)
    ensures var t := Ran(s, run, loaded, queueing);
            var (loop, outcome) := Loop.RunOnce(s.loop, run);
            if loaded != Active then t == s
            else
              && t == s.(loop := loop, tasks := t.tasks)
              && if outcome.Ordered? && |loop.placements| > |s.loop.placements| && run.place.Accepted?
                    && run.place.status.Submitted?
                 then QueuedAs(s.tasks, t.tasks, Task(outcome.execution, 0, false), queueing)
                 else t.tasks == s.tasks
  {
    hide Loop.RunOnce, Enqueue;
    var outcome := Loop.RunOnce(s.loop, run).1;
    if outcome.Ordered? {
      QueuesExactly(s.tasks, Task(outcome.execution, 0, false), queueing);
    }
  }

  /** A crash stops the service and forgets the exit in progress; rows, snapshot and queued tasks stay. While it is down only
      the outside world and the recovery change anything; runs and new exits also wait for an exit in progress. */
  lemma StepsExactly(s: State, e: Event)
    ensures e.Crash? ==> Step(s, e) == s.(stage := Idle, down := true)
    ensures s.down && !e.Outside? && !e.Recover? && !e.Crash? ==> Step(s, e) == s
    ensures !s.down && e.Recover? ==> Step(s, e) == s
    ensures !s.stage.Idle? && (e.Automatic? || e.ExitBegin?) ==> Step(s, e) == s
    ensures e.Recover? ==> !Step(s, e).down
    ensures e.ExitPlace? && !s.stage.Opened? ==> Step(s, e) == s
    ensures e.ExitLink? && !s.stage.Placed? ==> Step(s, e) == s
    ensures e.ExitEnd? && !s.stage.Linked? ==> Step(s, e) == s
  {
    hide Ran, ExitBegun, ExitPlaced, ExitLinked, ExitEnded, Handled, ReconcileExecution, Loop.Step;
  }
}
