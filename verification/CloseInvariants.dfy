/** What every run of the close lifecycle keeps: at most one outstanding request, whatever the task queue does, and no
    stranded request, if the queue takes the tasks that matter. */
module CloseInvariants {
  import opened Money
  import opened Calculator
  import opened Positions
  import opened ExitPosition
  import opened CloseStore
  import opened Chains
  import opened CloseLifecycle
  import Loop = HedgeLoop

  // ---- The invariant --------------------------------------------------------------------------------------------

  /** No later request shares the execution of request `q`. */
  predicate Newest(rows: Rows, q: nat) {
    q < |rows.requests|
    && (rows.requests[q].execution.Some? ==>
          forall j :: q < j < |rows.requests| ==> rows.requests[j].execution != rows.requests[q].execution)
  }

  predicate RowsFit(rows: Rows) {
    && AtMostOneOutstanding(rows)
    && forall i :: 0 <= i < |rows.requests| && Outstanding(rows.requests[i]) ==> Newest(rows, i)
  }

  /** The exit in progress works on the newest request; before it links an execution, that request has none. */
  predicate StageFits(rows: Rows, stage: Stage) {
    match stage
    case Idle => true
    case Opened(q, _) => q + 1 == |rows.requests| && rows.requests[q] == Request(None, Requested)
    case Placed(q, _, _) => q + 1 == |rows.requests| && rows.requests[q] == Request(None, Requested)
    case Linked(q, _, order) => q + 1 == |rows.requests| && rows.requests[q].execution == Some(order.id)
  }

  predicate HasChain(tasks: seq<Task>, execution: nat) {
    exists i :: 0 <= i < |tasks| && tasks[i].execution == execution
  }

  /** Somebody will decide this request: the exit in progress, or a pending task of its execution. */
  predicate Followed(s: State, q: nat)
    requires q < |s.rows.requests|
  {
    || (!s.stage.Idle? && s.stage.request == q)
    || (s.rows.requests[q].execution.Some? && HasChain(s.tasks, s.rows.requests[q].execution.value))
  }

  predicate NoneStranded(s: State) {
    !s.down ==> forall q :: 0 <= q < |s.rows.requests| && Outstanding(s.rows.requests[q]) ==> Followed(s, q)
  }

  predicate SymbolKnown(stage: Stage) {
    !stage.Idle? ==> stage.context.config.targetSymbol != ""
  }

  /** What the rows and the exit in progress keep, whatever symbols are configured and whatever the queue does. */
  predicate Arranged(s: State) {
    RowsFit(s.rows) && StageFits(s.rows, s.stage) && (s.down ==> s.stage.Idle?)
  }

  predicate Fits(s: State) {
    Arranged(s) && SymbolKnown(s.stage) && NoneStranded(s)
  }

  // ---- What single updates do to the rows -----------------------------------------------------------------------

  /** The ways in which the end of a request is decided or put off. */
  predicate Decides(before: Rows, after: Rows, q: nat)
    requires q < |before.requests|
  {
    || after == before
    || after == Finished(before, q, true)
    || after == Finished(before, q, false)
    || WithStatus(before, q, Verifying) == Some(after)
  }

  lemma DecidedFits(before: Rows, after: Rows, q: nat)
    requires RowsFit(before) && Newest(before, q) && Decides(before, after, q)
    ensures RowsFit(after) && |after.requests| == |before.requests|
    ensures forall i :: 0 <= i < |before.requests| ==> after.requests[i].execution == before.requests[i].execution
    ensures forall i :: 0 <= i < |before.requests| && i != q ==> after.requests[i] == before.requests[i]
  {
    assert forall i :: 0 <= i < |before.requests| ==> after.requests[i].execution == before.requests[i].execution;
    forall i | 0 <= i < |after.requests| && Outstanding(after.requests[i])
      ensures Newest(after, i)
    {
      assert Newest(before, i);
    }
  }

  lemma BegunFits(rows: Rows)
    requires RowsFit(rows)
    ensures RowsFit(Begun(rows).0)
  {
    var after := Begun(rows).0;
    forall i | 0 <= i < |after.requests| && Outstanding(after.requests[i])
      ensures Newest(after, i)
    {
      if i < |rows.requests| {
        assert Newest(rows, i);
      }
    }
  }

  lemma AttachedFits(rows: Rows, q: nat, execution: nat, status: RequestStatus)
    requires RowsFit(rows) && q + 1 == |rows.requests| && rows.requests[q] == Request(None, Requested)
    requires status == Submitted || status == Verifying
    ensures RowsFit(Attached(rows, q, execution, status))
    ensures Attached(rows, q, execution, status).requests == rows.requests[q := Request(Some(execution), status)]
  {
    var after := Attached(rows, q, execution, status);
    forall i | 0 <= i < |after.requests| && Outstanding(after.requests[i])
      ensures Newest(after, i)
    {
      assert i == q;
    }
  }

  lemma FinalizedShape(s: State, q: nat, config: Config, fetch: Fetch)
    requires q < |s.rows.requests|
    ensures var (t, verdict) := Finalized(s, q, config, fetch);
            && Decides(s.rows, t.rows, q) && t == s.(loop := t.loop, rows := t.rows)
            && t.loop == s.loop.(snapshot := t.loop.snapshot)
            && (verdict.Done? ==> t.rows == Finished(s.rows, q, true))
            && (verdict.Done? <==> config.dryRun || ShowsFlat(config.targetSymbol, fetch))
            && (!verdict.Done? ==> t.rows == s.rows || WithStatus(s.rows, q, Verifying) == Some(t.rows))
  {
    hide LivePosition, WithStatus, Finished, ShowsFlat;
  }

  /** One attempt touches at most the newest request of its execution, and a final answer leaves that one ended. */
  lemma AttemptShape(s: State, execution: nat, a: Answers)
    ensures var (t, attempt) := ReconcileExecution(s, execution, a);
            && t == s.(loop := t.loop, rows := t.rows)
            && match FindByExecution(s.rows.requests, execution)
               case None => t.rows == s.rows
               case Some(q) => Decides(s.rows, t.rows, q) && (attempt.Ended? ==> !Outstanding(t.rows.requests[q]))
  {
    hide Finalized, WithStatus, FindByExecution;
    var loop := if execution < |s.loop.tables.executions| && s.loop.tables.executions[execution].status.Submitted?
                then Loop.Reconciled(s.loop, execution, a.config, a.works, a.refresh)
                else Some(s.loop);
    hide Loop.Reconciled;
    if execution < |s.loop.tables.executions| && loop.Some? {
      JudgedShape(s.(loop := loop.value), execution, a);
    }
  }

  lemma JudgedShape(s: State, execution: nat, a: Answers)
    requires execution < |s.loop.tables.executions|
    ensures var (t, attempt) := Judged(s, execution, a);
            && t == s.(loop := t.loop, rows := t.rows)
            && match FindByExecution(s.rows.requests, execution)
               case None => t.rows == s.rows
               case Some(q) => Decides(s.rows, t.rows, q) && (attempt.Ended? ==> !Outstanding(t.rows.requests[q]))
  {
    hide Finalized, WithStatus, FindByExecution;
    match FindByExecution(s.rows.requests, execution)
    case None =>
    case Some(q) => FinalizedShape(s, q, a.config, a.fetch);
  }

  // ---- Chains ---------------------------------------------------------------------------------------------------

  lemma EnqueueKeeps(tasks: seq<Task>, t: Task, queueing: Queueing, execution: nat)
    requires HasChain(tasks, execution)
    ensures HasChain(Enqueue(tasks, t, queueing), execution)
  {
    var i :| 0 <= i < |tasks| && tasks[i].execution == execution;
    assert Enqueue(tasks, t, queueing)[i] == tasks[i];
  }

  lemma EnqueueAdds(tasks: seq<Task>, t: Task, queueing: Queueing)
    requires DelayAt(Checkpoints(t.close), t.attempt).Some? && !queueing.Refuses?
    ensures HasChain(Enqueue(tasks, t, queueing), t.execution)
  {
    if queueing.SkipsPending? && t in tasks {
      var i :| 0 <= i < |tasks| && tasks[i] == t;
    } else {
      assert (tasks + [t])[|tasks|] == t;
    }
  }

  lemma RemovalKeeps(tasks: seq<Task>, i: nat, execution: nat)
    requires i < |tasks| && HasChain(tasks, execution) && tasks[i].execution != execution
    ensures HasChain(Without(tasks, i), execution)
  {
    var k :| 0 <= k < |tasks| && tasks[k].execution == execution;
    assert Without(tasks, i)[if k < i then k else k - 1] == tasks[k];
  }

  /** Handling a task either leaves a further task of its execution or has ended the request that execution belongs to,
      unless the queue refuses. */
  lemma HandledShape(s: State, i: nat, a: Answers, queueing: Queueing)
    requires i < |s.tasks|
    ensures var t := Handled(s, i, a, queueing);
            && t == s.(loop := t.loop, rows := t.rows, tasks := t.tasks)
            && (forall e :: HasChain(Without(s.tasks, i), e) ==> HasChain(t.tasks, e))
            && match FindByExecution(s.rows.requests, s.tasks[i].execution)
               case None => t.rows == s.rows
               case Some(q) =>
                 && q < |t.rows.requests| == |s.rows.requests|
                 && (Outstanding(t.rows.requests[q]) && !queueing.Refuses? ==> HasChain(t.tasks, s.tasks[i].execution))
  {
    hide ReconcileExecution, FindByExecution, HasChain, Outstanding, WithStatus, DelayAt, Enqueue;
    var s1 := s.(tasks := Without(s.tasks, i));
    AttemptShape(s1, s.tasks[i].execution, a);
    var (t, attempt) := ReconcileExecution(s1, s.tasks[i].execution, a);
    SizeAfter(s1, s.tasks[i].execution, a);
    if !attempt.Ended? {
      NextShape(s1, t, s.tasks[i], queueing);
    }
  }

  lemma SizeAfter(s: State, execution: nat, a: Answers)
    ensures var t := ReconcileExecution(s, execution, a).0; |t.rows.requests| == |s.rows.requests|
    ensures var t := ReconcileExecution(s, execution, a).0;
            FindByExecution(t.rows.requests, execution) == FindByExecution(s.rows.requests, execution)
  {
    AttemptShape(s, execution, a);
    var t := ReconcileExecution(s, execution, a).0;
    hide ReconcileExecution;
    match FindByExecution(s.rows.requests, execution)
    case None =>
    case Some(q) => SameExecutions(s.rows, t.rows, q, execution);
  }

  lemma SameExecutions(before: Rows, after: Rows, q: nat, execution: nat)
    requires q < |before.requests| && Decides(before, after, q)
    ensures |after.requests| == |before.requests|
    ensures FindByExecution(after.requests, execution) == FindByExecution(before.requests, execution)
  {
    assert forall i :: 0 <= i < |before.requests| ==> after.requests[i].execution == before.requests[i].execution;
    var x, y := FindByExecution(before.requests, execution), FindByExecution(after.requests, execution);
    if x.Some? && y.Some? {
      assert x.value == y.value;
    }
  }

  lemma NextShape(before: State, s: State, t: Task, queueing: Queueing)
    requires FindByExecution(before.rows.requests, t.execution) == FindByExecution(s.rows.requests, t.execution)
    ensures var r := ScheduledNext(s, t, queueing);
            && r == s.(rows := r.rows, tasks := r.tasks) && |r.rows.requests| == |s.rows.requests|
            && (forall e :: HasChain(s.tasks, e) ==> HasChain(r.tasks, e))
            && match FindByExecution(before.rows.requests, t.execution)
               case None => r.rows == s.rows
               case Some(q) =>
                 && q < |r.rows.requests|
                 && (Outstanding(r.rows.requests[q]) && !queueing.Refuses? ==> HasChain(r.tasks, t.execution))
                 && (r.rows == s.rows || r.rows == Finished(s.rows, q, false))
  {
    hide HasChain, Enqueue, DelayAt, FindByExecution;
    var next := t.(attempt := t.attempt + 1);
    if DelayAt(Checkpoints(t.close), next.attempt).Some? {
      if !queueing.Refuses? {
        EnqueueAdds(s.tasks, next, queueing);
      }
      forall e | HasChain(s.tasks, e)
        ensures HasChain(Enqueue(s.tasks, next, queueing), e)
      {
        EnqueueKeeps(s.tasks, next, queueing, e);
      }
    }
  }

  /** The rows after a handled task, seen as at most two decisions about the same request. */
  lemma HandledRows(s: State, i: nat, a: Answers, queueing: Queueing)
    requires RowsFit(s.rows) && i < |s.tasks|
    ensures var t := Handled(s, i, a, queueing);
            && RowsFit(t.rows) && |t.rows.requests| == |s.rows.requests|
            && (forall k :: 0 <= k < |s.rows.requests| ==> t.rows.requests[k].execution == s.rows.requests[k].execution)
            && (forall k :: 0 <= k < |s.rows.requests| && s.rows.requests[k].execution != Some(s.tasks[i].execution)
                  ==> t.rows.requests[k] == s.rows.requests[k])
            && (forall k :: 0 <= k < |s.rows.requests| && FindByExecution(s.rows.requests, s.tasks[i].execution) != Some(k)
                  ==> t.rows.requests[k] == s.rows.requests[k])
  {
    hide ReconcileExecution, FindByExecution, RowsFit, Outstanding, Finished, WithStatus, DelayAt, Enqueue;
    var s1 := s.(tasks := Without(s.tasks, i));
    var execution := s.tasks[i].execution;
    AttemptShape(s1, execution, a);
    SizeAfter(s1, execution, a);
    var (t, attempt) := ReconcileExecution(s1, execution, a);
    if !attempt.Ended? {
      NextShape(s1, t, s.tasks[i], queueing);
    }
    match FindByExecution(s.rows.requests, execution)
    case None =>
    case Some(q) =>
      assert Newest(s.rows, q);
      DecidedFits(s.rows, t.rows, q);
      assert Newest(t.rows, q);
      if !attempt.Ended? {
        DecidedFits(t.rows, ScheduledNext(t, s.tasks[i], queueing).rows, q);
      }
  }

  lemma ChainIsArranged(s: State, i: nat, a: Answers, queueing: Queueing)
    requires Arranged(s) && i < |s.tasks|
    ensures Arranged(Handled(s, i, a, queueing))
  {
    HandledRows(s, i, a, queueing);
    HandledShape(s, i, a, queueing);
    hide Handled, HasChain, RowsFit;
  }

  lemma ChainFits(s: State, i: nat, a: Answers, queueing: Queueing)
    requires Fits(s) && !s.down && i < |s.tasks| && !queueing.Refuses?
    ensures Fits(Handled(s, i, a, queueing))
  {
    HandledRows(s, i, a, queueing);
    HandledShape(s, i, a, queueing);
    ChainIsArranged(s, i, a, queueing);
    hide Handled, HasChain;
    var t := Handled(s, i, a, queueing);
    forall q | 0 <= q < |t.rows.requests| && Outstanding(t.rows.requests[q])
      ensures Followed(t, q)
    {
      var e := t.rows.requests[q].execution;
      if e == Some(s.tasks[i].execution) {
        assert Newest(t.rows, q);
        assert FindByExecution(s.rows.requests, s.tasks[i].execution) == Some(q);
      } else {
        assert Followed(s, q);
        if e.Some? && HasChain(s.tasks, e.value) {
          RemovalKeeps(s.tasks, i, e.value);
        }
      }
    }
  }

  // ---- The exit, crashes and recovery ---------------------------------------------------------------------------

  /** Nothing but the loop and the tasks changed, and no pending execution was forgotten. */
  lemma SameRowsFit(s: State, t: State)
    requires Fits(s) && t.rows == s.rows && t.stage == s.stage && t.down == s.down
    requires forall e :: HasChain(s.tasks, e) ==> HasChain(t.tasks, e)
    ensures Fits(t)
  {
    hide HasChain;
    assert forall q :: 0 <= q < |s.rows.requests| && Followed(s, q) ==> Followed(t, q);
  }

  lemma EnqueuedFits(s: State, t: Task, queueing: Queueing)
    requires Fits(s)
    ensures Fits(s.(tasks := Enqueue(s.tasks, t, queueing)))
  {
    hide Fits, Enqueue;
    forall e | HasChain(s.tasks, e)
      ensures HasChain(Enqueue(s.tasks, t, queueing), e)
    {
      EnqueueKeeps(s.tasks, t, queueing, e);
    }
    SameRowsFit(s, s.(tasks := Enqueue(s.tasks, t, queueing)));
  }

  lemma RunKeepsRows(s: State, run: Loop.RunInput, loaded: Lifecycle, queueing: Queueing)
    ensures var t := Ran(s, run, loaded, queueing); t == s.(loop := t.loop, tasks := t.tasks)
  {
    hide Loop.RunOnce, Enqueue;
  }

  lemma RanFits(s: State, run: Loop.RunInput, loaded: Lifecycle, queueing: Queueing)
    requires Fits(s)
    ensures Fits(Ran(s, run, loaded, queueing))
  {
    hide Fits, Enqueue, Loop.RunOnce, HasChain;
    var (loop, outcome) := Loop.RunOnce(s.loop, run);
    SameRowsFit(s, s.(loop := loop));
    if outcome.Ordered? {
      EnqueuedFits(s.(loop := loop), Task(outcome.execution, 0, false), queueing);
    }
    SameRowsFit(s, s);
  }

  lemma ExitBegunFits(s: State, context: Context, queueing: Queueing)
    requires Fits(s) && s.stage.Idle? && !s.down && context.config.targetSymbol != ""
    ensures Fits(ExitBegun(s, context, queueing))
  {
    var (rows, request, created) := Begun(s.rows);
    BegunFits(s.rows);
    EnqueuedFitsAll(s, queueing);
    var t := ExitBegun(s, context, queueing);
    if created {
      assert forall q :: 0 <= q < |t.rows.requests| && Outstanding(t.rows.requests[q]) ==> Followed(t, q);
    } else {
      hide Fits, Enqueue, Begun;
    }
  }

  lemma EnqueuedFitsAll(s: State, queueing: Queueing)
    requires Fits(s)
    ensures forall e :: Fits(ScheduledClose(s, e, queueing))
  {
    hide Fits, Enqueue;
    forall e: nat
      ensures Fits(ScheduledClose(s, e, queueing))
    {
      EnqueuedFits(s, Task(e, 0, true), queueing);
    }
  }

  /** An exit that ends its request leaves no request outstanding. */
  lemma EndedFits(s: State, q: nat, completed: bool)
    requires Fits(s) && s.stage.Opened? && s.stage.request == q
    ensures Fits(s.(rows := Finished(s.rows, q, completed), stage := Idle))
  {
    hide HasChain;
    DecidedFits(s.rows, Finished(s.rows, q, completed), q);
  }

  lemma ExitPlacedFits(s: State, a: ExitAnswers)
    requires Fits(s) && !s.down && s.stage.Opened?
    ensures Fits(ExitPlaced(s, s.stage.request, s.stage.context, a))
  {
    var q, context := s.stage.request, s.stage.context;
    var loaded := LoadExit(context.config, a.fetch, a.ticker, s.loop.snapshot, s.loop.now);
    EndedFits(s, q, false);
    hide LoadExit, ClosePosition, CloseOrdered;
    if loaded.Loaded? {
      LoadedCloses(context.config, a.fetch, a.ticker, s.loop.snapshot, s.loop.now);
      var s1 := s.(loop := s.loop.(snapshot := loaded.stored));
      SameLoopFits(s, s1.loop);
      EndedFits(s1, q, true);
      var d := ClosePosition(context.config, ToPosition(context.config.targetSymbol, loaded.position)).value;
      if d.IsOrder() && d.side.Some? {
        var (loop, id) := CloseOrdered(s1.loop, context, loaded.position, d, a);
        SameLoopFits(s, loop);
        EndedFits(s.(loop := loop), q, false);
        if id.Some? {
          var order := CloseOrder(d, loaded.position, id.value, loop.tables.executions[id.value]);
          StageMovesOn(s.(loop := loop), Placed(q, context, order));
        }
      }
    }
  }

  lemma SameLoopFits(s: State, loop: Loop.State)
    requires Fits(s)
    ensures Fits(s.(loop := loop))
  {
    hide Fits;
    SameRowsFit(s, s.(loop := loop));
  }

  lemma StageMovesOn(s: State, stage: Stage)
    requires Fits(s) && s.stage.Opened? && stage.Placed?
    requires stage.request == s.stage.request && stage.context == s.stage.context
    ensures Fits(s.(stage := stage))
  {
    hide HasChain;
    var t := s.(stage := stage);
    assert forall q :: 0 <= q < |s.rows.requests| && Followed(s, q) ==> Followed(t, q);
  }

  lemma ExitLinkedFits(s: State)
    requires Fits(s) && !s.down && s.stage.Placed?
    ensures Fits(ExitLinked(s, s.stage.request, s.stage.context, s.stage.order))
  {
    hide HasChain;
    var t := ExitLinked(s, s.stage.request, s.stage.context, s.stage.order);
    AttachedFits(s.rows, s.stage.request, s.stage.order.id,
                 if s.stage.order.row.status.Submitted? then Submitted else Verifying);
    forall q | 0 <= q < |t.rows.requests| && Outstanding(t.rows.requests[q])
      ensures Followed(t, q)
    {
      assert q == s.stage.request;
    }
  }

  /** The last step of an exit: its request has ended, or a task of its execution is queued. */
  lemma ExitEndedShape(
    s: State, q: nat, context: Context, order: CloseOrder, refresh: Fetch, fetch: Fetch, queueing: Queueing)
    requires q < |s.rows.requests|
    ensures var t := ExitEnded(s, q, context, order, refresh, fetch, queueing);
            && t == s.(loop := t.loop, rows := t.rows, tasks := t.tasks, stage := Idle) && Decides(s.rows, t.rows, q)
            && ((t.tasks == s.tasks && t.rows == Finished(s.rows, q, true))
                || t.tasks == Enqueue(s.tasks, Task(order.id, 0, true), queueing))
  {
    var d := order.decision;
    var snapshot := if d.side.None? then s.loop.snapshot
                    else RefreshedAfter(context.config, s.loop.snapshot, order.position, d.side.value, d.quantity,
                                        order.row, refresh, s.loop.now);
    var s1 := s.(loop := s.loop.(snapshot := snapshot), stage := Idle);
    hide RefreshedAfter, Enqueue, Finalized, WithStatus, ShowsFlat, Finished;
    FinalizedShape(s1, q, context.config, fetch);
  }

  lemma ExitEndedFits(s: State, refresh: Fetch, fetch: Fetch, queueing: Queueing)
    requires Fits(s) && !s.down && s.stage.Linked? && !queueing.Refuses?
    ensures Fits(ExitEnded(s, s.stage.request, s.stage.context, s.stage.order, refresh, fetch, queueing))
  {
    var q, order := s.stage.request, s.stage.order;
    ExitEndedShape(s, q, s.stage.context, order, refresh, fetch, queueing);
    var t := ExitEnded(s, q, s.stage.context, order, refresh, fetch, queueing);
    EnqueueAdds(s.tasks, Task(order.id, 0, true), queueing);
    forall e | HasChain(s.tasks, e)
      ensures HasChain(t.tasks, e)
    {
      EnqueueKeeps(s.tasks, Task(order.id, 0, true), queueing, e);
    }
    hide ExitEnded, HasChain, Enqueue, WithStatus;
    assert Newest(s.rows, q);
    DecidedFits(s.rows, t.rows, q);
    assert Outstanding(t.rows.requests[q]) ==> HasChain(t.tasks, order.id);
    forall k | 0 <= k < |t.rows.requests| && Outstanding(t.rows.requests[k])
      ensures Followed(t, k)
    {
      if k != q {
        assert Followed(s, k);
      }
    }
  }

  lemma CrashFits(s: State)
    requires Fits(s)
    ensures Fits(s.(stage := Idle, down := true))
  {
    hide HasChain;
  }

  lemma ChainCrashFits(s: State, i: nat, a: Answers, stored: bool)
    requires Fits(s) && !s.down && i < |s.tasks|
    ensures Fits(Step(s, ChainCrash(i, a, stored)))
  {
    var s1 := s.(tasks := Without(s.tasks, i));
    var execution := s.tasks[i].execution;
    AttemptShape(s1, execution, a);
    hide ReconcileExecution, HasChain, WithStatus;
    match FindByExecution(s.rows.requests, execution)
    case None =>
    case Some(q) =>
      assert Newest(s.rows, q);
      DecidedFits(s.rows, ReconcileExecution(s1, execution, a).0.rows, q);
  }

  /** Recovery gives every request it has passed an end or a pending task, and touches no other. */
  lemma {:induction false} RecoveredShape(s: State, n: nat, queueing: Queueing)
    requires RowsFit(s.rows) && n <= |s.rows.requests|
    ensures var t := RecoveredUpTo(s, n, queueing);
            && t == s.(rows := t.rows, tasks := t.tasks) && RowsFit(t.rows)
            && (forall e :: HasChain(s.tasks, e) ==> HasChain(t.tasks, e))
            && (forall q :: n <= q < |s.rows.requests| ==> t.rows.requests[q] == s.rows.requests[q])
            && (forall q :: 0 <= q < n && Outstanding(t.rows.requests[q]) && !queueing.Refuses? ==>
                  t.rows.requests[q].execution.Some? && HasChain(t.tasks, t.rows.requests[q].execution.value))
    decreases n
  {
    hide HasChain, Enqueue;
    if n > 0 {
      RecoveredShape(s, n - 1, queueing);
      var t := RecoveredUpTo(s, n - 1, queueing);
      var r := s.rows.requests[n - 1];
      assert t.rows.requests[n - 1] == r;
      if Outstanding(r) {
        match r.execution
        case None =>
          assert Newest(t.rows, n - 1);
          DecidedFits(t.rows, Finished(t.rows, n - 1, false), n - 1);
        case Some(execution) =>
          if !queueing.Refuses? {
            EnqueueAdds(t.tasks, Task(execution, 0, true), queueing);
          }
          forall e | HasChain(t.tasks, e)
            ensures HasChain(Enqueue(t.tasks, Task(execution, 0, true), queueing), e)
          {
            EnqueueKeeps(t.tasks, Task(execution, 0, true), queueing, e);
          }
      }
    }
  }

  // ---- Steps and runs -------------------------------------------------------------------------------------------

  predicate NamesSymbol(e: Event) {
    e.ExitBegin? ==> e.context.config.targetSymbol != ""
  }

  /** The queue takes the chain a step schedules: it does not fail, and no key of a lost task stands in the way. */
  predicate QueueTakes(e: Event) {
    match e
    case ExitEnd(_, _, queueing) => !queueing.Refuses?
    case Chain(_, _, queueing) => !queueing.Refuses?
    case Recover(queueing) => !queueing.Refuses?
    case _ => true
  }

  /** What placing does to the rows and the stage: the request is decided and the exit over, or the order is placed. */
  lemma ExitPlacedShape(s: State, a: ExitAnswers)
    requires s.stage.Opened? && s.stage.request < |s.rows.requests|
    ensures var t := ExitPlaced(s, s.stage.request, s.stage.context, a);
            && t == s.(loop := t.loop, rows := t.rows, stage := t.stage)
            && Decides(s.rows, t.rows, s.stage.request)
            && (t.stage.Idle? || (t.stage.Placed? && t.rows == s.rows && t.stage.request == s.stage.request
                                  && t.stage.context == s.stage.context))
  {
    hide LoadExit, ClosePosition, CloseOrdered, WithStatus, Finished;
  }

  lemma ExitIsArranged(s: State, e: Event)
    requires Arranged(s) && !s.down && (e.ExitPlace? || e.ExitLink? || e.ExitEnd?)
    ensures Arranged(Step(s, e))
  {
    hide ExitPlaced, ExitEnded, WithStatus, HasChain, Enqueue;
    match e
    case ExitPlace(a) =>
      if s.stage.Opened? {
        ExitPlacedShape(s, a);
        DecidedFits(s.rows, Step(s, e).rows, s.stage.request);
      }
    case ExitLink =>
      if s.stage.Placed? {
        AttachedFits(s.rows, s.stage.request, s.stage.order.id,
                     if s.stage.order.row.status.Submitted? then Submitted else Verifying);
      }
    case ExitEnd(refresh, fetch, queueing) =>
      if s.stage.Linked? {
        ExitEndedShape(s, s.stage.request, s.stage.context, s.stage.order, refresh, fetch, queueing);
        assert Newest(s.rows, s.stage.request);
        DecidedFits(s.rows, Step(s, e).rows, s.stage.request);
      }
    case _ =>
  }

  lemma ChainCrashIsArranged(s: State, i: nat, a: Answers, stored: bool)
    requires Arranged(s) && !s.down && i < |s.tasks|
    ensures Arranged(Step(s, ChainCrash(i, a, stored)))
  {
    var s1 := s.(tasks := Without(s.tasks, i));
    var execution := s.tasks[i].execution;
    AttemptShape(s1, execution, a);
    hide ReconcileExecution, WithStatus;
    match FindByExecution(s.rows.requests, execution)
    case None =>
    case Some(q) =>
      assert Newest(s.rows, q);
      DecidedFits(s.rows, ReconcileExecution(s1, execution, a).0.rows, q);
  }

  lemma StepIsArranged(s: State, e: Event)
    requires Arranged(s)
    ensures Arranged(Step(s, e))
  {
    hide Handled, Ran, ExitPlaced, ExitLinked, ExitEnded, Loop.Step, RowsFit, ReconcileExecution, Begun;
    match e
    case Outside(_, _) =>
    case Automatic(run, loaded, queueing) => RunKeepsRows(s, run, loaded, queueing);
    case ExitBegin(context, queueing) =>
      BegunFits(s.rows);
      BegunIsLast(s.rows);
    case Chain(i, a, queueing) =>
      if i < |s.tasks| {
        ChainIsArranged(s, i, a, queueing);
      }
    case Crash =>
    case ChainCrash(i, a, stored) =>
      if !s.down && i < |s.tasks| {
        ChainCrashIsArranged(s, i, a, stored);
      }
    case Recover(queueing) => RecoveredShape(s, |s.rows.requests|, queueing);
    case _ =>
      if !s.down {
        ExitIsArranged(s, e);
      }
  }

  lemma BegunIsLast(rows: Rows)
    ensures var (after, q, created) := Begun(rows);
            if created then q + 1 == |after.requests| && after.requests[q] == Request(None, Requested) else after == rows
  {
  }

  lemma {:induction false} TraceIsArranged(s: State, events: seq<Event>)
    requires Arranged(s)
    ensures Arranged(Trace(s, events))
    decreases |events|
  {
    if events != [] {
      hide Arranged, Step;
      StepIsArranged(s, events[0]);
      TraceIsArranged(Step(s, events[0]), events[1..]);
    }
  }

  lemma StepFits(s: State, e: Event)
    requires Fits(s) && NamesSymbol(e) && QueueTakes(e)
    ensures Fits(Step(s, e))
  {
    hide Handled, Ran, ExitBegun, ExitPlaced, ExitLinked, ExitEnded, Loop.Step, HasChain, RowsFit, ReconcileExecution;
    match e
    case Outside(elapsed, event) =>
      SameLoopFits(s, Loop.Step(s.loop, Loop.Timed(elapsed, event)));
    case Automatic(run, loaded, queueing) => RanFits(s, run, loaded, queueing);
    case ExitBegin(context, queueing) =>
      if !s.down && s.stage.Idle? {
        ExitBegunFits(s, context, queueing);
      }
    case ExitPlace(a) =>
      if !s.down && s.stage.Opened? {
        ExitPlacedFits(s, a);
      }
    case ExitLink =>
      if !s.down && s.stage.Placed? {
        ExitLinkedFits(s);
      }
    case ExitEnd(refresh, fetch, queueing) =>
      if !s.down && s.stage.Linked? {
        ExitEndedFits(s, refresh, fetch, queueing);
      }
    case Chain(i, a, queueing) =>
      if !s.down && i < |s.tasks| {
        ChainFits(s, i, a, queueing);
      }
    case Crash => CrashFits(s);
    case ChainCrash(i, a, stored) =>
      if !s.down && i < |s.tasks| {
        ChainCrashFits(s, i, a, stored);
      }
    case Recover(queueing) =>
      if s.down {
        RecoveredShape(s, |s.rows.requests|, queueing);
      }
  }

  predicate Initial(s: State) {
    s.rows.lifecycle == Active && s.rows.requests == [] && s.tasks == [] && s.stage == Idle && !s.down
  }

  lemma {:induction false} TraceFits(s: State, events: seq<Event>)
    requires Fits(s) && forall i :: 0 <= i < |events| ==> NamesSymbol(events[i]) && QueueTakes(events[i])
    ensures Fits(Trace(s, events))
    decreases |events|
  {
    if events != [] {
      hide Fits, Step, NamesSymbol, QueueTakes;
      StepFits(s, events[0]);
      TraceFits(Step(s, events[0]), events[1..]);
    }
  }

  /** In every reachable state at most one close request is outstanding. */
  lemma AtMostOneCloseRequest(s: State, events: seq<Event>)
    requires Initial(s)
    ensures AtMostOneOutstanding(Trace(s, events).rows)
  {
    TraceIsArranged(s, events);
  }

  /** No close is ever stranded: whenever the service is up and no exit is in progress, every outstanding request has an
      execution and a pending reconciliation task for it. This holds through crashes of an exit or of a chain at any
      point, once the service has recovered - provided exits have a target symbol and the queue takes the chains. */
  lemma NoCloseIsStranded(s: State, events: seq<Event>, q: nat)
    requires Initial(s) && forall i :: 0 <= i < |events| ==> NamesSymbol(events[i]) && QueueTakes(events[i])
    requires !Trace(s, events).down && Trace(s, events).stage.Idle?
    requires q < |Trace(s, events).rows.requests| && Outstanding(Trace(s, events).rows.requests[q])
    ensures Trace(s, events).rows.requests[q].execution.Some?
    ensures HasChain(Trace(s, events).tasks, Trace(s, events).rows.requests[q].execution.value)
  {
    TraceFits(s, events);
    assert Followed(Trace(s, events), q);
  }

  /** Recovery follows every outstanding request if and only if the queue takes its chains: a chain that is not already
      pending is lost when the key of a task lost in the crash still blocks it. */
  lemma RecoveryFollowsExactly(s: State, queueing: Queueing, q: nat)
    requires Arranged(s) && s.down && q < |s.rows.requests| && Outstanding(s.rows.requests[q])
    requires s.rows.requests[q].execution.Some? && !HasChain(s.tasks, s.rows.requests[q].execution.value)
    ensures Followed(Step(s, Recover(queueing)), q) <==> !queueing.Refuses?
  {
    RecoveredShape(s, |s.rows.requests|, queueing);
    if queueing.Refuses? {
      RefusedRecovery(s, |s.rows.requests|);
    } else {
      RecoveredKeeps(s, |s.rows.requests|, queueing, q);
    }
    hide HasChain, RecoveredUpTo;
  }

  lemma {:induction false} RefusedRecovery(s: State, n: nat)
    requires n <= |s.rows.requests|
    ensures RecoveredUpTo(s, n, Refuses).tasks == s.tasks
    ensures forall k :: 0 <= k < |s.rows.requests| ==>
              RecoveredUpTo(s, n, Refuses).rows.requests[k].execution == s.rows.requests[k].execution
    decreases n
  {
    if n > 0 {
      RefusedRecovery(s, n - 1);
    }
  }

  lemma {:induction false} RecoveredKeeps(s: State, n: nat, queueing: Queueing, q: nat)
    requires n <= |s.rows.requests| && q < |s.rows.requests| && s.rows.requests[q].execution.Some?
    ensures RecoveredUpTo(s, n, queueing).rows.requests[q] == s.rows.requests[q]
    decreases n
  {
    hide Enqueue;
    if n > 0 {
      RecoveredKeeps(s, n - 1, queueing, q);
    }
  }
}
