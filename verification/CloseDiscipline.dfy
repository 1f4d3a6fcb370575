/** When a request is outstanding exactly while the configuration is closing, and when ended requests stay ended: the exact
    condition of each, for one attempt, for one step and for whole runs. */
module CloseDiscipline {
  import opened Money
  import opened Calculator
  import opened ExitPosition
  import opened CloseStore
  import opened Chains
  import opened CloseLifecycle
  import opened CloseInvariants
  import Store = OrderStore
  import Loop = HedgeLoop

  // ---- Ended requests -------------------------------------------------------------------------------------------

  /** A request is outstanding exactly while the configuration is closing. */
  predicate Coupled(rows: Rows) {
    rows.lifecycle.Closing? <==> exists q :: 0 <= q < |rows.requests| && Outstanding(rows.requests[q])
  }

  /** The step decides about outstanding requests only: a chain's execution belongs to no request or to one that is
      outstanding, and an exit ends a request that is still outstanding. */
  predicate Disciplined(s: State, e: Event) {
    match e
    case Chain(i, _, _) => i < |s.tasks| ==> ConcernsOutstanding(s.rows, s.tasks[i].execution)
    case ChainCrash(i, _, _) => i < |s.tasks| ==> ConcernsOutstanding(s.rows, s.tasks[i].execution)
    case ExitEnd(_, _, _) =>
      s.stage.Linked? && s.stage.request < |s.rows.requests| ==> Outstanding(s.rows.requests[s.stage.request])
    case _ => true
  }

  predicate ConcernsOutstanding(rows: Rows, execution: nat) {
    var q := FindByExecution(rows.requests, execution);
    q.Some? ==> Outstanding(rows.requests[q.value])
  }

  /** Requests that have ended stay as they are. */
  predicate KeepsEnded(before: Rows, after: Rows) {
    && |before.requests| <= |after.requests|
    && forall q :: 0 <= q < |before.requests| && !Outstanding(before.requests[q]) ==>
         after.requests[q] == before.requests[q]
  }

  lemma DecisionIsCoupled(before: Rows, after: Rows, q: nat)
    requires AtMostOneOutstanding(before) && Coupled(before)
    requires q < |before.requests| && Outstanding(before.requests[q]) && Decides(before, after, q)
    ensures Coupled(after) && KeepsEnded(before, after)
  {
    if after.lifecycle.Closing? {
      assert Outstanding(after.requests[q]);
    } else {
      assert forall k :: 0 <= k < |after.requests| && k != q ==> after.requests[k] == before.requests[k];
    }
  }

  lemma AttemptIsCoupled(s: State, execution: nat, a: Answers)
    requires AtMostOneOutstanding(s.rows) && Coupled(s.rows) && ConcernsOutstanding(s.rows, execution)
    ensures var t := ReconcileExecution(s, execution, a).0;
            Coupled(t.rows) && KeepsEnded(s.rows, t.rows)
  {
    AttemptShape(s, execution, a);
    hide ReconcileExecution, FindByExecution, Coupled, Decides;
    match FindByExecution(s.rows.requests, execution)
    case None => assert KeepsEnded(s.rows, s.rows);
    case Some(q) => DecisionIsCoupled(s.rows, ReconcileExecution(s, execution, a).0.rows, q);
  }

  lemma ExhaustedIsCoupled(s: State, execution: nat)
    requires AtMostOneOutstanding(s.rows) && Coupled(s.rows)
    ensures Coupled(Exhausted(s, execution).rows) && KeepsEnded(s.rows, Exhausted(s, execution).rows)
  {
    hide FindByExecution, Coupled;
    match FindByExecution(s.rows.requests, execution)
    case None => assert KeepsEnded(s.rows, s.rows);
    case Some(q) =>
      if Outstanding(s.rows.requests[q]) {
        DecisionIsCoupled(s.rows, Exhausted(s, execution).rows, q);
      }
  }

  lemma AttemptKeepsOne(s: State, execution: nat, a: Answers)
    requires RowsFit(s.rows)
    ensures RowsFit(ReconcileExecution(s, execution, a).0.rows)
  {
    AttemptShape(s, execution, a);
    hide ReconcileExecution, Decides, RowsFit;
    match FindByExecution(s.rows.requests, execution)
    case None =>
    case Some(q) =>
      assert Newest(s.rows, q);
      DecidedFits(s.rows, ReconcileExecution(s, execution, a).0.rows, q);
  }

  lemma HandledIsCoupled(s: State, i: nat, a: Answers, queueing: Queueing)
    requires RowsFit(s.rows) && Coupled(s.rows)
    requires i < |s.tasks| && ConcernsOutstanding(s.rows, s.tasks[i].execution)
    ensures var t := Handled(s, i, a, queueing);
            Coupled(t.rows) && KeepsEnded(s.rows, t.rows)
  {
    hide ReconcileExecution, FindByExecution, Enqueue, DelayAt, Coupled, Exhausted, ConcernsOutstanding;
    var s1 := s.(tasks := Without(s.tasks, i));
    AttemptIsCoupled(s1, s.tasks[i].execution, a);
    AttemptKeepsOne(s1, s.tasks[i].execution, a);
    var t := ReconcileExecution(s1, s.tasks[i].execution, a).0;
    ExhaustedIsCoupled(t, s.tasks[i].execution);
    KeepsEndedChains(s.rows, t.rows, Exhausted(t, s.tasks[i].execution).rows);
  }

  lemma KeepsEndedChains(a: Rows, b: Rows, c: Rows)
    requires KeepsEnded(a, b) && KeepsEnded(b, c)
    ensures KeepsEnded(a, c)
  {
  }

  lemma BegunIsCoupled(rows: Rows)
    requires Coupled(rows)
    ensures Coupled(Begun(rows).0) && KeepsEnded(rows, Begun(rows).0)
  {
    var after := Begun(rows).0;
    assert Outstanding(after.requests[Begun(rows).1]);
  }

  lemma AttachedIsCoupled(rows: Rows, q: nat, execution: nat, status: RequestStatus)
    requires Coupled(rows) && q < |rows.requests| && (status == Submitted || status == Verifying)
    ensures var after := Attached(rows, q, execution, status); Coupled(after) && KeepsEnded(rows, after)
  {
    var after := Attached(rows, q, execution, status);
    assert forall k :: 0 <= k < |rows.requests| ==> Outstanding(after.requests[k]) == Outstanding(rows.requests[k]);
  }

  lemma {:induction false} RecoveredIsCoupled(s: State, n: nat, queueing: Queueing)
    requires RowsFit(s.rows) && Coupled(s.rows) && n <= |s.rows.requests|
    ensures var t := RecoveredUpTo(s, n, queueing); Coupled(t.rows) && KeepsEnded(s.rows, t.rows)
    decreases n
  {
    hide Enqueue, Coupled, HasChain;
    if n > 0 {
      RecoveredIsCoupled(s, n - 1, queueing);
      RecoveredShape(s, n - 1, queueing);
      var t := RecoveredUpTo(s, n - 1, queueing);
      if Outstanding(s.rows.requests[n - 1]) && s.rows.requests[n - 1].execution.None? {
        DecisionIsCoupled(t.rows, Finished(t.rows, n - 1, false), n - 1);
        KeepsEndedChains(s.rows, t.rows, Finished(t.rows, n - 1, false));
      }
    } else {
      assert KeepsEnded(s.rows, s.rows);
    }
  }

  lemma StepIsCoupled(s: State, e: Event)
    requires Arranged(s) && Coupled(s.rows) && Disciplined(s, e)
    ensures Coupled(Step(s, e).rows) && KeepsEnded(s.rows, Step(s, e).rows)
  {
    hide Handled, Ran, ExitPlaced, ExitEnded, Loop.Step, HasChain, ReconcileExecution, Coupled, Begun, Attached,
      FindByExecution, RecoveredUpTo, ConcernsOutstanding, Enqueue, Decides;
    assert KeepsEnded(s.rows, s.rows);
    match e
    case Outside(_, _) =>
    case Automatic(run, loaded, queueing) => RunKeepsRows(s, run, loaded, queueing);
    case ExitBegin(context, queueing) => BegunIsCoupled(s.rows);
    case ExitPlace(a) =>
      if !s.down && s.stage.Opened? {
        ExitPlacedShape(s, a);
        DecisionIsCoupled(s.rows, Step(s, e).rows, s.stage.request);
      }
    case ExitLink =>
      if !s.down && s.stage.Placed? {
        AttachedIsCoupled(s.rows, s.stage.request, s.stage.order.id,
                          if s.stage.order.row.status.Submitted? then Submitted else Verifying);
      }
    case ExitEnd(refresh, fetch, queueing) =>
      if !s.down && s.stage.Linked? {
        ExitEndedShape(s, s.stage.request, s.stage.context, s.stage.order, refresh, fetch, queueing);
        DecisionIsCoupled(s.rows, Step(s, e).rows, s.stage.request);
      }
    case Chain(i, a, queueing) =>
      if !s.down && i < |s.tasks| {
        HandledIsCoupled(s, i, a, queueing);
      }
    case Crash =>
    case ChainCrash(i, a, stored) =>
      if !s.down && i < |s.tasks| {
        AttemptIsCoupled(s.(tasks := Without(s.tasks, i)), s.tasks[i].execution, a);
      }
    case Recover(queueing) =>
      if s.down {
        RecoveredIsCoupled(s, |s.rows.requests|, queueing);
      }
  }

  predicate AllDisciplined(s: State, events: seq<Event>)
    decreases |events|
  {
    events == [] || (Disciplined(s, events[0]) && AllDisciplined(Step(s, events[0]), events[1..]))
  }

  /** In disciplined runs a request is outstanding exactly while the lifecycle is closing, and a request that completed or
      failed never changes again. */
  lemma {:induction false} DisciplinedRuns(s: State, events: seq<Event>)
    requires Arranged(s) && Coupled(s.rows) && AllDisciplined(s, events)
    ensures Coupled(Trace(s, events).rows) && KeepsEnded(s.rows, Trace(s, events).rows)
    decreases |events|
  {
    if events == [] {
      assert KeepsEnded(s.rows, s.rows);
    } else {
      hide Arranged, Coupled, Step, Disciplined, KeepsEnded;
      StepIsArranged(s, events[0]);
      StepIsCoupled(s, events[0]);
      DisciplinedRuns(Step(s, events[0]), events[1..]);
      KeepsEndedChains(s.rows, Step(s, events[0]).rows, Trace(s, events).rows);
    }
  }

  // ---- Exactly when the code does -------------------------------------------------------------------------------

  /** The status an attempt judges by, if the order could be read. */
  function JudgedStatus(loop: Loop.State, execution: nat, a: Answers): Option<Store.Status> {
    if execution >= |loop.tables.executions| then None
    else if !loop.tables.executions[execution].status.Submitted? then Some(loop.tables.executions[execution].status)
    else
      var read := Loop.Reconciled(loop, execution, a.config, a.works, a.refresh);
      if read.None? then None else Some(read.value.tables.executions[execution].status)
  }

  /** The verification of a filled close would complete it. */
  predicate Completes(config: Config, fetch: Fetch) {
    config.dryRun || ShowsFlat(config.targetSymbol, fetch)
  }

  predicate AnyOutstanding(rows: Rows) {
    NewestOutstanding(rows.requests).Some?
  }

  /** Verifying request `q` keeps the coupling: it is outstanding, or it is ended again while none is, or it is put back
      to verifying in vain, because another one is. */
  predicate HarmlessVerification(rows: Rows, q: nat, config: Config, fetch: Fetch)
    requires q < |rows.requests|
  {
    Outstanding(rows.requests[q]) || (Completes(config, fetch) <==> !AnyOutstanding(rows))
  }

  /** The same for the judgement of an order's status. */
  predicate HarmlessJudgement(rows: Rows, q: nat, status: Store.Status, a: Answers)
    requires q < |rows.requests|
  {
    if status.Filled? || status.DryRun? then HarmlessVerification(rows, q, a.config, a.fetch)
    else if status.Failed? || status.Canceled? then Outstanding(rows.requests[q]) || !AnyOutstanding(rows)
    else true
  }

  /** The same for one attempt: nothing is judged when the order cannot be read or belongs to no request. */
  predicate HarmlessAttempt(loop: Loop.State, rows: Rows, execution: nat, a: Answers) {
    var q, status := FindByExecution(rows.requests, execution), JudgedStatus(loop, execution, a);
    q.Some? && status.Some? ==> HarmlessJudgement(rows, q.value, status.value, a)
  }

  /** The attempt puts an ended request back to verifying. */
  predicate Reopens(loop: Loop.State, rows: Rows, execution: nat, a: Answers) {
    var q, status := FindByExecution(rows.requests, execution), JudgedStatus(loop, execution, a);
    && q.Some? && status.Some? && !Outstanding(rows.requests[q.value]) && (status.value.Filled? || status.value.DryRun?)
    && !Completes(a.config, a.fetch) && !AnyOutstanding(rows)
  }

  /** A judgement of an order's status leaves ended request `q` as it is. */
  predicate Undisturbed(rows: Rows, q: nat, status: Store.Status, a: Answers)
    requires q < |rows.requests|
  {
    if status.Filled? || status.DryRun? then
      if Completes(a.config, a.fetch) then rows.requests[q].status.Completed? else AnyOutstanding(rows)
    else if status.Failed? || status.Canceled? then rows.requests[q].status.Failed?
    else true
  }

  /** An attempt leaves every ended request as it is. */
  predicate SparingAttempt(loop: Loop.State, rows: Rows, execution: nat, a: Answers) {
    var q, status := FindByExecution(rows.requests, execution), JudgedStatus(loop, execution, a);
    q.Some? && status.Some? && !Outstanding(rows.requests[q.value]) ==> Undisturbed(rows, q.value, status.value, a)
  }

  /** Ending request `q` keeps the coupling exactly when it is outstanding or no request is. */
  lemma EndingCoupledExactly(rows: Rows, q: nat, completed: bool)
    requires AtMostOneOutstanding(rows) && Coupled(rows) && q < |rows.requests|
    ensures Coupled(Finished(rows, q, completed)) <==> Outstanding(rows.requests[q]) || !AnyOutstanding(rows)
  {
    var after := Finished(rows, q, completed);
    assert forall k :: 0 <= k < |rows.requests| && k != q ==> after.requests[k] == rows.requests[k];
    var newest := NewestOutstanding(rows.requests);
    if newest.Some? && newest.value != q {
      assert Outstanding(after.requests[newest.value]);
    }
  }

  /** Putting ended request `q` back to verifying is refused exactly when another one is outstanding, and breaks the
      coupling when it is not. */
  lemma ReopeningCoupledExactly(rows: Rows, q: nat)
    requires q < |rows.requests| && !Outstanding(rows.requests[q])
    ensures WithStatus(rows, q, Verifying).None? <==> AnyOutstanding(rows)
    ensures var after := WithStatus(rows, q, Verifying);
            after.Some? ==>
              && after.value == rows.(requests := rows.requests[q := rows.requests[q].(status := Verifying)])
              && (Coupled(rows) ==> !Coupled(after.value))
  {
    var requests := rows.requests[q := rows.requests[q].(status := Verifying)];
    assert forall k :: 0 <= k < |requests| && k != q ==> requests[k] == rows.requests[k];
    var newest := NewestOutstanding(rows.requests);
    if newest.Some? {
      assert requests[newest.value] == rows.requests[newest.value];
    } else {
      assert Outstanding(requests[q]);
    }
  }

  /** What verifying a close does to the rows. */
  lemma FinalizedExactly(s: State, q: nat, config: Config, fetch: Fetch)
    requires q < |s.rows.requests|
    ensures Finalized(s, q, config, fetch).0.rows ==
            if Completes(config, fetch) then Finished(s.rows, q, true)
            else (var v := WithStatus(s.rows, q, Verifying); if v.Some? then v.value else s.rows)
  {
    hide ShowsFlat, WithStatus, Finished;
  }

  /** Verifying keeps the coupling, and spares the ended requests, exactly under these conditions. */
  lemma VerificationExactly(s: State, q: nat, config: Config, fetch: Fetch)
    requires AtMostOneOutstanding(s.rows) && q < |s.rows.requests|
    ensures var rows := Finalized(s, q, config, fetch).0.rows;
            && (Coupled(s.rows) ==> (Coupled(rows) <==> HarmlessVerification(s.rows, q, config, fetch)))
            && (KeepsEnded(s.rows, rows) <==>
                  Outstanding(s.rows.requests[q])
                  || (if Completes(config, fetch) then s.rows.requests[q].status.Completed? else AnyOutstanding(s.rows)))
  {
    FinalizedExactly(s, q, config, fetch);
    hide Finalized, Completes, Coupled, NewestOutstanding;
    if Coupled(s.rows) {
      EndingCoupledExactly(s.rows, q, true);
    }
    if Outstanding(s.rows.requests[q]) {
      if Coupled(s.rows) {
        FinalizedShape(s, q, config, fetch);
        DecisionIsCoupled(s.rows, Finalized(s, q, config, fetch).0.rows, q);
      }
    } else {
      ReopeningCoupledExactly(s.rows, q);
      hide WithStatus;
    }
  }

  lemma JudgedExactly(s: State, execution: nat, a: Answers, q: nat)
    requires AtMostOneOutstanding(s.rows) && execution < |s.loop.tables.executions|
    requires FindByExecution(s.rows.requests, execution) == Some(q)
    ensures var rows, status := Judged(s, execution, a).0.rows, s.loop.tables.executions[execution].status;
            && (Coupled(s.rows) ==> (Coupled(rows) <==> HarmlessJudgement(s.rows, q, status, a)))
            && (KeepsEnded(s.rows, rows) <==> Outstanding(s.rows.requests[q]) || Undisturbed(s.rows, q, status, a))
  {
    VerificationExactly(s, q, a.config, a.fetch);
    if Coupled(s.rows) {
      EndingCoupledExactly(s.rows, q, false);
    }
    assert KeepsEnded(s.rows, s.rows);
    hide Finalized, FindByExecution, Completes, Coupled, NewestOutstanding;
    match s.loop.tables.executions[execution].status
    case Filled =>
    case DryRun =>
    case _ =>
  }

  /** The exact condition for one attempt: the coupling survives if and only if the order cannot be read or says nothing
      final, or its request is outstanding, or ending it meets no outstanding request, or reopening it meets one. The
      ended requests survive if and only if the verdict is the one the request already has, or cannot be written. */
  lemma AttemptExactly(s: State, execution: nat, a: Answers)
    requires AtMostOneOutstanding(s.rows)
    ensures var rows := ReconcileExecution(s, execution, a).0.rows;
            && (Coupled(s.rows) ==> (Coupled(rows) <==> HarmlessAttempt(s.loop, s.rows, execution, a)))
            && (KeepsEnded(s.rows, rows) <==> SparingAttempt(s.loop, s.rows, execution, a))
  {
    assert KeepsEnded(s.rows, s.rows);
    hide Loop.Reconciled, FindByExecution, Coupled, Judged, HarmlessJudgement, Undisturbed, KeepsEnded, Outstanding;
    match JudgedStatus(s.loop, execution, a)
    case None =>
    case Some(status) =>
      var loop := if s.loop.tables.executions[execution].status.Submitted?
                  then Loop.Reconciled(s.loop, execution, a.config, a.works, a.refresh)
                  else Some(s.loop);
      var s1 := s.(loop := loop.value);
      match FindByExecution(s.rows.requests, execution)
      case None => AttemptShape(s, execution, a);
      case Some(q) => JudgedExactly(s1, execution, a, q);
  }

  // ---- Whole runs -----------------------------------------------------------------------------------------------

  predicate LastAttempt(t: Task) {
    DelayAt(Checkpoints(t.close), t.attempt + 1).None?
  }

  /** What must hold before a step for it to keep the coupling. */
  predicate HarmlessStep(s: State, e: Event) {
    match e
    case Chain(i, a, _) =>
      !s.down && i < |s.tasks| ==>
        || HarmlessAttempt(s.loop, s.rows, s.tasks[i].execution, a)
        || (LastAttempt(s.tasks[i]) && Reopens(s.loop, s.rows, s.tasks[i].execution, a))
    case ChainCrash(i, a, stored) =>
      !s.down && i < |s.tasks| && stored ==> HarmlessAttempt(s.loop, s.rows, s.tasks[i].execution, a)
    case ExitEnd(_, fetch, _) =>
      !s.down && s.stage.Linked? && s.stage.request < |s.rows.requests|
      && (s.stage.order.row.status.Filled? || s.stage.order.row.status.DryRun?) ==>
        HarmlessVerification(s.rows, s.stage.request, s.stage.context.config, fetch)
    case _ => true
  }

  /** After an attempt that is not the last word of its chain, the coupling is lost only by reopening. */
  lemma UnsettledMeansReopened(s: State, execution: nat, a: Answers)
    requires AtMostOneOutstanding(s.rows) && Coupled(s.rows)
    requires var (t, attempt) := ReconcileExecution(s, execution, a); !attempt.Ended? && !Coupled(t.rows)
    ensures Reopens(s.loop, s.rows, execution, a)
    ensures var q := FindByExecution(s.rows.requests, execution);
            q.Some? && ReconcileExecution(s, execution, a).0.rows ==
                       s.rows.(requests := s.rows.requests[q.value := s.rows.requests[q.value].(status := Verifying)])
  {
    AttemptExactly(s, execution, a);
    AttemptShape(s, execution, a);
    var loop := if s.loop.tables.executions[execution].status.Submitted?
                then Loop.Reconciled(s.loop, execution, a.config, a.works, a.refresh)
                else Some(s.loop);
    var s1 := s.(loop := loop.value);
    var q := FindByExecution(s.rows.requests, execution).value;
    FinalizedShape(s1, q, a.config, a.fetch);
    ReopeningCoupledExactly(s.rows, q);
    hide Loop.Reconciled, FindByExecution, Coupled, Finalized, NewestOutstanding, WithStatus, ShowsFlat;
  }

  lemma SettledDoesNotReopen(s: State, execution: nat, a: Answers)
    requires ReconcileExecution(s, execution, a).1.Ended?
    ensures !Reopens(s.loop, s.rows, execution, a)
  {
    if execution < |s.loop.tables.executions| && FindByExecution(s.rows.requests, execution).Some? {
      var loop := if s.loop.tables.executions[execution].status.Submitted?
                  then Loop.Reconciled(s.loop, execution, a.config, a.works, a.refresh)
                  else Some(s.loop);
      if loop.Some? {
        FinalizedShape(s.(loop := loop.value), FindByExecution(s.rows.requests, execution).value, a.config, a.fetch);
      }
    }
    hide Loop.Reconciled, FindByExecution, Finalized, NewestOutstanding, WithStatus, ShowsFlat, Outstanding;
  }

  /** The end of a chain fails a request the chain's last attempt has reopened. */
  lemma ExhaustionRecloses(before: Rows, t: State, execution: nat, q: nat)
    requires q < |before.requests| && !AnyOutstanding(before)
    requires t.rows == before.(requests := before.requests[q := before.requests[q].(status := Verifying)])
    requires FindByExecution(t.rows.requests, execution) == Some(q)
    ensures var after := Exhausted(t, execution).rows;
            && Coupled(after) && after == Finished(before, q, false)
            && (KeepsEnded(before, after) <==> before.requests[q].status.Failed?)
  {
    var after := Exhausted(t, execution).rows;
    assert after.requests == before.requests[q := before.requests[q].(status := Failed)];
    hide FindByExecution;
    assert forall k :: 0 <= k < |before.requests| && k != q ==> after.requests[k] == before.requests[k];
    assert !Outstanding(before.requests[q]);
  }

  lemma FitsIsOne(rows: Rows)
    requires RowsFit(rows)
    ensures AtMostOneOutstanding(rows)
  {
  }

  /** A whole chain step: its attempt decides, except that the last attempt of a chain closes again what it reopened. */
  lemma HandledExactly(s: State, i: nat, a: Answers, queueing: Queueing)
    requires RowsFit(s.rows) && Coupled(s.rows) && i < |s.tasks|
    ensures Coupled(Handled(s, i, a, queueing).rows) <==>
            || HarmlessAttempt(s.loop, s.rows, s.tasks[i].execution, a)
            || (LastAttempt(s.tasks[i]) && Reopens(s.loop, s.rows, s.tasks[i].execution, a))
  {
    var s1, execution := s.(tasks := Without(s.tasks, i)), s.tasks[i].execution;
    hide ReconcileExecution, FindByExecution, Coupled, HarmlessAttempt, Reopens, Enqueue, RowsFit, Checkpoints, DelayAt;
    FitsIsOne(s.rows);
    AttemptExactly(s1, execution, a);
    AttemptKeepsOne(s1, execution, a);
    SizeAfter(s1, execution, a);
    var (t, attempt) := ReconcileExecution(s1, execution, a);
    if Coupled(t.rows) {
      FitsIsOne(t.rows);
      ExhaustedIsCoupled(t, execution);
    } else if attempt.Ended? {
      SettledDoesNotReopen(s1, execution, a);
    } else {
      UnsettledMeansReopened(s1, execution, a);
      ReopensMeansNone(s.loop, s.rows, execution, a);
      ExhaustionRecloses(s.rows, t, execution, FindByExecution(s.rows.requests, execution).value);
    }
  }

  lemma ReopensMeansNone(loop: Loop.State, rows: Rows, execution: nat, a: Answers)
    requires Reopens(loop, rows, execution, a)
    ensures !AnyOutstanding(rows)
  {
  }

  lemma StepCoupledExactly(s: State, e: Event)
    requires Arranged(s) && Coupled(s.rows)
    ensures Coupled(Step(s, e).rows) <==> HarmlessStep(s, e)
  {
    hide Handled, ReconcileExecution, Finalized, RefreshedAfter, Enqueue, Coupled, HarmlessAttempt, Reopens,
      HarmlessVerification, LastAttempt, RowsFit, FindByExecution;
    FitsIsOne(s.rows);
    match e
    case Chain(i, a, queueing) =>
      if !s.down && i < |s.tasks| {
        HandledExactly(s, i, a, queueing);
      }
    case ChainCrash(i, a, stored) =>
      if !s.down && i < |s.tasks| {
        AttemptExactly(s.(tasks := Without(s.tasks, i)), s.tasks[i].execution, a);
      }
    case ExitEnd(refresh, fetch, queueing) =>
      if !s.down && s.stage.Linked? {
        var d, order, c := s.stage.order.decision, s.stage.order, s.stage.context.config;
        var snapshot := if d.side.None? then s.loop.snapshot
                        else RefreshedAfter(c, s.loop.snapshot, order.position, d.side.value, d.quantity, order.row,
                                            refresh, s.loop.now);
        VerificationExactly(s.(loop := s.loop.(snapshot := snapshot), stage := Idle), s.stage.request, c, fetch);
      }
    case _ => StepIsCoupled(s, e);
  }

  predicate CoupledThroughout(s: State, events: seq<Event>)
    decreases |events|
  {
    Coupled(s.rows) && (events == [] || CoupledThroughout(Step(s, events[0]), events[1..]))
  }

  predicate AllHarmless(s: State, events: seq<Event>)
    decreases |events|
  {
    events == [] || (HarmlessStep(s, events[0]) && AllHarmless(Step(s, events[0]), events[1..]))
  }

  /** Over whole runs: a request is outstanding exactly while the configuration is closing, in every state the run passes
      through, if and only if every step meets its condition. */
  lemma {:induction false} CoupledExactly(s: State, events: seq<Event>)
    requires Arranged(s) && Coupled(s.rows)
    ensures CoupledThroughout(s, events) <==> AllHarmless(s, events)
    decreases |events|
  {
    if events != [] {
      hide Arranged, Coupled, Step, HarmlessStep;
      StepIsArranged(s, events[0]);
      StepCoupledExactly(s, events[0]);
      if Coupled(Step(s, events[0]).rows) {
        CoupledExactly(Step(s, events[0]), events[1..]);
      } else {
        NotCoupledNow(Step(s, events[0]), events[1..]);
      }
    }
  }

  /** From the start of the service. */
  lemma ClosingMeansOutstanding(s: State, events: seq<Event>)
    requires Initial(s)
    ensures CoupledThroughout(s, events) <==> AllHarmless(s, events)
    ensures AllDisciplined(s, events) ==> Coupled(Trace(s, events).rows)
  {
    CoupledExactly(s, events);
    if AllDisciplined(s, events) {
      DisciplinedRuns(s, events);
    }
  }

  lemma NotCoupledNow(s: State, events: seq<Event>)
    requires !Coupled(s.rows)
    ensures !CoupledThroughout(s, events)
  {
  }

  // ---- Exactly when ended requests stay ended -------------------------------------------------------------------

  /** What must hold before a step for every request that has ended to stay as it is. */
  predicate SparingStep(s: State, e: Event) {
    match e
    case Chain(i, a, _) =>
      !s.down && i < |s.tasks| ==>
        || SparingAttempt(s.loop, s.rows, s.tasks[i].execution, a)
        || (LastAttempt(s.tasks[i]) && FailsAgain(s.loop, s.rows, s.tasks[i].execution, a))
    case ChainCrash(i, a, stored) =>
      !s.down && i < |s.tasks| && stored ==> SparingAttempt(s.loop, s.rows, s.tasks[i].execution, a)
    case ExitEnd(_, fetch, _) =>
      !s.down && s.stage.Linked? && s.stage.request < |s.rows.requests|
      && (s.stage.order.row.status.Filled? || s.stage.order.row.status.DryRun?)
      && !Outstanding(s.rows.requests[s.stage.request]) ==>
        if Completes(s.stage.context.config, fetch) then s.rows.requests[s.stage.request].status.Completed?
        else AnyOutstanding(s.rows)
    case _ => true
  }

  /** The attempt reopens a failed request. */
  predicate FailsAgain(loop: Loop.State, rows: Rows, execution: nat, a: Answers) {
    && Reopens(loop, rows, execution, a)
    && rows.requests[FindByExecution(rows.requests, execution).value].status.Failed?
  }

  lemma DisturbedMeansReopened(s: State, execution: nat, a: Answers)
    requires AtMostOneOutstanding(s.rows)
    requires var (t, attempt) := ReconcileExecution(s, execution, a); !attempt.Ended? && !KeepsEnded(s.rows, t.rows)
    ensures Reopens(s.loop, s.rows, execution, a)
    ensures var q := FindByExecution(s.rows.requests, execution);
            q.Some? && ReconcileExecution(s, execution, a).0.rows ==
                       s.rows.(requests := s.rows.requests[q.value := s.rows.requests[q.value].(status := Verifying)])
  {
    AttemptExactly(s, execution, a);
    AttemptShape(s, execution, a);
    assert KeepsEnded(s.rows, s.rows);
    var loop := if s.loop.tables.executions[execution].status.Submitted?
                then Loop.Reconciled(s.loop, execution, a.config, a.works, a.refresh)
                else Some(s.loop);
    var s1 := s.(loop := loop.value);
    var q := FindByExecution(s.rows.requests, execution).value;
    FinalizedShape(s1, q, a.config, a.fetch);
    ReopeningCoupledExactly(s.rows, q);
    hide Loop.Reconciled, FindByExecution, KeepsEnded, Finalized, NewestOutstanding, WithStatus, ShowsFlat;
  }

  lemma ExhaustedSpares(before: Rows, t: State, execution: nat)
    requires KeepsEnded(before, t.rows) && |t.rows.requests| == |before.requests|
    ensures KeepsEnded(before, Exhausted(t, execution).rows)
  {
    hide FindByExecution;
  }

  lemma HandledSparesExactly(s: State, i: nat, a: Answers, queueing: Queueing)
    requires RowsFit(s.rows) && i < |s.tasks|
    ensures KeepsEnded(s.rows, Handled(s, i, a, queueing).rows) <==>
            || SparingAttempt(s.loop, s.rows, s.tasks[i].execution, a)
            || (LastAttempt(s.tasks[i]) && FailsAgain(s.loop, s.rows, s.tasks[i].execution, a))
  {
    var s1, execution := s.(tasks := Without(s.tasks, i)), s.tasks[i].execution;
    hide ReconcileExecution, FindByExecution, KeepsEnded, SparingAttempt, Reopens, Enqueue, RowsFit, Checkpoints, DelayAt;
    FitsIsOne(s.rows);
    AttemptExactly(s1, execution, a);
    SizeAfter(s1, execution, a);
    var (t, attempt) := ReconcileExecution(s1, execution, a);
    if KeepsEnded(s.rows, t.rows) {
      ExhaustedSpares(s.rows, t, execution);
    } else if attempt.Ended? {
      SettledDoesNotReopen(s1, execution, a);
    } else {
      DisturbedMeansReopened(s1, execution, a);
      ReopensMeansNone(s.loop, s.rows, execution, a);
      ExhaustionRecloses(s.rows, t, execution, FindByExecution(s.rows.requests, execution).value);
    }
  }

  /** The steps that are no verdict on a request never touch one that has ended. */
  lemma OthersSpare(s: State, e: Event)
    requires Arranged(s) && !e.Chain? && !e.ChainCrash? && !e.ExitEnd?
    ensures KeepsEnded(s.rows, Step(s, e).rows)
  {
    hide ExitPlaced, Loop.Step, Begun, Attached, RecoveredUpTo, Decides, RowsFit;
    match e
    case Automatic(run, loaded, queueing) => RunKeepsRows(s, run, loaded, queueing);
    case ExitBegin(context, queueing) => BegunSpares(s.rows);
    case ExitPlace(a) =>
      if !s.down && s.stage.Opened? {
        ExitPlacedShape(s, a);
        DecisionSpares(s.rows, Step(s, e).rows, s.stage.request);
      }
    case ExitLink =>
      if !s.down && s.stage.Placed? {
        AttachedSpares(s.rows, s.stage.request, s.stage.order.id,
                       if s.stage.order.row.status.Submitted? then Submitted else Verifying);
      }
    case Recover(queueing) => RecoveredSpares(s, |s.rows.requests|, queueing);
    case _ =>
  }

  lemma BegunSpares(rows: Rows)
    ensures KeepsEnded(rows, Begun(rows).0)
  {
  }

  lemma AttachedSpares(rows: Rows, q: nat, execution: nat, status: RequestStatus)
    requires q < |rows.requests|
    ensures KeepsEnded(rows, Attached(rows, q, execution, status))
  {
  }

  lemma DecisionSpares(before: Rows, after: Rows, q: nat)
    requires q < |before.requests| && Outstanding(before.requests[q]) && Decides(before, after, q)
    ensures KeepsEnded(before, after)
  {
  }

  lemma {:induction false} RecoveredSpares(s: State, n: nat, queueing: Queueing)
    requires RowsFit(s.rows) && n <= |s.rows.requests|
    ensures KeepsEnded(s.rows, RecoveredUpTo(s, n, queueing).rows)
    decreases n
  {
    hide Enqueue, RowsFit;
    if n > 0 {
      RecoveredSpares(s, n - 1, queueing);
    }
  }

  lemma StepSparesExactly(s: State, e: Event)
    requires Arranged(s)
    ensures KeepsEnded(s.rows, Step(s, e).rows) <==> SparingStep(s, e)
  {
    hide Handled, ReconcileExecution, Finalized, RefreshedAfter, Enqueue, KeepsEnded, SparingAttempt, FailsAgain,
      Completes, NewestOutstanding, LastAttempt, RowsFit, FindByExecution, Coupled;
    FitsIsOne(s.rows);
    assert KeepsEnded(s.rows, s.rows) by { SparesItself(s.rows); }
    match e
    case Chain(i, a, queueing) =>
      if !s.down && i < |s.tasks| {
        HandledSparesExactly(s, i, a, queueing);
      }
    case ChainCrash(i, a, stored) =>
      if !s.down && i < |s.tasks| {
        AttemptExactly(s.(tasks := Without(s.tasks, i)), s.tasks[i].execution, a);
      }
    case ExitEnd(refresh, fetch, queueing) =>
      if !s.down && s.stage.Linked? {
        var d, order, c := s.stage.order.decision, s.stage.order, s.stage.context.config;
        var snapshot := if d.side.None? then s.loop.snapshot
                        else RefreshedAfter(c, s.loop.snapshot, order.position, d.side.value, d.quantity, order.row,
                                            refresh, s.loop.now);
        VerificationExactly(s.(loop := s.loop.(snapshot := snapshot), stage := Idle), s.stage.request, c, fetch);
      }
    case _ => OthersSpare(s, e);
  }

  lemma SparesItself(rows: Rows)
    ensures KeepsEnded(rows, rows)
  {
  }

  predicate EndedThroughout(s: State, events: seq<Event>)
    decreases |events|
  {
    events == []
    || (KeepsEnded(s.rows, Step(s, events[0]).rows) && EndedThroughout(Step(s, events[0]), events[1..]))
  }

  predicate AllSparing(s: State, events: seq<Event>)
    decreases |events|
  {
    events == [] || (SparingStep(s, events[0]) && AllSparing(Step(s, events[0]), events[1..]))
  }

  /** Over whole runs: completed and failed are absorbing if and only if every step meets its condition. */
  lemma {:induction false} EndedExactly(s: State, events: seq<Event>)
    requires Arranged(s)
    ensures EndedThroughout(s, events) <==> AllSparing(s, events)
    decreases |events|
  {
    if events != [] {
      hide Arranged, KeepsEnded, Step, SparingStep;
      StepIsArranged(s, events[0]);
      StepSparesExactly(s, events[0]);
      EndedExactly(Step(s, events[0]), events[1..]);
    }
  }
}
