/** How a close ends: only on a fetch that shows nothing left, and after boundedly many attempts of each chain, whatever
    happens in between. */
module CloseOutcome {
  import opened Money
  import opened Calculator
  import opened ExitPosition
  import opened CloseStore
  import opened Chains
  import opened CloseLifecycle
  import opened CloseInvariants
  import Loop = HedgeLoop

  // ---- Completion is safe ---------------------------------------------------------------------------------------

  /** The step works for a configuration that is not in dry-run. */
  predicate LiveStep(s: State, e: Event) {
    match e
    case ExitPlace(_) => !s.stage.Idle? ==> !s.stage.context.config.dryRun
    case ExitEnd(_, _, _) => !s.stage.Idle? ==> !s.stage.context.config.dryRun
    case Chain(_, a, _) => !a.config.dryRun
    case ChainCrash(_, a, _) => !a.config.dryRun
    case _ => true
  }

  /** The deciding fetch of the step succeeded and showed every position on the target symbol at quantity zero. */
  predicate SawFlat(s: State, e: Event) {
    match e
    case ExitPlace(a) => !s.stage.Idle? && ShowsFlat(s.stage.context.config.targetSymbol, a.fetch)
    case ExitEnd(_, fetch, _) => !s.stage.Idle? && ShowsFlat(s.stage.context.config.targetSymbol, fetch)
    case Chain(_, a, _) => ShowsFlat(a.config.targetSymbol, a.fetch)
    case ChainCrash(_, a, _) => ShowsFlat(a.config.targetSymbol, a.fetch)
    case _ => false
  }

  predicate NewlyCompleted(before: Rows, after: Rows, q: nat) {
    && q < |after.requests| && after.requests[q].status.Completed?
    && !(q < |before.requests| && before.requests[q].status.Completed?)
  }

  lemma AttemptSawFlat(s: State, execution: nat, a: Answers, k: nat)
    requires !a.config.dryRun && NewlyCompleted(s.rows, ReconcileExecution(s, execution, a).0.rows, k)
    ensures ShowsFlat(a.config.targetSymbol, a.fetch)
  {
    hide Finalized, FindByExecution, ShowsFlat, WithStatus, Loop.Reconciled;
    match FindByExecution(s.rows.requests, execution)
    case None => AttemptShape(s, execution, a);
    case Some(q) =>
      var loop := if s.loop.tables.executions[execution].status.Submitted?
                  then Loop.Reconciled(s.loop, execution, a.config, a.works, a.refresh)
                  else Some(s.loop);
      var s1 := s.(loop := loop.value);
      FinalizedShape(s1, q, a.config, a.fetch);
      FinishedIsNot(s.rows, q);
      VerifyingIsNot(s.rows, q);
  }

  lemma FinishedIsNot(rows: Rows, q: nat)
    requires q < |rows.requests|
    ensures forall k :: !NewlyCompleted(rows, Finished(rows, q, false), k)
    ensures forall k :: !NewlyCompleted(rows, rows, k)
  {
  }

  lemma VerifyingIsNot(rows: Rows, q: nat)
    requires q < |rows.requests|
    ensures forall k :: WithStatus(rows, q, Verifying).Some? ==>
              !NewlyCompleted(rows, WithStatus(rows, q, Verifying).value, k)
  {
  }

  lemma HandledSawFlat(s: State, i: nat, a: Answers, queueing: Queueing, k: nat)
    requires i < |s.tasks| && !a.config.dryRun && NewlyCompleted(s.rows, Handled(s, i, a, queueing).rows, k)
    ensures ShowsFlat(a.config.targetSymbol, a.fetch)
  {
    hide ReconcileExecution, FindByExecution, ShowsFlat, Enqueue, DelayAt, Outstanding;
    var s1 := s.(tasks := Without(s.tasks, i));
    var t := ReconcileExecution(s1, s.tasks[i].execution, a).0;
    if NewlyCompleted(s.rows, t.rows, k) {
      AttemptSawFlat(s1, s.tasks[i].execution, a, k);
    }
  }

  lemma ExitPlacedSawFlat(s: State, a: ExitAnswers, k: nat)
    requires s.stage.Opened? && s.stage.request < |s.rows.requests| && !s.stage.context.config.dryRun
    requires SymbolKnown(s.stage)
    requires NewlyCompleted(s.rows, ExitPlaced(s, s.stage.request, s.stage.context, a).rows, k)
    ensures ShowsFlat(s.stage.context.config.targetSymbol, a.fetch)
  {
    hide LoadExit, ClosePosition, CloseOrdered, ShowsFlat;
    var q, context := s.stage.request, s.stage.context;
    FinishedIsNot(s.rows, q);
    var loaded := LoadExit(context.config, a.fetch, a.ticker, s.loop.snapshot, s.loop.now);
    if loaded.Loaded? {
      LoadedCloses(context.config, a.fetch, a.ticker, s.loop.snapshot, s.loop.now);
    }
  }

  lemma ExitEndedSawFlat(
    s: State, q: nat, context: Context, order: CloseOrder, refresh: Fetch, fetch: Fetch, queueing: Queueing, k: nat)
    requires q < |s.rows.requests| && !context.config.dryRun
    requires NewlyCompleted(s.rows, ExitEnded(s, q, context, order, refresh, fetch, queueing).rows, k)
    ensures ShowsFlat(context.config.targetSymbol, fetch)
  {
    var d := order.decision;
    var snapshot := if d.side.None? then s.loop.snapshot
                    else RefreshedAfter(context.config, s.loop.snapshot, order.position, d.side.value, d.quantity,
                                        order.row, refresh, s.loop.now);
    var s1 := s.(loop := s.loop.(snapshot := snapshot), stage := Idle);
    hide RefreshedAfter, Enqueue, Finalized, WithStatus, ShowsFlat;
    FinalizedShape(s1, q, context.config, fetch);
    FinishedIsNot(s.rows, q);
    VerifyingIsNot(s.rows, q);
  }

  lemma {:induction false} RecoveryCompletesNothing(s: State, n: nat, queueing: Queueing)
    requires n <= |s.rows.requests|
    ensures var rows := RecoveredUpTo(s, n, queueing).rows;
            forall k :: 0 <= k < |s.rows.requests| && rows.requests[k].status.Completed? ==>
              s.rows.requests[k].status.Completed?
    decreases n
  {
    hide Enqueue;
    if n > 0 {
      RecoveryCompletesNothing(s, n - 1, queueing);
    }
  }

  /** Whatever state a run has reached: outside dry-run, a close request becomes completed only in a step whose deciding
      live fetch showed every position on the target symbol at quantity zero - on the immediate path of an exit, at its
      end, and in a reconciliation chain. */
  lemma CompletionSawFlat(s: State, e: Event, q: nat)
    requires SymbolKnown(s.stage) && LiveStep(s, e) && NewlyCompleted(s.rows, Step(s, e).rows, q)
    ensures SawFlat(s, e)
  {
    hide Handled, ExitPlaced, ExitEnded, Loop.Step, ReconcileExecution, ShowsFlat, Ran, RecoveredUpTo;
    match e
    case Outside(_, _) =>
    case Automatic(run, loaded, queueing) => RunKeepsRows(s, run, loaded, queueing);
    case ExitBegin(context, queueing) =>
    case ExitPlace(a) => ExitPlacedSawFlat(s, a, q);
    case ExitLink =>
    case ExitEnd(refresh, fetch, queueing) =>
      ExitEndedSawFlat(s, s.stage.request, s.stage.context, s.stage.order, refresh, fetch, queueing, q);
    case Chain(i, a, queueing) => HandledSawFlat(s, i, a, queueing, q);
    case Crash =>
    case ChainCrash(i, a, stored) => AttemptSawFlat(s.(tasks := Without(s.tasks, i)), s.tasks[i].execution, a, q);
    case Recover(queueing) => RecoveryCompletesNothing(s, |s.rows.requests|, queueing);
  }

  // ---- Chains end -----------------------------------------------------------------------------------------------

  predicate Bounded(tasks: seq<Task>) {
    forall i :: 0 <= i < |tasks| ==> tasks[i].attempt < |Checkpoints(tasks[i].close)|
  }

  /** The tasks after a handled one: it is gone, and at most the next attempt was queued. */
  lemma HandledTasks(s: State, i: nat, a: Answers, queueing: Queueing)
    requires i < |s.tasks|
    ensures var tasks := Handled(s, i, a, queueing).tasks;
            var next := s.tasks[i].(attempt := s.tasks[i].attempt + 1);
            || tasks == Without(s.tasks, i)
            || (DelayAt(Checkpoints(next.close), next.attempt).Some? && tasks == Enqueue(Without(s.tasks, i), next, queueing))
  {
    hide ReconcileExecution, FindByExecution, Without, Enqueue, DelayAt;
    AttemptShape(s.(tasks := Without(s.tasks, i)), s.tasks[i].execution, a);
  }

  /** Every handled attempt uses up one of the attempts left, and no attempt beyond the checkpoints is ever pending. */
  lemma HandledTakesAttempt(s: State, i: nat, a: Answers, queueing: Queueing)
    requires i < |s.tasks| && Bounded(s.tasks)
    ensures AttemptsLeft(Handled(s, i, a, queueing).tasks) < AttemptsLeft(s.tasks)
    ensures Bounded(Handled(s, i, a, queueing).tasks)
  {
    var rest, next := Without(s.tasks, i), s.tasks[i].(attempt := s.tasks[i].attempt + 1);
    HandledTasks(s, i, a, queueing);
    RemovalTakesAttempts(s.tasks, i);
    EnqueueAddsAttempts(rest, next, queueing);
    NextHasLess(s.tasks[i]);
    StillBounded(s.tasks, i, next, queueing);
    hide Handled, AttemptsLeft, Bounded, Left, DelayAt, Enqueue, Without;
  }

  lemma NextHasLess(t: Task)
    requires t.attempt < |Checkpoints(t.close)|
    ensures Left(t) >= 1
    ensures DelayAt(Checkpoints(t.close), t.attempt + 1).Some? ==> Left(t.(attempt := t.attempt + 1)) == Left(t) - 1
  {
  }

  lemma StillBounded(tasks: seq<Task>, i: nat, next: Task, queueing: Queueing)
    requires Bounded(tasks) && i < |tasks|
    ensures Bounded(Without(tasks, i)) && Bounded(Enqueue(Without(tasks, i), next, queueing))
  {
  }

  /** Each event is a chain step on a task that is pending. */
  predicate OnlyChains(s: State, events: seq<Event>)
    decreases |events|
  {
    events == []
    || (events[0].Chain? && events[0].task < |s.tasks| && !s.down && OnlyChains(Step(s, events[0]), events[1..]))
  }

  /** Left alone, the pending chains stop: they can take no more steps than they have attempts left. */
  lemma {:induction false} ChainsRunOut(s: State, events: seq<Event>)
    requires Bounded(s.tasks) && OnlyChains(s, events)
    ensures |events| <= AttemptsLeft(s.tasks)
    decreases |events|
  {
    if events != [] {
      hide Handled, AttemptsLeft, Bounded;
      var e := events[0];
      HandledTakesAttempt(s, e.task, e.answers, e.queueing);
      ChainDown(s, e.task, e.answers, e.queueing);
      ChainsRunOut(Step(s, e), events[1..]);
    }
  }

  lemma ChainDown(s: State, i: nat, a: Answers, queueing: Queueing)
    requires i < |s.tasks|
    ensures Handled(s, i, a, queueing).down == s.down
  {
    hide HasChain;
    HandledShape(s, i, a, queueing);
  }

  lemma QueuedBounded(tasks: seq<Task>, t: Task, queueing: Queueing)
    requires Bounded(tasks)
    ensures Bounded(Enqueue(tasks, t, queueing))
  {
  }

  lemma {:induction false} RecoveredBounded(s: State, n: nat, queueing: Queueing)
    requires Bounded(s.tasks) && n <= |s.rows.requests|
    ensures Bounded(RecoveredUpTo(s, n, queueing).tasks)
    decreases n
  {
    hide Bounded, Enqueue;
    if n > 0 {
      RecoveredBounded(s, n - 1, queueing);
      if s.rows.requests[n - 1].execution.Some? {
        QueuedBounded(RecoveredUpTo(s, n - 1, queueing).tasks, Task(s.rows.requests[n - 1].execution.value, 0, true), queueing);
      }
    }
  }

  lemma ExitTasks(s: State, e: Event)
    requires Bounded(s.tasks) && (e.ExitPlace? || e.ExitLink? || e.ExitEnd?)
    ensures Bounded(Step(s, e).tasks)
  {
    if s.stage.Linked? {
      QueuedBounded(s.tasks, Task(s.stage.order.id, 0, true), if e.ExitEnd? then e.queueing else Accepts);
    }
    hide Bounded, Enqueue, Finalized, RefreshedAfter, LoadExit, ClosePosition, CloseOrdered;
    if e.ExitEnd? && !s.down && s.stage.Linked? && s.stage.request < |s.rows.requests| {
      ExitEndedShape(s, s.stage.request, s.stage.context, s.stage.order, e.refresh, e.fetch, e.queueing);
    }
  }

  lemma StepBounded(s: State, e: Event)
    requires Bounded(s.tasks)
    ensures Bounded(Step(s, e).tasks)
  {
    hide Bounded, Loop.RunOnce, Enqueue, Handled, ReconcileExecution, RecoveredUpTo, Loop.Step, Begun;
    match e
    case Automatic(run, loaded, queueing) =>
      var outcome := Loop.RunOnce(s.loop, run).1;
      if outcome.Ordered? {
        QueuedBounded(s.tasks, Task(outcome.execution, 0, false), queueing);
      }
    case ExitBegin(context, queueing) =>
      var request := Begun(s.rows).1;
      if Begun(s.rows).0.requests[request].execution.Some? {
        QueuedBounded(s.tasks, Task(Begun(s.rows).0.requests[request].execution.value, 0, true), queueing);
      }
    case Chain(i, a, queueing) =>
      if i < |s.tasks| {
        HandledTakesAttempt(s, i, a, queueing);
      }
    case ChainCrash(i, a, stored) =>
      if i < |s.tasks| {
        StillBounded(s.tasks, i, s.tasks[i], Accepts);
        AttemptShape(s.(tasks := Without(s.tasks, i)), s.tasks[i].execution, a);
      }
    case Recover(queueing) =>
      RecoveredBounded(s, |s.rows.requests|, queueing);
    case Outside(_, _) =>
    case Crash =>
    case _ =>
      ExitTasks(s, e);
  }

  lemma {:induction false} TraceBounded(s: State, events: seq<Event>)
    requires Bounded(s.tasks)
    ensures Bounded(Trace(s, events).tasks)
    decreases |events|
  {
    if events != [] {
      hide Step, Bounded;
      StepBounded(s, events[0]);
      TraceBounded(Step(s, events[0]), events[1..]);
    }
  }

  /** In every reachable state the pending chains stop on their own. */
  lemma EveryChainStops(s: State, before: seq<Event>, chains: seq<Event>)
    requires Initial(s) && OnlyChains(Trace(s, before), chains)
    ensures |chains| <= AttemptsLeft(Trace(s, before).tasks)
  {
    TraceBounded(s, before);
    ChainsRunOut(Trace(s, before), chains);
  }

  /** When a chain stops although the queue takes it, that is, when no task of its execution is pending any more, the
      newest request of that execution has been completed or failed. */
  lemma StoppedChainDecided(s: State, i: nat, a: Answers, queueing: Queueing, q: nat)
    requires i < |s.tasks| && FindByExecution(s.rows.requests, s.tasks[i].execution) == Some(q)
    requires !queueing.Refuses? && !HasChain(Handled(s, i, a, queueing).tasks, s.tasks[i].execution)
    ensures var t := Handled(s, i, a, queueing);
            q < |t.rows.requests| && (t.rows.requests[q].status.Completed? || t.rows.requests[q].status.Failed?)
  {
    hide Handled, HasChain;
    HandledShape(s, i, a, queueing);
  }

  // ---- Chains among other steps ---------------------------------------------------------------------------------

  /** The step takes a task off the queue. */
  predicate TakesTask(s: State, e: Event) {
    match e
    case Chain(i, _, _) => !s.down && i < |s.tasks|
    case ChainCrash(i, _, _) => !s.down && i < |s.tasks|
    case _ => false
  }

  function ChainSteps(s: State, events: seq<Event>): nat
    decreases |events|
  {
    if events == [] then 0
    else (if TakesTask(s, events[0]) then 1 else 0) + ChainSteps(Step(s, events[0]), events[1..])
  }

  lemma TakenTakesAttempt(s: State, e: Event)
    requires Bounded(s.tasks) && TakesTask(s, e)
    ensures AttemptsLeft(Step(s, e).tasks) < AttemptsLeft(s.tasks)
  {
    match e
    case Chain(i, a, queueing) => HandledTakesAttempt(s, i, a, queueing);
    case ChainCrash(i, a, stored) =>
      RemovalTakesAttempts(s.tasks, i);
      NextHasLess(s.tasks[i]);
      AttemptShape(s.(tasks := Without(s.tasks, i)), s.tasks[i].execution, a);
      hide ReconcileExecution, Left, AttemptsLeft, Without, Bounded;
  }

  /** What one step may queue: an ordinary chain after a run, one close chain at the begin or end of an exit and at a
      recovery, and nothing otherwise. */
  function MayQueue(e: Event): nat {
    match e
    case Automatic(_, _, _) => |ORDER_CHECKPOINTS|
    case ExitBegin(_, _) => |CLOSE_CHECKPOINTS|
    case ExitEnd(_, _, _) => |CLOSE_CHECKPOINTS|
    case Recover(_) => |CLOSE_CHECKPOINTS|
    case _ => 0
  }

  function AllMayQueue(events: seq<Event>): nat {
    if events == [] then 0 else MayQueue(events[0]) + AllMayQueue(events[1..])
  }

  lemma QueuedIsBounded(s: State, e: Event)
    requires Arranged(s) && !TakesTask(s, e)
    ensures AttemptsLeft(Step(s, e).tasks) <= AttemptsLeft(s.tasks) + MayQueue(e)
  {
    hide Loop.RunOnce, Enqueue, AttemptsLeft, Handled, ReconcileExecution, Loop.Step, RecoveredUpTo, ExitPlaced, ExitEnded, Begun;
    match e
    case Automatic(run, loaded, queueing) =>
      var outcome := Loop.RunOnce(s.loop, run).1;
      if outcome.Ordered? {
        EnqueueAddsAttempts(s.tasks, Task(outcome.execution, 0, false), queueing);
      }
    case ExitBegin(context, queueing) =>
      var r := Begun(s.rows).0.requests[Begun(s.rows).1];
      if r.execution.Some? {
        EnqueueAddsAttempts(s.tasks, Task(r.execution.value, 0, true), queueing);
      }
    case ExitEnd(refresh, fetch, queueing) =>
      if s.stage.Linked? && s.stage.request < |s.rows.requests| {
        ExitEndedShape(s, s.stage.request, s.stage.context, s.stage.order, refresh, fetch, queueing);
        EnqueueAddsAttempts(s.tasks, Task(s.stage.order.id, 0, true), queueing);
      }
    case Recover(queueing) =>
      RecoveryQueues(s, |s.rows.requests|, queueing);
    case ExitPlace(a) =>
      if s.stage.Opened? && s.stage.request < |s.rows.requests| {
        ExitPlacedShape(s, a);
      }
    case _ =>
  }

  lemma {:induction false} RecoveryQueues(s: State, n: nat, queueing: Queueing)
    requires AtMostOneOutstanding(s.rows) && n <= |s.rows.requests|
    ensures AttemptsLeft(RecoveredUpTo(s, n, queueing).tasks) <=
            AttemptsLeft(s.tasks)
            + if exists k :: 0 <= k < n && Outstanding(s.rows.requests[k]) then |CLOSE_CHECKPOINTS| else 0
    decreases n
  {
    if n > 0 {
      RecoveryQueues(s, n - 1, queueing);
      var r := s.rows.requests[n - 1];
      if Outstanding(r) && r.execution.Some? {
        EnqueueAddsAttempts(RecoveredUpTo(s, n - 1, queueing).tasks, Task(r.execution.value, 0, true), queueing);
      }
      hide Enqueue, AttemptsLeft;
    }
  }

  /** In any interleaving with runs, exits, crashes and recoveries, the chain steps taken and the attempts still left are at
      most the attempts left at the start plus what the other steps may queue: four attempts for a run, six for the begin
      or the end of an exit and for a recovery. */
  lemma {:induction false} ChainStepsAreBounded(s: State, events: seq<Event>)
    requires Arranged(s) && Bounded(s.tasks)
    ensures ChainSteps(s, events) + AttemptsLeft(Trace(s, events).tasks) <= AttemptsLeft(s.tasks) + AllMayQueue(events)
    decreases |events|
  {
    if events != [] {
      var t := Step(s, events[0]);
      StepIsArranged(s, events[0]);
      StepBounded(s, events[0]);
      if TakesTask(s, events[0]) {
        TakenTakesAttempt(s, events[0]);
      } else {
        QueuedIsBounded(s, events[0]);
      }
      hide Step, Bounded, AttemptsLeft, Arranged, MayQueue;
      ChainStepsAreBounded(t, events[1..]);
    }
  }

  /** From the start of the service, a bound that can be read off the events alone. */
  lemma ChainStepsFromTheStart(s: State, events: seq<Event>)
    requires Initial(s)
    ensures ChainSteps(s, events) <= AllMayQueue(events)
  {
    ChainStepsAreBounded(s, events);
  }
}
