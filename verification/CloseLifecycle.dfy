/** Closing a hedge as a step system on top of the hedge loop: the exit of one configuration in its separate steps, the
    reconciliation chains, automatic runs, crashes and the recovery at start-up (internal/service/hedge_service.go,
    internal/db/mgmt/hedge_close.go, internal/tasks/reconciliation.go, cmd/hedging-bot/main.go). */
module CloseLifecycle {
  import opened Money
  import opened Calculator
  import opened Positions
  import opened ExitPosition
  import opened CloseStore
  import opened Chains
  import Store = OrderStore
  import Loop = HedgeLoop

  /** The configuration an exit loaded when it started. */
  datatype Context = Context(configId: nat, config: Config)

  /** What an exit remembers of the order it placed: the execution as the insert returned it. */
  datatype CloseOrder = CloseOrder(decision: Decision, position: Option<Snapshot>, id: nat, row: Store.Execution)

  /** How far the exit that holds the lock has come. */
  datatype Stage =
    | Idle
    | Opened(request: nat, context: Context)
    | Placed(request: nat, context: Context, order: CloseOrder)
    | Linked(request: nat, context: Context, order: CloseOrder)

  datatype State = State(loop: Loop.State, rows: Rows, tasks: seq<Task>, stage: Stage, down: bool)

  // ---- Deciding the end of a request ----------------------------------------------------------------------------

  datatype Verdict = Done | StillOpen | VerifyError

  /** Completes a request when the live position is gone; otherwise the request is verified again later. */
  function Finalized(s: State, request: nat, config: Config, fetch: Fetch): (State, Verdict)
    requires request < |s.rows.requests|
  {
    if config.dryRun then (s.(rows := Finished(s.rows, request, true)), Done)
    else
      match LivePosition(config.targetSymbol, fetch, s.loop.now)
      case LiveFlat => (s.(rows := Finished(s.rows, request, true)), Done)
      case LiveError =>
        var verifying := WithStatus(s.rows, request, Verifying);
        (if verifying.Some? then s.(rows := verifying.value) else s, VerifyError)
      case LiveOpen(position) =>
        var s1 := s.(loop := s.loop.(snapshot := Some(position)));
        var verifying := WithStatus(s.rows, request, Verifying);
        if position.quantity == 0.0 then (s1.(rows := Finished(s.rows, request, true)), Done)
        else if verifying.None? then (s1, VerifyError)
        else (s1.(rows := verifying.value), StillOpen)
  }

  /** What one reconciliation attempt reports: a final order status, any other status, or an error. */
  datatype Attempt = Ended | Unsettled | AttemptError

  /** The answers one reconciliation attempt gets. */
  datatype Answers = Answers(config: Config, works: bool, refresh: Fetch, fetch: Fetch)

  function ReconcileExecution(s: State, execution: nat, a: Answers): (State, Attempt) {
    if execution >= |s.loop.tables.executions| then (s, AttemptError)
    else
      var loop := if s.loop.tables.executions[execution].status.Submitted?
                  then Loop.Reconciled(s.loop, execution, a.config, a.works, a.refresh)
                  else Some(s.loop);
      if loop.None? then (s, AttemptError)
      else Judged(s.(loop := loop.value), execution, a)
  }

  /** The second half of an attempt: the request the execution belongs to, if any, follows the execution's status. */
  function Judged(s: State, execution: nat, a: Answers): (State, Attempt)
    requires execution < |s.loop.tables.executions|
  {
    var status := s.loop.tables.executions[execution].status;
    match FindByExecution(s.rows.requests, execution)
    case None => (s, if status.Filled? || status.Canceled? || status.Failed? then Ended else Unsettled)
    case Some(request) =>
      match status
      case Filled => FollowedFill(s, request, a)
      case DryRun => FollowedFill(s, request, a)
      case Failed => (s.(rows := Finished(s.rows, request, false)), Ended)
      case Canceled => (s.(rows := Finished(s.rows, request, false)), Ended)
      case _ => (s, Unsettled)
  }

  function FollowedFill(s: State, request: nat, a: Answers): (State, Attempt)
    requires request < |s.rows.requests|
  {
    var (t, verdict) := Finalized(s, request, a.config, a.fetch);
    (t, match verdict case Done => Ended case StillOpen => Unsettled case VerifyError => AttemptError)
  }

  /** A chain that used up its attempts fails the request it followed, unless that one has ended. */
  function Exhausted(s: State, execution: nat): State {
    match FindByExecution(s.rows.requests, execution)
    case None => s
    case Some(request) =>
      if Outstanding(s.rows.requests[request]) then s.(rows := Finished(s.rows, request, false)) else s
  }

  function ScheduledNext(s: State, t: Task, queueing: Queueing): State {
    var next := t.(attempt := t.attempt + 1);
    if DelayAt(Checkpoints(t.close), next.attempt).None? then Exhausted(s, t.execution)
    else s.(tasks := Enqueue(s.tasks, next, queueing))
  }

  /** One task of a reconciliation chain. */
  function Handled(s: State, i: nat, a: Answers, queueing: Queueing): State
    requires i < |s.tasks|
  {
    var (t, attempt) := ReconcileExecution(s.(tasks := Without(s.tasks, i)), s.tasks[i].execution, a);
    if attempt.Ended? then t else ScheduledNext(t, s.tasks[i], queueing)
  }

  // ---- The exit of a hedge --------------------------------------------------------------------------------------

  function ScheduledClose(s: State, execution: nat, queueing: Queueing): State {
    s.(tasks := Enqueue(s.tasks, Task(execution, 0, true), queueing))
  }

  /** Opens a close request; when one is outstanding only its chain is scheduled again. */
  function ExitBegun(s: State, context: Context, queueing: Queueing): State {
    var (rows, request, created) := Begun(s.rows);
    if created then s.(rows := rows, stage := Opened(request, context))
    else
      match rows.requests[request].execution
      case None => s
      case Some(execution) => ScheduledClose(s, execution, queueing)
  }

  datatype ExitAnswers = ExitAnswers(fetch: Fetch, ticker: Ticker, accountUsable: bool, place: Loop.PlaceAnswer)

  function ExitFailed(s: State, request: nat): State
    requires request < |s.rows.requests|
  {
    s.(rows := Finished(s.rows, request, false), stage := Idle)
  }

  /** Loads the position, decides the closing order and places it. */
  function ExitPlaced(s: State, request: nat, context: Context, a: ExitAnswers): State
    requires request < |s.rows.requests|
  {
    match LoadExit(context.config, a.fetch, a.ticker, s.loop.snapshot, s.loop.now)
    case LoadFailed(stored) => ExitFailed(s.(loop := s.loop.(snapshot := stored)), request)
    case Loaded(position, stored) =>
      var s1 := s.(loop := s.loop.(snapshot := stored));
      match ClosePosition(context.config, ToPosition(context.config.targetSymbol, position))
      case Err(_) => s1.(stage := Idle)
      case Ok(d) =>
        if !d.IsOrder() || d.side.None? then s1.(rows := Finished(s.rows, request, true), stage := Idle)
        else
          var (loop, id) := CloseOrdered(s1.loop, context, position, d, a);
          var s2 := s1.(loop := loop);
          if id.None? then ExitFailed(s2, request)
          else s2.(stage := Placed(request, context, CloseOrder(d, position, id.value, loop.tables.executions[id.value])))
  }

  /** A closing order goes through the same plan and execution store as every other order. */
  function CloseOrdered(s: Loop.State, context: Context, position: Option<Snapshot>, d: Decision, a: ExitAnswers)
    : (r: (Loop.State, Option<nat>))
    requires d.side.Some?
    ensures r.1.Some? ==> r.1.value < |r.0.tables.executions|
  {
    var run := Loop.RunInput(context.configId, context.config, 0, Loop.OtherReason, a.accountUsable, true,
                             FetchFailed, 0, a.place, FetchFailed);
    var exposure := match position
                    case None => ObservedExposure(0.0, 0.0, s.now)
                    case Some(p) => ObservedExposure(0.0, p.mark, p.observedAt);
    Loop.Executed(s, run, exposure, position, d)
  }

  function ExitLinked(s: State, request: nat, context: Context, order: CloseOrder): State
    requires request < |s.rows.requests|
  {
    var status := if order.row.status.Submitted? then Submitted else Verifying;
    s.(rows := Attached(s.rows, request, order.id, status), stage := Linked(request, context, order))
  }

  /** Refreshes the position, verifies a close that filled at once, and schedules the chain of every other. */
  function ExitEnded(
    s: State, request: nat, context: Context, order: CloseOrder, refresh: Fetch, fetch: Fetch, queueing: Queueing): State
    requires request < |s.rows.requests|
  {
    var d := order.decision;
    var snapshot := if d.side.None? then s.loop.snapshot
                    else RefreshedAfter(context.config, s.loop.snapshot, order.position, d.side.value, d.quantity,
                                        order.row, refresh, s.loop.now);
    Concluded(s.(loop := s.loop.(snapshot := snapshot), stage := Idle), request, context, order, fetch, queueing)
  }

  function Concluded(
    s: State, request: nat, context: Context, order: CloseOrder, fetch: Fetch, queueing: Queueing): State
    requires request < |s.rows.requests|
  {
    if order.row.status.Filled? || order.row.status.DryRun? then
      var (t, verdict) := Finalized(s, request, context.config, fetch);
      if verdict.Done? then t else ScheduledClose(t, order.id, queueing)
    else ScheduledClose(s, order.id, queueing)
  }

  // ---- Automatic runs, crashes and recovery ---------------------------------------------------------------------

  /** A run that loaded the lifecycle `loaded`; a newly submitted order gets an ordinary chain. */
  function Ran(s: State, run: Loop.RunInput, loaded: Lifecycle, queueing: Queueing): State {
    if !loaded.Active? then s
    else
      var (loop, outcome) := Loop.RunOnce(s.loop, run);
      var placed := |loop.placements| > |s.loop.placements|;
      var tasks := if outcome.Ordered? && placed then Tracked(s.tasks, outcome.execution, run.place, queueing) else s.tasks;
      s.(loop := loop, tasks := tasks)
  }

  /** An order the exchange answered with "submitted" is followed by an ordinary chain. */
  function Tracked(tasks: seq<Task>, execution: nat, place: Loop.PlaceAnswer, queueing: Queueing): seq<Task> {
    if place.Accepted? && place.status.Submitted? then Enqueue(tasks, Task(execution, 0, false), queueing) else tasks
  }

  /** Start-up: outstanding requests without an execution fail, the others get a new chain. */
  function RecoveredUpTo(s: State, n: nat, queueing: Queueing): (t: State)
    requires n <= |s.rows.requests|
    ensures |t.rows.requests| == |s.rows.requests| && t.stage == s.stage && t.down == s.down
    decreases n
  {
    if n == 0 then s
    else
      var t := RecoveredUpTo(s, n - 1, queueing);
      var r := s.rows.requests[n - 1];
      if !Outstanding(r) then t
      else
        match r.execution
        case None => t.(rows := Finished(t.rows, n - 1, false))
        case Some(execution) => ScheduledClose(t, execution, queueing)
  }

  datatype Event =
    | Outside(elapsed: nat, event: Loop.Event)
    | Automatic(run: Loop.RunInput, loaded: Lifecycle, queueing: Queueing)
    | ExitBegin(context: Context, queueing: Queueing)
    | ExitPlace(exit: ExitAnswers)
    | ExitLink
    | ExitEnd(refresh: Fetch, fetch: Fetch, queueing: Queueing)
    | Chain(task: nat, answers: Answers, queueing: Queueing)
    | Crash
    | ChainCrash(task: nat, answers: Answers, stored: bool)
    | Recover(queueing: Queueing)

  /** Only the outside world and recovery act while the service is down; a run or a new exit needs the lock. */
  function Step(s: State, e: Event): State {
    match e
    case Outside(elapsed, event) =>
      if event.Run? || event.ReconcileTask? then s else s.(loop := Loop.Step(s.loop, Loop.Timed(elapsed, event)))
    case Automatic(run, loaded, queueing) => if s.down || !s.stage.Idle? then s else Ran(s, run, loaded, queueing)
    case ExitBegin(context, queueing) => if s.down || !s.stage.Idle? then s else ExitBegun(s, context, queueing)
    case ExitPlace(a) =>
      if s.down || !s.stage.Opened? || s.stage.request >= |s.rows.requests| then s
      else ExitPlaced(s, s.stage.request, s.stage.context, a)
    case ExitLink =>
      if s.down || !s.stage.Placed? || s.stage.request >= |s.rows.requests| then s
      else ExitLinked(s, s.stage.request, s.stage.context, s.stage.order)
    case ExitEnd(refresh, fetch, queueing) =>
      if s.down || !s.stage.Linked? || s.stage.request >= |s.rows.requests| then s
      else ExitEnded(s, s.stage.request, s.stage.context, s.stage.order, refresh, fetch, queueing)
    case Chain(i, a, queueing) => if s.down || i >= |s.tasks| then s else Handled(s, i, a, queueing)
    case Crash => s.(stage := Idle, down := true)
    case ChainCrash(i, a, stored) =>
      if s.down || i >= |s.tasks| then s
      else
        var t := s.(tasks := Without(s.tasks, i));
        (if stored then ReconcileExecution(t, s.tasks[i].execution, a).0 else t).(stage := Idle, down := true)
    case Recover(queueing) =>
      if !s.down then s else RecoveredUpTo(s, |s.rows.requests|, queueing).(down := false)
  }

  function Trace(s: State, events: seq<Event>): State
    decreases |events|
  {
    if events == [] then s else Trace(Step(s, events[0]), events[1..])
  }
}
