/** One configuration's hedge loop as a step system: automatic and manual runs, exchange fills, reconciliation, position
    and exposure syncs and the passing of time (internal/service/hedge_service.go). The state holds what the database
    and the exchange know; every answer of the outside world is a parameter of the step. */
module HedgeLoop {
  import opened Money
  import opened Calculator
  import opened Positions
  import opened OrderStore
  import opened ExitPosition
  import Sync = PositionSync

  datatype ExchangeOrder = ExchangeOrder(
    clientId: Key, side: Side, quantity: real, reduceOnly: bool, status: Status, filled: real)

  /** One call of PlaceOrder: the key sent, the stored quantity the decision used, the quantity really held at that
      moment, and the exchange order it made. */
  datatype Placement = Placement(key: Key, decidedOn: real, held: real, order: Option<nat>)

  datatype State = State(
    now: int, tables: Tables, orders: seq<ExchangeOrder>, held: real,
    snapshot: Option<Snapshot>, exposure: Option<ObservedExposure>, placements: seq<Placement>)

  datatype PlaceAnswer = PlaceError | Accepted(status: Status, filled: real)

  /** Scheduled runs carry no reason; only those pass the guard. */
  datatype RunKind = Automatic | RatioAdjustment | OtherReason

  /** One run: its configuration as loaded, and the answers it gets. `pause` is the time between the guard and the
      decision. */
  datatype RunInput = RunInput(
    configId: nat, config: Config, cooldown: int, kind: RunKind, accountUsable: bool, fetchWorks: bool,
    guardFetch: Fetch, pause: nat, place: PlaceAnswer, placeFetch: Fetch)

  datatype Block = PendingOrder | Cooldown | PositionSyncWait

  datatype RunOutcome =
    | Blocked(block: Block)
    | NoExposure
    | CalculationError(error: Error)
    | NotNeeded(decision: Decision)
    | OrderError(decision: Decision)
    | Ordered(decision: Decision, execution: nat)

  function QuantityOf(s: Option<Snapshot>): real {
    if s.None? then 0.0 else s.value.quantity
  }

  /** After a fill the live position is stored only if it is what the fill should have produced. */
  function Refreshed(
    s: State, c: Config, previous: Option<Snapshot>, side: Side, orderQuantity: real, e: Execution, fetch: Fetch): State
  {
    s.(snapshot := RefreshedAfter(c, s.snapshot, previous, side, orderQuantity, e, fetch, s.now))
  }

  function PersistedStatus(status: Status): Status {
    match status
    case Filled => Filled
    case Failed => Failed
    case Canceled => Failed
    case _ => Submitted
  }

  function FindByClientId(orders: seq<ExchangeOrder>, key: Key): (r: Option<nat>)
    ensures r.Some? ==> r.value < |orders| && orders[r.value].clientId == key
  {
    if orders == [] then None
    else if orders[|orders| - 1].clientId == key then Some(|orders| - 1)
    else FindByClientId(orders[..|orders| - 1], key)
  }

  /** The exchange order of an execution, by exchange order id first and by client id otherwise. */
  function FetchOrder(s: State, e: Execution): (r: Option<nat>)
    ensures r.Some? ==> r.value < |s.orders|
  {
    if e.orderId.Some? && e.orderId.value < |s.orders| then e.orderId else FindByClientId(s.orders, e.clientId)
  }

  /** Fetches the order of a submitted execution and stores what it says; nothing is stored on an error. */
  function Reconciled(s: State, id: nat, c: Config, works: bool, fetch: Fetch): (r: Option<State>)
    requires id < |s.tables.executions|
    ensures r.Some? ==> |r.value.tables.executions| == |s.tables.executions|
  {
    var e := s.tables.executions[id];
    var order := FetchOrder(s, e);
    if !works || order.None? || e.planId >= |s.tables.plans| then None
    else
      var o := s.orders[order.value];
      var status := PersistedStatus(o.status);
      var executed := WithExecutionStatus(s.tables, id, order, status, o.filled, s.now);
      var s1 := s.(tables := WithPlanStatus(executed, e.planId, status, s.now));
      Some(Refreshed(s1, c, s1.snapshot, s.tables.plans[e.planId].side, o.filled, s1.tables.executions[id], fetch))
  }

  /** Why an automatic run must not trade after execution `id`. */
  function BlockAfter(s: State, id: nat, cooldown: int): Option<Block>
    requires id < |s.tables.executions|
  {
    var e := s.tables.executions[id];
    if e.status.Submitted? then Some(PendingOrder)
    else if !e.status.Filled? then None
    else if cooldown > 0 && s.now < e.updatedAt + cooldown then Some(Cooldown)
    else if s.snapshot.None? || s.snapshot.value.observedAt < e.updatedAt then Some(PositionSyncWait)
    else None
  }

  /** The guard of an automatic run: a pending order is reconciled first, and an order that cannot be reconciled blocks. */
  function Guarded(s: State, run: RunInput): (State, Option<Block>) {
    match Latest(s.tables.executions)
    case None => (s, None)
    case Some(id) =>
      var r := if s.tables.executions[id].status.Submitted?
               then Reconciled(s, id, run.config, run.accountUsable && run.fetchWorks, run.guardFetch)
               else Some(s);
      if r.None? then (s, Some(PendingOrder))
      else (r.value, BlockAfter(r.value, id, run.cooldown))
  }

  function KeyOf(configId: nat, observedAt: int, d: Decision): Key {
    Key(configId, observedAt, d.action, d.symbol, d.target, d.current, d.adjustment)
  }

  /** The position a run decides on: a stored mark of zero is replaced by the exposure's. */
  function RunPosition(s: State, exposure: ObservedExposure): Option<Snapshot> {
    if s.snapshot.Some? && s.snapshot.value.mark == 0.0
    then Some(s.snapshot.value.(mark := exposure.mark)) else s.snapshot
  }

  function RunDecision(run: RunInput, exposure: ObservedExposure, position: Option<Snapshot>): Result<Decision> {
    var config := if run.kind.RatioAdjustment? then run.config.(rebalance := 0.0) else run.config;
    match Calculate(config, Exposure(exposure.notional, exposure.mark), ToPosition(run.config.targetSymbol, position))
    case Err(error) => Err(error)
    case Ok(d) =>
      Ok(if run.kind.RatioAdjustment? && d.action.Rebalance? && d.reason.RebalanceDrift?
         then d.(reason := HedgeRatioAdjustment) else d)
  }

  /** Stores a dry-run execution; the plan is left as it is. */
  function RecordedDry(s: State, e: Execution): (r: (State, Option<nat>))
    ensures r.1.Some? ==> r.1.value < |r.0.tables.executions|
  {
    match WithExecution(s.tables, e, s.now)
    case None => (s, None)
    case Some((tables, id)) => (s.(tables := tables), Some(id))
  }

  /** Stores an execution and copies its status to the plan; no execution means the insert was refused. */
  function Recorded(s: State, planId: nat, e: Execution): (r: (State, Option<nat>))
    requires planId < |s.tables.plans|
    ensures r.1.Some? ==> r.1.value < |r.0.tables.executions|
  {
    match WithExecution(s.tables, e, s.now)
    case None => (s, None)
    case Some((tables, id)) => (s.(tables := WithPlanStatus(tables, planId, e.status, s.now)), Some(id))
  }

  /** Executes a plan that has no execution yet. */
  function FirstExecution(
    s: State, run: RunInput, planId: nat, key: Key, decidedOn: real, d: Decision): (r: (State, Option<nat>))
    requires d.side.Some? && planId < |s.tables.plans|
    ensures r.1.Some? ==> r.1.value < |r.0.tables.executions|
  {
    if run.config.dryRun then RecordedDry(s, NewExecution(planId, key, None, DryRun, 0.0, s.now))
    else if !run.accountUsable then (s, None)
    else
      match run.place
      case PlaceError =>
        var s1 := s.(placements := s.placements + [Placement(key, decidedOn, s.held, None)]);
        (Recorded(s1, planId, NewExecution(planId, key, None, Failed, 0.0, s.now)).0, None)
      case Accepted(status, filled) =>
        var o := ExchangeOrder(key, d.side.value, d.quantity, d.reduceOnly, status, filled);
        Recorded(Accepting(s, o, Placement(key, decidedOn, s.held, Some(|s.orders|))), planId,
                 NewExecution(planId, key, Some(|s.orders|), status, filled, s.now))
  }

  /** The exchange takes an order and executes the part it reports. */
  function Accepting(s: State, o: ExchangeOrder, p: Placement): State {
    s.(orders := s.orders + [o], held := s.held + Directed(o.side, o.filled), placements := s.placements + [p])
  }

  /** Creates the plan of a decision and executes it at most once; no execution is an error return. */
  function Executed(s: State, run: RunInput, exposure: ObservedExposure, position: Option<Snapshot>, d: Decision)
    : (r: (State, Option<nat>))
    requires d.side.Some?
    ensures r.1.Some? ==> r.1.value < |r.0.tables.executions|
  {
    var key := KeyOf(run.configId, exposure.observedAt, d);
    var plan := Plan(key, d.side.value, d.quantity, d.limitPrice, d.reduceOnly, d.reason,
                     if run.config.dryRun then DryRun else Planned, s.now);
    var (tables, planId) := WithPlan(s.tables, plan, s.now);
    var s1 := s.(tables := tables);
    var existing := FindByClient(tables.executions, key);
    if existing.Some? then (s1, if tables.executions[existing.value].status.Failed? then None else existing)
    else FirstExecution(s1, run, planId, key, QuantityOf(position), d)
  }

  /** The part of a run after the guard. */
  function Decided(s: State, run: RunInput): (State, RunOutcome) {
    if s.exposure.None? then (s, NoExposure)
    else
      var position := RunPosition(s, s.exposure.value);
      match RunDecision(run, s.exposure.value, position)
      case Err(error) => (s, CalculationError(error))
      case Ok(d) =>
        if !d.IsOrder() || d.side.None? then (s, NotNeeded(d))
        else
          var (s1, id) := Executed(s, run, s.exposure.value, position, d);
          if id.None? then (s1, OrderError(d))
          else
            (Refreshed(s1, run.config, position, d.side.value, d.quantity, s1.tables.executions[id.value],
                       run.placeFetch), Ordered(d, id.value))
  }

  /** Only automatic runs are guarded. */
  function AfterGuard(s: State, run: RunInput): (State, Option<Block>) {
    if run.kind.Automatic? then Guarded(s, run) else (s, None)
  }

  function RunOnce(s: State, run: RunInput): (State, RunOutcome) {
    var (s1, block) := AfterGuard(s, run);
    if block.Some? then (s1, Blocked(block.value)) else Decided(s1.(now := s1.now + run.pause), run)
  }

  // ---- What a run is about to do --------------------------------------------------------------------------------

  /** The state in which a run decides. */
  function AtDecision(s: State, run: RunInput): State {
    var s1 := AfterGuard(s, run).0;
    s1.(now := s1.now + run.pause)
  }

  /** The order a run asks for once it is past its guard. */
  function Asked(s: State, run: RunInput): (d: Option<Decision>)
    ensures d.Some? ==> d.value.side.Some? && s.exposure.Some?
  {
    if s.exposure.None? then None
    else
      match RunDecision(run, s.exposure.value, RunPosition(s, s.exposure.value))
      case Err(_) => None
      case Ok(d) => if d.IsOrder() && d.side.Some? then Some(d) else None
  }

  /** The order a run will ask for, read off before it starts: none when the guard blocks it. */
  function Wanted(s: State, run: RunInput): (d: Option<Decision>)
    ensures d.Some? ==> d.value.side.Some? && AtDecision(s, run).exposure.Some?
  {
    if AfterGuard(s, run).1.Some? then None else Asked(AtDecision(s, run), run)
  }

  function WantedKey(s: State, run: RunInput): Key
    requires Wanted(s, run).Some?
  {
    KeyOf(run.configId, AtDecision(s, run).exposure.value.observedAt, Wanted(s, run).value)
  }

  /** A run is about to call PlaceOrder: it wants an order, nothing was executed for its key yet, it is not a dry run and
      its account is usable. */
  predicate AboutToPlace(s: State, run: RunInput) {
    && Wanted(s, run).Some? && FindByClient(s.tables.executions, WantedKey(s, run)).None?
    && !run.config.dryRun && run.accountUsable
  }

  // ---- The step system ------------------------------------------------------------------------------------------

  datatype Event =
    | Tick
    | Fill(order: nat, amount: real, done: bool)
    | EndUnfilled(order: nat, status: Status)
    | ReconcileTask(execution: nat, config: Config, works: bool, fetch: Fetch)
    | SyncPosition(target: string, fetch: Fetch)
    | SyncExposure(notional: real, mark: real)
    | Run(run: RunInput)

  datatype Timed = Timed(elapsed: nat, event: Event)

  /** The net snapshot the position sync writes for the target symbol; a stamp later than the clock is kept. */
  function Synced(s: State, target: string, fetch: Fetch): State {
    if fetch.FetchFailed? then s
    else s.(snapshot := Some(Sync.SnapshotOf(Sync.AggregateOf(Sync.Normalize(target), target, fetch.positions, s.now))))
  }

  function Filling(s: State, order: nat, amount: real, done: bool): State
    requires order < |s.orders|
  {
    var o := s.orders[order];
    s.(orders := s.orders[order := o.(filled := o.filled + amount, status := if done then Filled else o.status)],
       held := s.held + Directed(o.side, amount))
  }

  function Happens(s: State, event: Event): State {
    match event
    case Tick => s
    case Fill(order, amount, done) => if order < |s.orders| then Filling(s, order, amount, done) else s
    case EndUnfilled(order, status) =>
      if order < |s.orders| then s.(orders := s.orders[order := s.orders[order].(status := status)]) else s
    case ReconcileTask(id, c, works, fetch) =>
      if id < |s.tables.executions| && s.tables.executions[id].status.Submitted?
      then (var r := Reconciled(s, id, c, works, fetch); if r.Some? then r.value else s) else s
    case SyncPosition(target, fetch) => Synced(s, target, fetch)
    case SyncExposure(notional, mark) => s.(exposure := Some(ObservedExposure(notional, mark, s.now)))
    case Run(run) => RunOnce(s, run).0
  }

  function Step(s: State, timed: Timed): State {
    Happens(s.(now := s.now + timed.elapsed), timed.event)
  }

  function Trace(s: State, steps: seq<Timed>): State
    decreases |steps|
  {
    if steps == [] then s else Trace(Step(s, steps[0]), steps[1..])
  }

  /** Before anything happened: no orders, and the snapshot, if any, is the truth. */
  predicate Initial(s: State) {
    && s.tables == Tables([], []) && s.orders == [] && s.placements == []
    && QuantityOf(s.snapshot) == s.held
    && (s.snapshot.Some? ==> s.snapshot.value.observedAt <= s.now
                             && Sign(s.snapshot.value.quantity) == Sign(s.snapshot.value.notional))
  }
}
