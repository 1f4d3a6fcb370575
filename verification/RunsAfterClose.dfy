/** Runs after a close has begun: none orders when load and lock are one step, and when they are not, exactly those that
    loaded the active configuration, get the lock and are about to order. */
module RunsAfterClose {
  import opened Money
  import opened Calculator
  import opened Positions
  import opened ExitPosition
  import opened CloseStore
  import opened Chains
  import opened CloseLifecycle
  import opened CloseInvariants
  import opened Idempotence
  import Sequence = Sequencing
  import Store = OrderStore
  import Loop = HedgeLoop

  // ---- Load and lock as one step --------------------------------------------------------------------------------

  /** A run that loads its configuration in the step in which it takes the lock. */
  predicate LoadsUnderLock(s: State, e: Event) {
    e.Automatic? ==> e.loaded == s.rows.lifecycle
  }

  lemma {:induction false} RecoveryLeavesActive(s: State, n: nat, queueing: Queueing)
    requires n <= |s.rows.requests| && !s.rows.lifecycle.Active?
    ensures !RecoveredUpTo(s, n, queueing).rows.lifecycle.Active?
    decreases n
  {
    hide Enqueue;
    if n > 0 {
      RecoveryLeavesActive(s, n - 1, queueing);
    }
  }

  lemma LifecycleStaysClosed(s: State, e: Event)
    requires !s.rows.lifecycle.Active?
    ensures !Step(s, e).rows.lifecycle.Active?
  {
    hide ReconcileExecution, LoadExit, ClosePosition, CloseOrdered, FindByExecution, Finalized, RefreshedAfter,
      Enqueue, Loop.RunOnce, Loop.Step, RecoveredUpTo;
    match e
    case Chain(i, a, queueing) =>
      if i < |s.tasks| {
        AttemptShape(s.(tasks := Without(s.tasks, i)), s.tasks[i].execution, a);
      }
    case ChainCrash(i, a, stored) =>
      if i < |s.tasks| {
        AttemptShape(s.(tasks := Without(s.tasks, i)), s.tasks[i].execution, a);
      }
    case ExitEnd(refresh, fetch, queueing) =>
      if s.stage.Linked? && s.stage.request < |s.rows.requests| {
        ExitEndedShape(s, s.stage.request, s.stage.context, s.stage.order, refresh, fetch, queueing);
      }
    case Recover(queueing) => RecoveryLeavesActive(s, |s.rows.requests|, queueing);
    case _ =>
  }

  /** A run changed nothing but the time. */
  predicate Inert(s: State, e: Event) {
    var t := Step(s, e); t == s.(loop := s.loop.(now := t.loop.now))
  }

  /** Every run in the sequence leaves orders, placements, rows and tasks as they are. */
  predicate RunsAreInert(s: State, events: seq<Event>)
    decreases |events|
  {
    events == [] || ((events[0].Automatic? ==> Inert(s, events[0])) && RunsAreInert(Step(s, events[0]), events[1..]))
  }

  predicate AllLoadUnderLock(s: State, events: seq<Event>)
    decreases |events|
  {
    events == [] || (LoadsUnderLock(s, events[0]) && AllLoadUnderLock(Step(s, events[0]), events[1..]))
  }

  /** Once a close has begun, no run ever places an order again and the lifecycle never returns to active, provided a run
      reads its configuration and takes the lock as one step. */
  lemma {:induction false} NoRunAfterClose(s: State, events: seq<Event>)
    requires !s.rows.lifecycle.Active? && AllLoadUnderLock(s, events)
    ensures RunsAreInert(s, events) && !Trace(s, events).rows.lifecycle.Active?
    decreases |events|
  {
    if events != [] {
      LifecycleStaysClosed(s, events[0]);
      if events[0].Automatic? {
        RunStops(s, events[0]);
      }
      hide Step, LoadsUnderLock;
      NoRunAfterClose(Step(s, events[0]), events[1..]);
    }
  }

  lemma RunStops(s: State, e: Event)
    requires !s.rows.lifecycle.Active? && LoadsUnderLock(s, e) && e.Automatic?
    ensures Step(s, e) == s
  {
    hide Loop.RunOnce;
  }

  // ---- Exactly when a run orders --------------------------------------------------------------------------------

  /** The run gets past its lifecycle check, with the configuration it loaded, and the lock. */
  predicate Proceeds(s: State, e: Event) {
    e.Automatic? && e.loaded.Active? && !s.down && s.stage.Idle?
  }

  predicate PlacesNothing(s: State, e: Event) {
    Step(s, e).loop.placements == s.loop.placements
  }

  /** In every state, whatever has happened to the configuration since it was loaded: a run step calls PlaceOrder if and
      only if the lifecycle it loaded was active, the service is up, no exit holds the lock, and the loop is about to
      place. */
  lemma RunPlacesExactly(s: State, e: Event)
    requires e.Automatic?
    ensures PlacesNothing(s, e) <==> !(Proceeds(s, e) && Loop.AboutToPlace(s.loop, e.run))
  {
    PlacesExactly(s.loop, e.run);
    hide Loop.RunOnce, Loop.AboutToPlace, Enqueue;
  }

  predicate RunsPlaceNothing(s: State, events: seq<Event>)
    decreases |events|
  {
    events == []
    || ((events[0].Automatic? ==> PlacesNothing(s, events[0])) && RunsPlaceNothing(Step(s, events[0]), events[1..]))
  }

  predicate NoRunGetsToOrder(s: State, events: seq<Event>)
    decreases |events|
  {
    events == []
    || (!(Proceeds(s, events[0]) && Loop.AboutToPlace(s.loop, events[0].run))
        && NoRunGetsToOrder(Step(s, events[0]), events[1..]))
  }

  /** After a close has begun, over every sequence of steps: no run places an order if and only if none that loaded the
      active configuration gets the lock and is about to place. The lifecycle itself never returns to active. */
  lemma {:induction false} OrdersAfterCloseExactly(s: State, events: seq<Event>)
    requires !s.rows.lifecycle.Active?
    ensures RunsPlaceNothing(s, events) <==> NoRunGetsToOrder(s, events)
    ensures !Trace(s, events).rows.lifecycle.Active?
    decreases |events|
  {
    if events != [] {
      LifecycleStaysClosed(s, events[0]);
      if events[0].Automatic? {
        RunPlacesExactly(s, events[0]);
      }
      hide Step, Loop.AboutToPlace;
      OrdersAfterCloseExactly(Step(s, events[0]), events[1..]);
    }
  }

  // ---- Exactly when a run changes nothing -----------------------------------------------------------------------

  /** A refresh has nothing to store: no fill, no position, one that does not confirm the fill, or the one stored. */
  predicate RefreshIdle(
    c: Config, stored: Option<Snapshot>, previous: Option<Snapshot>, side: Side, quantity: real, e: Store.Execution,
    fetch: Fetch, now: int)
  {
    c.dryRun || !e.status.Filled? ||
    match LivePosition(c.targetSymbol, fetch, now)
    case LiveError => true
    case LiveFlat =>
      ExpectedQuantity(previous, side, quantity, e.filled) != 0.0
      || stored == Some(Snapshot(Net, 0.0, 0.0, 0.0, if previous.Some? then previous.value.mark else 0.0, now))
    case LiveOpen(live) =>
      live.quantity != ExpectedQuantity(previous, side, quantity, e.filled) || stored == Some(live)
  }

  lemma RefreshIdleExactly(
    c: Config, stored: Option<Snapshot>, previous: Option<Snapshot>, side: Side, quantity: real, e: Store.Execution,
    fetch: Fetch, now: int)
    ensures RefreshedAfter(c, stored, previous, side, quantity, e, fetch, now) == stored <==>
            RefreshIdle(c, stored, previous, side, quantity, e, fetch, now)
  {
    hide LivePosition, ExpectedQuantity;
  }

  /** Asking again for an order changes nothing: its plan was touched at this very moment, and either it has an execution
      and the refresh finds nothing new, or it has none and the account is unusable. */
  predicate AsksInVain(s: Loop.State, run: Loop.RunInput)
    requires Loop.Asked(s, run).Some?
  {
    var d, position := Loop.Asked(s, run).value, Loop.RunPosition(s, s.exposure.value);
    var key := Loop.KeyOf(run.configId, s.exposure.value.observedAt, d);
    var plan, id := Store.FindPlan(s.tables.plans, key), Store.FindByClient(s.tables.executions, key);
    && plan.Some? && s.tables.plans[plan.value].updatedAt == s.now
    && match id
       case None => !run.config.dryRun && !run.accountUsable
       case Some(i) =>
         var e := s.tables.executions[i];
         e.status.Failed?
         || RefreshIdle(run.config, s.snapshot, position, d.side.value, d.quantity, e, run.placeFetch, s.now)
  }

  /** The exchange says nothing new about a pending execution, and both its rows were touched at this very moment. */
  predicate NothingNew(s: Loop.State, id: nat)
    requires id < |s.tables.executions| && s.tables.executions[id].planId < |s.tables.plans|
    requires Loop.FetchOrder(s, s.tables.executions[id]).Some?
  {
    var e, order := s.tables.executions[id], Loop.FetchOrder(s, s.tables.executions[id]);
    var o := s.orders[order.value];
    && Loop.PersistedStatus(o.status).Submitted? && e.orderId == order && e.filled == o.filled
    && e.updatedAt == s.now && s.tables.plans[e.planId].updatedAt == s.now
  }

  /** The guard will change nothing: no guard, no pending order, one that cannot be fetched, or nothing new about it. */
  predicate GuardIdle(s: Loop.State, run: Loop.RunInput) {
    !run.kind.Automatic? ||
    match Store.Latest(s.tables.executions)
    case None => true
    case Some(id) =>
      var e := s.tables.executions[id];
      || !e.status.Submitted? || !(run.accountUsable && run.fetchWorks) || Loop.FetchOrder(s, e).None?
      || e.planId >= |s.tables.plans| || NothingNew(s, id)
  }

  /** The rows as they are block the run. */
  predicate BlockedNow(s: Loop.State, run: Loop.RunInput) {
    run.kind.Automatic? &&
    match Store.Latest(s.tables.executions)
    case None => false
    case Some(id) => Loop.BlockAfter(s, id, run.cooldown).Some?
  }

  /** A run that will change nothing: its guard does not, and then it is blocked, wants no order, or asks in vain. */
  predicate StandsStill(s: Loop.State, run: Loop.RunInput) {
    && GuardIdle(s, run)
    && (BlockedNow(s, run)
        || var t := s.(now := s.now + run.pause); Loop.Asked(t, run).Some? ==> AsksInVain(t, run))
  }

  lemma ReconcileIdleExactly(s: Loop.State, id: nat, c: Config, works: bool, fetch: Fetch)
    requires Sound(s.tables) && id < |s.tables.executions| && s.tables.executions[id].status.Submitted?
    requires Loop.Reconciled(s, id, c, works, fetch).Some?
    ensures Loop.Reconciled(s, id, c, works, fetch).value == s <==> NothingNew(s, id)
  {
    var t, r := s.tables, Loop.Reconciled(s, id, c, works, fetch).value;
    var e := t.executions[id];
    assert Stamped(e) && Agrees(t, e);
    hide Sound, Loop.FetchOrder, LivePosition, Agrees, Stamped;
    assert r.tables.executions[id].updatedAt == s.now && r.tables.plans[e.planId].updatedAt == s.now;
    if NothingNew(s, id) {
      assert r.tables.executions == t.executions && r.tables.plans == t.plans;
    }
  }

  lemma GuardIdleExactly(s: Loop.State, run: Loop.RunInput)
    requires Sound(s.tables)
    ensures Loop.AfterGuard(s, run).0 == s <==> GuardIdle(s, run)
    ensures GuardIdle(s, run) ==> (Loop.AfterGuard(s, run).1.Some? <==> BlockedNow(s, run))
  {
    hide Sound, NothingNew, Store.Latest;
    var id := Store.Latest(s.tables.executions);
    if run.kind.Automatic? && id.Some? && s.tables.executions[id.value].status.Submitted? {
      var works := run.accountUsable && run.fetchWorks;
      if Loop.Reconciled(s, id.value, run.config, works, run.guardFetch).Some? {
        ReconcileIdleExactly(s, id.value, run.config, works, run.guardFetch);
        hide RefreshedAfter, Store.WithExecutionStatus, Store.WithPlanStatus;
      }
    }
  }

  lemma ExecutedInVain(
    s: Loop.State, run: Loop.RunInput, exposure: ObservedExposure, position: Option<Snapshot>, d: Decision)
    requires Sound(s.tables) && d.side.Some?
    ensures var r, key := Loop.Executed(s, run, exposure, position, d).0, Loop.KeyOf(run.configId, exposure.observedAt, d);
            var plan := Store.FindPlan(s.tables.plans, key);
            r == s <==> && plan.Some? && s.tables.plans[plan.value].updatedAt == s.now
                        && (Store.FindByClient(s.tables.executions, key).None? ==>
                              !run.config.dryRun && !run.accountUsable)
  {
    var key := Loop.KeyOf(run.configId, exposure.observedAt, d);
    var plan := Store.Plan(key, d.side.value, d.quantity, d.limitPrice, d.reduceOnly, d.reason,
                           if run.config.dryRun then Store.DryRun else Store.Planned, s.now);
    PlanKept(s.tables, plan, s.now);
    PlanTouched(s.tables, plan, s.now);
    hide Sound, Grows, Store.WithPlan, Store.FindByClient, Store.FindPlan, Loop.KeyOf, Loop.FirstExecution;
    var (t1, planId) := Store.WithPlan(s.tables, plan, s.now);
    if Store.FindByClient(t1.executions, key).None? {
      NoneOfPlan(t1.executions, planId, key);
      FirstIsNew(s.(tables := t1), run, planId, key, Loop.QuantityOf(position), d);
    }
  }

  lemma PlanTouched(t: Store.Tables, plan: Store.Plan, now: int)
    ensures var i := Store.FindPlan(t.plans, plan.key);
            Store.WithPlan(t, plan, now).0 == t <==> i.Some? && t.plans[i.value].updatedAt == now
  {
    var i := Store.FindPlan(t.plans, plan.key);
    if i.Some? {
      var touched := t.plans[i.value].(updatedAt := now);
      assert t.plans[i.value := touched] == t.plans <==> touched == t.plans[i.value];
    } else {
      assert |Store.WithPlan(t, plan, now).0.plans| != |t.plans|;
    }
  }

  /** A first execution changes something unless the account is unusable. */
  lemma FirstIsNew(s: Loop.State, run: Loop.RunInput, planId: nat, key: Store.Key, decidedOn: real, d: Decision)
    requires d.side.Some? && planId < |s.tables.plans|
    requires Store.FindByPlan(s.tables.executions, planId).None? && Store.FindByClient(s.tables.executions, key).None?
    ensures var r := Loop.FirstExecution(s, run, planId, key, decidedOn, d).0;
            if !run.config.dryRun && !run.accountUsable then r == s
            else r.placements != s.placements || |r.tables.executions| > |s.tables.executions|
  {
    hide Store.FindByPlan, Store.FindByClient;
  }

  lemma ExecutedKeepsRest(
    s: Loop.State, run: Loop.RunInput, exposure: ObservedExposure, position: Option<Snapshot>, d: Decision)
    requires d.side.Some?
    ensures var r := Loop.Executed(s, run, exposure, position, d).0;
            r.snapshot == s.snapshot && r.exposure == s.exposure && r.now == s.now
  {
    hide Store.WithPlan, Store.WithExecution, Store.WithPlanStatus, Store.FindByClient, Loop.KeyOf, Store.NewExecution;
  }

  lemma ExistingIsReturned(
    s: Loop.State, run: Loop.RunInput, exposure: ObservedExposure, position: Option<Snapshot>, d: Decision)
    requires d.side.Some?
    ensures var i := Store.FindByClient(s.tables.executions, Loop.KeyOf(run.configId, exposure.observedAt, d));
            var (r, id) := Loop.Executed(s, run, exposure, position, d);
            && (i.Some? ==> id == if s.tables.executions[i.value].status.Failed? then None else i)
            && (i.None? && !run.config.dryRun && !run.accountUsable ==> id.None?)
  {
    var key := Loop.KeyOf(run.configId, exposure.observedAt, d);
    var plan := Store.Plan(key, d.side.value, d.quantity, d.limitPrice, d.reduceOnly, d.reason,
                           if run.config.dryRun then Store.DryRun else Store.Planned, s.now);
    assert Store.WithPlan(s.tables, plan, s.now).0.executions == s.tables.executions;
    hide Store.WithPlan, Store.FindByClient, Loop.KeyOf, Loop.Recorded, Loop.RecordedDry, Store.NewExecution;
  }

  /** What a run that asks for an order leaves: its execution, and the snapshot refreshed after it. */
  lemma DecidedIsRefreshed(s: Loop.State, run: Loop.RunInput)
    requires Loop.Asked(s, run).Some?
    ensures var position, d := Loop.RunPosition(s, s.exposure.value), Loop.Asked(s, run).value;
            var (r, id) := Loop.Executed(s, run, s.exposure.value, position, d);
            Loop.Decided(s, run).0 ==
            if id.None? then r
            else r.(snapshot := RefreshedAfter(run.config, r.snapshot, position, d.side.value, d.quantity,
                                               r.tables.executions[id.value], run.placeFetch, r.now))
  {
    hide Loop.RunDecision, Loop.Executed, RefreshedAfter;
  }

  lemma AskedInVain(s: Loop.State, run: Loop.RunInput)
    requires Sound(s.tables) && Loop.Asked(s, run).Some?
    ensures Loop.Decided(s, run).0 == s <==> AsksInVain(s, run)
  {
    var position, d := Loop.RunPosition(s, s.exposure.value), Loop.Asked(s, run).value;
    hide Sound, Loop.Asked, Loop.Decided, Loop.Executed, RefreshedAfter, RefreshIdle, Loop.KeyOf, Store.FindByClient,
      Store.FindPlan, Loop.RunPosition;
    DecidedIsRefreshed(s, run);
    ExecutedInVain(s, run, s.exposure.value, position, d);
    ExecutedKeepsRest(s, run, s.exposure.value, position, d);
    ExistingIsReturned(s, run, s.exposure.value, position, d);
    var id := Store.FindByClient(s.tables.executions, Loop.KeyOf(run.configId, s.exposure.value.observedAt, d));
    if id.Some? {
      RefreshIdleExactly(run.config, s.snapshot, position, d.side.value, d.quantity, s.tables.executions[id.value],
                         run.placeFetch, s.now);
    }
  }

  lemma DecidedInVain(s: Loop.State, run: Loop.RunInput)
    requires Sound(s.tables)
    ensures Loop.Decided(s, run).0 == s <==> (Loop.Asked(s, run).Some? ==> AsksInVain(s, run))
  {
    if Loop.Asked(s, run).Some? {
      hide *;
      AskedInVain(s, run);
    } else {
      hide Sound, Loop.RunDecision;
    }
  }

  /** A run that gets past its guard leaves the rows that were there as the guard left them. */
  lemma DecidedKeepsRows(s: Loop.State, run: Loop.RunInput)
    requires Sound(s.tables)
    ensures var r := Loop.Decided(s, run).0;
            && r.now == s.now && |r.tables.executions| >= |s.tables.executions|
            && r.tables.executions[..|s.tables.executions|] == s.tables.executions
  {
    Sequence.DecidedRow(s, run);
    hide Sound, Loop.Decided, Sequence.Adds;
  }

  lemma RunInVain(s: Loop.State, run: Loop.RunInput)
    requires Sound(s.tables)
    ensures var r := Loop.RunOnce(s, run).0; r == s.(now := r.now) <==> StandsStill(s, run)
  {
    hide Sound, Loop.Decided, Loop.AfterGuard, Loop.Asked, AsksInVain, GuardIdle, BlockedNow;
    var (s0, block) := Loop.AfterGuard(s, run);
    GuardKeepsClients(s, run, NoKey);
    GuardIsSound(s, run);
    GuardIdleExactly(s, run);
    if block.None? {
      var s1 := Loop.AtDecision(s, run);
      DecidedInVain(s1, run);
      DecidedKeepsRows(s1, run);
      GuardEndsOrder(s, run);
    }
  }

  /** A guard that lets the run through has left everything alone, or has ended an order that was pending. */
  lemma GuardEndsOrder(s: Loop.State, run: Loop.RunInput)
    requires Loop.AfterGuard(s, run).1.None?
    ensures var s0 := Loop.AfterGuard(s, run).0;
            || s0 == s
            || (|s0.tables.executions| == |s.tables.executions| && s0.tables.executions != s.tables.executions)
  {
    var id := Store.Latest(s.tables.executions);
    if run.kind.Automatic? && id.Some? && s.tables.executions[id.value].status.Submitted? {
      var works := run.accountUsable && run.fetchWorks;
      if Loop.Reconciled(s, id.value, run.config, works, run.guardFetch).Some? {
        ReconciledKeepsClients(s, id.value, run.config, works, run.guardFetch);
      }
    }
    hide Loop.Reconciled;
  }

  /** From a sound store: a run step changes nothing but the time if and only if the lifecycle it loaded was not active,
      the service is down, an exit holds the lock, or the loop stands still under it. */
  lemma RunInertExactly(s: State, e: Event)
    requires e.Automatic? && Sound(s.loop.tables)
    ensures Inert(s, e) <==> !Proceeds(s, e) || StandsStill(s.loop, e.run)
  {
    hide Sound, Loop.RunOnce, StandsStill, Enqueue;
    RunInVain(s.loop, e.run);
  }

  lemma AttemptKeepsSound(s: State, execution: nat, a: Answers)
    requires Sound(s.loop.tables)
    ensures Sound(ReconcileExecution(s, execution, a).0.loop.tables)
  {
    if execution < |s.loop.tables.executions| {
      if s.loop.tables.executions[execution].status.Submitted?
         && Loop.Reconciled(s.loop, execution, a.config, a.works, a.refresh).Some? {
        ReconciledIsSound(s.loop, execution, a.config, a.works, a.refresh);
        JudgedKeepsTables(s.(loop := Loop.Reconciled(s.loop, execution, a.config, a.works, a.refresh).value), execution, a);
      }
      JudgedKeepsTables(s, execution, a);
    }
    hide Sound, Grows, Loop.Reconciled, Judged;
  }

  lemma JudgedKeepsTables(s: State, execution: nat, a: Answers)
    requires execution < |s.loop.tables.executions|
    ensures Judged(s, execution, a).0.loop.tables == s.loop.tables
  {
    hide LivePosition, WithStatus, FindByExecution;
  }

  lemma ExitKeepsSound(s: State, e: Event)
    requires Sound(s.loop.tables) && (e.ExitPlace? || e.ExitEnd?)
    ensures Sound(Step(s, e).loop.tables)
  {
    if e.ExitPlace? {
      if s.stage.Opened? && s.stage.request < |s.rows.requests| {
        PlacingKeepsSound(s, s.stage.request, s.stage.context, e.exit);
      }
      hide Sound, ExitPlaced;
    } else {
      hide Sound, LivePosition, WithStatus, RefreshedAfter, Enqueue, Finished;
    }
  }

  lemma PlacingKeepsSound(s: State, request: nat, context: Context, a: ExitAnswers)
    requires Sound(s.loop.tables) && request < |s.rows.requests|
    ensures Sound(ExitPlaced(s, request, context, a).loop.tables)
  {
    hide Sound, LoadExit, ClosePosition, Loop.Executed, Finished;
    var loaded := LoadExit(context.config, a.fetch, a.ticker, s.loop.snapshot, s.loop.now);
    if loaded.Loaded? {
      var r := ClosePosition(context.config, ToPosition(context.config.targetSymbol, loaded.position));
      if r.Ok? && r.value.side.Some? {
        var run := Loop.RunInput(context.configId, context.config, 0, Loop.OtherReason, a.accountUsable, true,
                                 FetchFailed, 0, a.place, FetchFailed);
        var exposure := match loaded.position
                        case None => ObservedExposure(0.0, 0.0, s.loop.now)
                        case Some(p) => ObservedExposure(0.0, p.mark, p.observedAt);
        ExecutedIsSound(s.loop.(snapshot := loaded.stored), run, exposure, loaded.position, r.value);
      }
    }
  }

  lemma OutsideKeepsTables(loop: Loop.State, elapsed: nat, event: Loop.Event)
    requires !event.Run? && !event.ReconcileTask?
    ensures Loop.Step(loop, Loop.Timed(elapsed, event)).tables == loop.tables
  {
  }

  lemma StepKeepsSound(s: State, e: Event)
    requires Sound(s.loop.tables)
    ensures Sound(Step(s, e).loop.tables)
  {
    hide Sound, Loop.RunOnce, Loop.Step, Handled, ReconcileExecution, ExitPlaced, ExitEnded, RecoveredUpTo, Begun, Enqueue;
    match e
    case Outside(elapsed, event) =>
      if !event.Run? && !event.ReconcileTask? {
        OutsideKeepsTables(s.loop, elapsed, event);
      }
    case Automatic(run, loaded, queueing) => RunIsSound(s.loop, run);
    case Chain(i, a, queueing) =>
      if i < |s.tasks| {
        AttemptKeepsSound(s.(tasks := Without(s.tasks, i)), s.tasks[i].execution, a);
        HandledKeepsTables(s, i, a, queueing);
      }
    case ChainCrash(i, a, stored) =>
      if i < |s.tasks| {
        AttemptKeepsSound(s.(tasks := Without(s.tasks, i)), s.tasks[i].execution, a);
      }
    case Recover(queueing) => RecoveryKeepsLoop(s, |s.rows.requests|, queueing);
    case ExitPlace(_) => ExitKeepsSound(s, e);
    case ExitEnd(_, _, _) => ExitKeepsSound(s, e);
    case _ =>
  }

  lemma HandledKeepsTables(s: State, i: nat, a: Answers, queueing: Queueing)
    requires i < |s.tasks|
    ensures Handled(s, i, a, queueing).loop ==
            ReconcileExecution(s.(tasks := Without(s.tasks, i)), s.tasks[i].execution, a).0.loop
  {
    hide ReconcileExecution, FindByExecution, Enqueue, DelayAt;
  }

  lemma {:induction false} RecoveryKeepsLoop(s: State, n: nat, queueing: Queueing)
    requires n <= |s.rows.requests|
    ensures RecoveredUpTo(s, n, queueing).loop == s.loop
    decreases n
  {
    hide Enqueue;
    if n > 0 {
      RecoveryKeepsLoop(s, n - 1, queueing);
    }
  }

  predicate AllRunsStandStill(s: State, events: seq<Event>)
    decreases |events|
  {
    events == []
    || ((Proceeds(s, events[0]) ==> StandsStill(s.loop, events[0].run))
        && AllRunsStandStill(Step(s, events[0]), events[1..]))
  }

  /** After a close has begun, over every sequence of steps: the runs change nothing if and only if none that loaded the
      active configuration gets the lock without standing still. */
  lemma {:induction false} RunsAreInertExactly(s: State, events: seq<Event>)
    requires !s.rows.lifecycle.Active? && Sound(s.loop.tables)
    ensures RunsAreInert(s, events) <==> AllRunsStandStill(s, events)
    decreases |events|
  {
    if events != [] {
      LifecycleStaysClosed(s, events[0]);
      StepKeepsSound(s, events[0]);
      if events[0].Automatic? {
        RunInertExactly(s, events[0]);
      }
      hide Step, StandsStill, Sound;
      RunsAreInertExactly(Step(s, events[0]), events[1..]);
    }
  }
}
