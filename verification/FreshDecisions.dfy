/** Whole runs of the hedge loop on an exchange that behaves: every order an automatic run submits was decided on the
    quantity really held, and the position never changes side except through zero. */
module FreshDecisions {
  import opened Money
  import opened Calculator
  import opened Positions
  import opened OrderStore
  import opened ExitPosition
  import opened HedgeLoop
  import opened Idempotence
  import opened Sequencing
  import Sync = PositionSync

  // ---- What is assumed of the outside world ---------------------------------------------------------------------

  /** A position fetch that works shows the quantity held on the target symbol, with a notional of its sign. */
  predicate FetchFits(target: string, fetch: Fetch, held: real) {
    fetch.Fetched? ==>
      match FirstOpen(target, fetch.positions)
      case None => held == 0.0
      case Some(p) => SignedQuantity(p) == held && Sign(SignedNotional(p)) == Sign(held)
  }

  /** The same for the sums a position sync folds. */
  predicate SyncFits(target: string, fetch: Fetch, held: real) {
    fetch.Fetched? ==>
      && Sync.SignedSum(fetch.positions, Sync.Normalize(target), true) == held
      && Sign(Sync.SignedSum(fetch.positions, Sync.Normalize(target), false)) == Sign(held)
  }

  /** An order executes within its quantity, reduce-only orders within what is held, failed and canceled ones not at
      all. */
  predicate KeepsRules(o: ExchangeOrder, held: real) {
    && 0.0 <= o.filled <= o.quantity
    && (o.reduceOnly ==> o.filled <= Closable(held, o.side))
    && (o.status.Submitted? || o.status.Filled? || o.status.Failed? || o.status.Canceled?)
    && (o.status.Failed? || o.status.Canceled? ==> o.filled == 0.0)
  }

  predicate RunAllowed(s: State, run: RunInput) {
    var r := RunOnce(s, run).0;
    && run.kind.Automatic?
    && FetchFits(run.config.targetSymbol, run.guardFetch, s.held)
    && FetchFits(run.config.targetSymbol, run.placeFetch, r.held)
    && (|r.orders| > |s.orders| ==> KeepsRules(r.orders[|s.orders|], s.held))
  }

  /** The exchange behaves, and only automatic runs trade. */
  predicate Behaves(s: State, event: Event) {
    match event
    case Tick => true
    case Fill(j, amount, done) =>
      && j < |s.orders| && s.orders[j].status.Submitted?
      && 0.0 <= amount && s.orders[j].filled + amount <= s.orders[j].quantity
      && (s.orders[j].reduceOnly ==> amount <= Closable(s.held, s.orders[j].side))
    case EndUnfilled(j, status) =>
      && j < |s.orders| && s.orders[j].status.Submitted? && s.orders[j].filled == 0.0
      && (status.Failed? || status.Canceled?)
    case ReconcileTask(id, c, works, fetch) => FetchFits(c.targetSymbol, fetch, s.held)
    case SyncPosition(target, fetch) => SyncFits(target, fetch, s.held)
    case SyncExposure(notional, mark) => true
    case Run(run) => RunAllowed(s, run)
  }

  /** The run stores a first execution for what it asks for, live or dry. */
  predicate Executes(s: State, run: RunInput) {
    var d := Asked(s, run);
    && d.Some? && (run.config.dryRun || run.accountUsable)
    && FindByClient(s.tables.executions, KeyOf(run.configId, s.exposure.value.observedAt, d.value)).None?
  }

  /** The last call of PlaceOrder for a key. */
  function CallFor(placements: seq<Placement>, key: Key): (r: Option<Placement>)
    ensures r.Some? ==> r.value in placements && r.value.key == key
  {
    if placements == [] then None
    else if placements[|placements| - 1].key == key then Some(placements[|placements| - 1])
    else CallFor(placements[..|placements| - 1], key)
  }

  predicate LastPlaced(s: State) {
    && s.tables.executions != [] && Last(s).orderId.Some? && Last(s).orderId.value < |s.orders|
    && CallFor(s.placements, Last(s).clientId).Some?
  }

  /** What the last order has left by the loop's own records: the stored quantity the order was decided on, and the filled
      quantity of its execution. */
  function Expected(s: State): real
    requires LastPlaced(s)
  {
    CallFor(s.placements, Last(s).clientId).value.decidedOn
    + Directed(s.orders[Last(s).orderId.value].side, Last(s).filled)
  }

  /** The stored snapshot is not what the last fill has left by the loop's own records, although its stamp is not before
      that fill was recorded. */
  predicate HidesFill(s: State) {
    && LastPlaced(s) && Last(s).status.Filled? && QuantityOf(s.snapshot) != Expected(s)
    && s.snapshot.Some? && s.snapshot.value.observedAt >= Last(s).updatedAt
  }

  /** The run gets past its guard while a fill is hidden, and then executes an order. */
  predicate ActsBlind(s: State, run: RunInput) {
    && AfterGuard(s, run).1.None? && HidesFill(AfterGuard(s, run).0)
    && Executes(AtDecision(s, run), run)
  }

  /** All that is assumed of the clocks. */
  predicate ClocksFit(s: State, event: Event) {
    event.Run? ==> !ActsBlind(s, event.run)
  }

  predicate Allowed(s: State, event: Event) {
    Behaves(s, event) && ClocksFit(s, event)
  }

  predicate AllowedStep(s: State, timed: Timed) {
    Allowed(s.(now := s.now + timed.elapsed), timed.event)
  }

  predicate AllowedTrace(s: State, steps: seq<Timed>)
    decreases |steps|
  {
    steps == [] || (AllowedStep(s, steps[0]) && AllowedTrace(Step(s, steps[0]), steps[1..]))
  }

  // ---- The invariant --------------------------------------------------------------------------------------------

  /** Only the order of an open last execution can still move the position. */
  predicate OwnedOrders(s: State) {
    forall j :: 0 <= j < |s.orders| && s.orders[j].status.Submitted? ==> Pending(s) && Last(s).orderId == Some(j)
  }

  /** An order that is not reduce-only works in the direction of the position it started from. */
  predicate Directional(o: ExchangeOrder, start: real, held: real) {
    o.reduceOnly || (StaysOnSide(start, Directed(o.side, 1.0)) && StaysOnSide(held, Directed(o.side, 1.0)))
  }

  predicate OpenLinked(s: State) {
    Pending(s) ==>
      && Last(s).orderId.Some? && Last(s).orderId.value < |s.orders| && s.placements != []
      && var o := s.orders[Last(s).orderId.value];
         && 0.0 <= o.filled <= o.quantity
         && (o.status.Submitted? || o.status.Filled? || o.status.Failed? || o.status.Canceled?)
         && (o.status.Failed? || o.status.Canceled? ==> o.filled == 0.0)
         && Directional(o, s.placements[|s.placements| - 1].held, s.held)
  }

  predicate SnapshotSane(s: State) {
    s.snapshot.Some? ==> Sign(s.snapshot.value.quantity) == Sign(s.snapshot.value.notional)
  }

  predicate Truthful(s: State) {
    QuantityOf(s.snapshot) == s.held
  }

  /** The snapshot is the truth, except perhaps after a fill. */
  predicate TrueUnlessFilled(s: State) {
    if s.tables.executions == [] then Truthful(s)
    else
      match Last(s).status
      case Submitted =>
        (Last(s).orderId.Some? && Last(s).orderId.value < |s.orders|
         && s.orders[Last(s).orderId.value].filled == 0.0) ==> Truthful(s)
      case Filled => true
      case _ => Truthful(s)
  }

  /** The quantity held is what the last order was placed on and what of it was filled; a filled execution shows that
      part. */
  predicate Accounted(s: State) {
    s.tables.executions != [] && (Last(s).status.Submitted? || Last(s).status.Filled?) ==>
      && LastPlaced(s)
      && var o := s.orders[Last(s).orderId.value];
         && s.held == CallFor(s.placements, Last(s).clientId).value.held + Directed(o.side, o.filled)
         && (Last(s).status.Filled? ==> Last(s).filled == o.filled)
  }

  predicate DecidedOnTruth(s: State) {
    forall i :: 0 <= i < |s.placements| ==> s.placements[i].decidedOn == s.placements[i].held
  }

  /** From one order to the next, and from the last order to now, the position does not change side. */
  predicate SidesKept(s: State) {
    && (forall i :: 0 <= i < |s.placements| - 1 ==> StaysOnSide(s.placements[i].held, s.placements[i + 1].held))
    && (s.placements != [] ==> StaysOnSide(s.placements[|s.placements| - 1].held, s.held))
  }

  predicate Regular(s: State) {
    && Sound(s.tables) && Chronological(s) && OwnedOrders(s) && OpenLinked(s)
    && SnapshotSane(s) && TrueUnlessFilled(s) && Accounted(s) && DecidedOnTruth(s) && SidesKept(s)
  }

  lemma TimePasses(s: State, elapsed: nat)
    requires Regular(s)
    ensures Regular(s.(now := s.now + elapsed))
  {
    hide Sound;
    var t := s.(now := s.now + elapsed);
    assert Pending(t) == Pending(s);
    assert s.tables.executions != [] ==> Last(t) == Last(s);
  }

  /** Storing the live position keeps everything. */
  lemma StoredTruth(s: State, snapshot: Snapshot)
    requires Regular(s) && snapshot.quantity == s.held && Sign(snapshot.notional) == Sign(s.held)
    ensures var t := s.(snapshot := Some(snapshot)); Regular(t) && Truthful(t)
  {
    hide Sound;
    var t := s.(snapshot := Some(snapshot));
    assert Truthful(t);
    assert Pending(t) == Pending(s);
    assert s.tables.executions != [] ==> Last(t) == Last(s);
  }

  lemma RefreshedIsRegular(
    s: State, c: Config, previous: Option<Snapshot>, side: Side, quantity: real, e: Execution, fetch: Fetch)
    requires Regular(s) && FetchFits(c.targetSymbol, fetch, s.held)
    ensures var r := Refreshed(s, c, previous, side, quantity, e, fetch);
            && Regular(r) && r == s.(snapshot := r.snapshot)
            && (r == s || Truthful(r))
  {
    hide Regular, FirstOpen, ExpectedQuantity, SignedQuantity, SignedNotional;
    var r := Refreshed(s, c, previous, side, quantity, e, fetch);
    if r.snapshot != s.snapshot {
      StoredTruth(s, r.snapshot.value);
    }
  }

  // ---- Reconciliation and the guard -----------------------------------------------------------------------------

  /** The state after the open execution took over what the exchange says about its order. */
  function TookOver(s: State, j: nat): State
    requires s.tables.executions != [] && Last(s).planId < |s.tables.plans| && j < |s.orders|
  {
    s.(tables := Updated(s.tables, |s.tables.executions| - 1, Some(j), PersistedStatus(s.orders[j].status),
                         s.orders[j].filled, s.now))
  }

  lemma TookOverLast(s: State, j: nat)
    requires s.tables.executions != [] && Last(s).planId < |s.tables.plans| && j < |s.orders|
    requires Chronological(s)
    ensures var t := TookOver(s, j);
            && t == s.(tables := t.tables) && |t.tables.executions| == |s.tables.executions|
            && Last(t).orderId == Some(j) && Last(t).updatedAt == s.now && Last(t).clientId == Last(s).clientId
            && Last(t).status == PersistedStatus(s.orders[j].status) && Last(t).filled == s.orders[j].filled
            && Chronological(t)
  {
    var n := |s.tables.executions| - 1;
    var t := TookOver(s, j);
    assert forall i :: 0 <= i < n ==> t.tables.executions[i] == s.tables.executions[i];
  }

  /** What is known of the pending order carries over to the state that took over what the exchange says about it. */
  lemma TookOverLinks(s: State, t: State, j: nat)
    requires OwnedOrders(s) && OpenLinked(s) && Pending(s) && Last(s).orderId == Some(j)
    requires t == s.(tables := t.tables) && t.tables.executions != [] && Last(t).orderId == Some(j)
    requires j < |s.orders| && Last(t).status == PersistedStatus(s.orders[j].status)
    ensures OwnedOrders(t) && OpenLinked(t)
  {
    hide StaysOnSide;
  }

  lemma TookOverTruth(s: State, t: State, j: nat)
    requires OpenLinked(s) && TrueUnlessFilled(s) && Accounted(s) && Pending(s) && Last(s).orderId == Some(j)
    requires t == s.(tables := t.tables) && t.tables.executions != [] && Last(t).orderId == Some(j)
    requires j < |s.orders| && Last(t).status == PersistedStatus(s.orders[j].status)
    requires Last(t).filled == s.orders[j].filled && Last(t).clientId == Last(s).clientId
    ensures TrueUnlessFilled(t) && Accounted(t)
  {
    hide StaysOnSide, CallFor;
  }

  lemma TookOverIsRegular(s: State, j: nat)
    requires Regular(s) && Pending(s) && Last(s).orderId == Some(j)
    ensures j < |s.orders| && Last(s).planId < |s.tables.plans|
    ensures Regular(TookOver(s, j))
  {
    hide AllWaiting, OwnedOrders, TrueUnlessFilled, Accounted, Directional, Stamped;
    StatusUpdated(s.tables, |s.tables.executions| - 1, Some(j), PersistedStatus(s.orders[j].status),
                  s.orders[j].filled, s.now);
    TookOverLast(s, j);
    hide Sound, Chronological;
    TookOverLinks(s, TookOver(s, j), j);
    TookOverTruth(s, TookOver(s, j), j);
    hide TookOver, OpenLinked;
  }

  lemma ReconciledIsRegular(s: State, id: nat, c: Config, works: bool, fetch: Fetch)
    requires Regular(s) && FetchFits(c.targetSymbol, fetch, s.held)
    requires id < |s.tables.executions| && s.tables.executions[id].status.Submitted?
    ensures id == |s.tables.executions| - 1
    ensures var r := Reconciled(s, id, c, works, fetch);
            r.Some? ==>
              && Regular(r.value)
              && r.value == s.(tables := r.value.tables, snapshot := r.value.snapshot)
              && |r.value.tables.executions| == |s.tables.executions| && Last(r.value).updatedAt == s.now
              && (r.value.snapshot == s.snapshot || Truthful(r.value))
  {
    assert Pending(s) && id == |s.tables.executions| - 1;
    var j := Last(s).orderId.value;
    TookOverIsRegular(s, j);
    TookOverLast(s, j);
    hide Regular, Pending, Refreshed, FetchFits;
    var t := TookOver(s, j);
    if Reconciled(s, id, c, works, fetch).Some? {
      RefreshedIsRegular(t, c, t.snapshot, s.tables.plans[Last(s).planId].side, s.orders[j].filled, Last(t), fetch);
    }
  }

  lemma RegularSeesLast(s: State)
    requires Regular(s) && s.tables.executions != []
    ensures Latest(s.tables.executions) == Some(|s.tables.executions| - 1)
  {
    hide Sound, Latest;
    LatestIsLast(s);
  }

  /** After a fill the loop's own records tell what is held. */
  lemma FillIsAccounted(s: State)
    requires Regular(s) && s.tables.executions != [] && Last(s).status.Filled?
    ensures LastPlaced(s) && Expected(s) == s.held
  {
    hide Sound, Chronological;
  }

  /** The state after the guard; a run that gets past it looks at the truth, unless a fill is hidden, and no order is
      outstanding. */
  lemma GuardedIsRegular(s: State, run: RunInput)
    requires Regular(s) && FetchFits(run.config.targetSymbol, run.guardFetch, s.held)
    ensures var (r, block) := Guarded(s, run);
            && Regular(r)
            && r == s.(tables := r.tables, snapshot := r.snapshot)
            && (block.None? && !HidesFill(r) ==> Truthful(r) && !Pending(r))
  {
    hide Reconciled, Regular, Latest, BlockAfter, Pending, HidesFill, Truthful, FetchFits;
    if s.tables.executions == [] {
      NothingPlacedYet(s);
    } else {
      RegularSeesLast(s);
      var id := |s.tables.executions| - 1;
      if s.tables.executions[id].status.Submitted? {
        ReconciledIsRegular(s, id, run.config, run.accountUsable && run.fetchWorks, run.guardFetch);
      }
      var (r, block) := Guarded(s, run);
      if block.None? && !HidesFill(r) {
        PassedMeansTruth(r, run.cooldown);
      }
    }
  }

  lemma NothingPlacedYet(s: State)
    requires Regular(s) && s.tables.executions == []
    ensures Truthful(s) && !Pending(s)
  {
    hide Sound;
  }

  lemma PassedMeansTruth(r: State, cooldown: int)
    requires Regular(r) && !HidesFill(r) && r.tables.executions != []
    requires BlockAfter(r, |r.tables.executions| - 1, cooldown).None?
    ensures Truthful(r) && !Pending(r)
  {
    LastIsStamped(r);
    if Last(r).status.Filled? {
      FillIsAccounted(r);
    }
    hide Sound;
  }

  // ---- Placing an order -----------------------------------------------------------------------------------------

  /** Executing part of an order keeps the side, and an order that is not reduce-only keeps working in its direction. */
  lemma MovesWithinSide(start: real, held: real, side: Side, amount: real, reduceOnly: bool)
    requires 0.0 <= amount && (reduceOnly ==> amount <= Closable(held, side))
    requires StaysOnSide(start, held)
    requires !reduceOnly ==> StaysOnSide(start, Directed(side, 1.0)) && StaysOnSide(held, Directed(side, 1.0))
    ensures var after := held + Directed(side, amount);
            && StaysOnSide(held, after) && StaysOnSide(start, after)
            && (!reduceOnly ==> StaysOnSide(after, Directed(side, 1.0)))
  {
  }

  lemma TablesReplaced(s: State, t: Tables)
    requires Regular(s) && Sound(t) && t.executions == s.tables.executions
    ensures Regular(s.(tables := t))
  {
    hide Sound;
    var r := s.(tables := t);
    assert Pending(r) == Pending(s);
    assert s.tables.executions != [] ==> Last(r) == Last(s);
  }

  /** A call of PlaceOrder that left no live order. */
  lemma PlacementLogged(s: State, p: Placement)
    requires Regular(s) && !Pending(s) && p.decidedOn == s.held && p.held == s.held
    requires s.tables.executions != [] ==> p.key != Last(s).clientId
    ensures Regular(s.(placements := s.placements + [p]))
  {
    hide Sound;
    var r := s.(placements := s.placements + [p]);
    assert Pending(r) == Pending(s);
    assert s.tables.executions != [] ==> Last(r) == Last(s);
    LoggedSides(s, r, p);
    if s.tables.executions != [] {
      OtherCall(s.placements, p, Last(s).clientId);
    }
  }

  lemma OtherCall(placements: seq<Placement>, p: Placement, key: Key)
    ensures CallFor(placements + [p], key) == if p.key == key then Some(p) else CallFor(placements, key)
  {
    assert (placements + [p])[..|placements|] == placements;
  }

  lemma RefusedOrderLogged(s: State, o: ExchangeOrder)
    requires Regular(s) && !Pending(s) && !o.status.Submitted?
    ensures Regular(s.(orders := s.orders + [o]))
  {
    hide Sound;
    var r := s.(orders := s.orders + [o]);
    assert Pending(r) == Pending(s);
    assert s.tables.executions != [] ==> Last(r) == Last(s);
    assert OwnedOrders(r) && TrueUnlessFilled(r);
  }

  predicate Appends(s: State, t: Tables, e: Execution) {
    Sound(t) && t.executions == s.tables.executions + [e] && e.updatedAt == s.now
  }

  lemma AppendedLast(s: State, t: Tables, e: Execution)
    requires Regular(s) && !Pending(s) && Appends(s, t, e)
    ensures var r := s.(tables := t); r.tables.executions != [] && Last(r) == e && Chronological(r)
  {
    if s.tables.executions != [] {
      LastIsStamped(s);
      hide Sound;
      assert Terminal(Last(s).status);
    }
  }

  /** An execution that ended without moving the position. */
  lemma EndedExecutionAdded(s: State, t: Tables, e: Execution)
    requires Regular(s) && Truthful(s) && !Pending(s) && Appends(s, t, e) && (e.status.Failed? || e.status.DryRun?)
    ensures Regular(s.(tables := t))
  {
    AppendedLast(s, t, e);
    hide Sound, Chronological;
    assert !Pending(s.(tables := t));
  }

  lemma LoggedSides(s: State, r: State, p: Placement)
    requires SidesKept(s) && DecidedOnTruth(s)
    requires p.decidedOn == s.held && p.held == s.held && r.placements == s.placements + [p]
    requires StaysOnSide(s.held, r.held)
    ensures SidesKept(r) && DecidedOnTruth(r)
  {
    assert r.placements[..|s.placements|] == s.placements && r.placements[|s.placements|] == p;
  }

  lemma AcceptedIsAccounted(s: State, r: State, e: Execution, o: ExchangeOrder, p: Placement)
    requires Truthful(s) && KeepsRules(o, s.held) && e.status == o.status && e.filled == o.filled
    requires e.orderId == Some(|s.orders|) && p.held == s.held && p.key == e.clientId
    requires r == Accepting(s, o, p).(tables := r.tables) && r.tables.executions != [] && Last(r) == e
    ensures TrueUnlessFilled(r) && Accounted(r)
  {
    OtherCall(s.placements, p, e.clientId);
    hide CallFor, Closable;
    assert r.orders[|s.orders|] == o;
  }

  lemma AcceptedIsLinked(s: State, r: State, e: Execution, o: ExchangeOrder, p: Placement)
    requires OwnedOrders(s) && !Pending(s) && KeepsRules(o, s.held) && e.status == o.status
    requires e.orderId == Some(|s.orders|) && p.held == s.held && (o.reduceOnly || Directional(o, s.held, r.held))
    requires r == Accepting(s, o, p).(tables := r.tables) && r.tables.executions != [] && Last(r) == e
    ensures OwnedOrders(r) && OpenLinked(r)
  {
    hide StaysOnSide, Closable;
    assert r.orders[|s.orders|] == o;
    assert r.placements[|r.placements| - 1] == p;
  }

  lemma AcceptedOrderAdded(s: State, t: Tables, e: Execution, o: ExchangeOrder, p: Placement)
    requires Regular(s) && Truthful(s) && !Pending(s) && Appends(s, t, e)
    requires KeepsRules(o, s.held) && e.status == o.status && e.filled == o.filled && e.orderId == Some(|s.orders|)
    requires p.decidedOn == s.held && p.held == s.held && p.key == e.clientId
    requires o.reduceOnly || StaysOnSide(s.held, Directed(o.side, 1.0))
    ensures Regular(Accepting(s, o, p).(tables := t)) && StaysOnSide(s.held, Accepting(s, o, p).(tables := t).held)
  {
    hide Sound, OwnedOrders, OpenLinked, TrueUnlessFilled, Accounted, SidesKept, DecidedOnTruth, Chronological;
    AppendedLast(s, t, e);
    MovesWithinSide(s.held, s.held, o.side, o.filled, o.reduceOnly);
    var r := Accepting(s, o, p).(tables := t);
    LoggedSides(s, r, p);
    SameLast(r, s.(tables := t));
    AcceptedIsAccounted(s, r, e, o, p);
    AcceptedIsLinked(s, r, e, o, p);
  }

  lemma SameLast(a: State, b: State)
    requires a.tables == b.tables && a.now == b.now
    ensures Chronological(b) ==> Chronological(a)
    ensures a.tables.executions != [] ==> Last(a) == Last(b)
  {
  }

  predicate RulesKept(s: State, r: State) {
    |r.orders| > |s.orders| ==> KeepsRules(r.orders[|s.orders|], s.held)
  }

  predicate Steered(s: State, d: Decision) {
    d.side.Some? && (d.reduceOnly || StaysOnSide(s.held, Directed(d.side.value, 1.0)))
  }

  lemma ExecutedIsRegular(
    s: State, run: RunInput, exposure: ObservedExposure, position: Option<Snapshot>, d: Decision)
    requires Regular(s) && Truthful(s) && !Pending(s)
    requires QuantityOf(position) == s.held && Steered(s, d)
    requires RulesKept(s, Executed(s, run, exposure, position, d).0)
    ensures var r := Executed(s, run, exposure, position, d).0;
            && Regular(r) && StaysOnSide(s.held, r.held) && r.now == s.now
  {
    var key := KeyOf(run.configId, exposure.observedAt, d);
    var plan := Plan(key, d.side.value, d.quantity, d.limitPrice, d.reduceOnly, d.reason,
                     if run.config.dryRun then DryRun else Planned, s.now);
    PlanKept(s.tables, plan, s.now);
    TablesReplaced(s, WithPlan(s.tables, plan, s.now).0);
    SameWithTables(s, WithPlan(s.tables, plan, s.now).0);
    hide Regular, Truthful, Pending, WithPlan, KeyOf, KeepsRules, FirstExecution, StaysOnSide;
    var (t1, planId) := WithPlan(s.tables, plan, s.now);
    SameSide(s.held);
    if FindByClient(t1.executions, key).None? {
      assert !HasExecution(t1, key);
      FirstExecutionIsRegular(s.(tables := t1), run, planId, key, d);
    }
  }

  lemma FirstExecutionIsRegular(s: State, run: RunInput, planId: nat, key: Key, d: Decision)
    requires ReadyToAppend(s, planId, key) && Steered(s, d)
    requires RulesKept(s, FirstExecution(s, run, planId, key, s.held, d).0)
    ensures var r := FirstExecution(s, run, planId, key, s.held, d).0;
            && Regular(r) && StaysOnSide(s.held, r.held) && r.now == s.now
  {
    SameSide(s.held);
    hide Regular, Truthful, Pending, KeepsRules, NewExecution, Recorded, RecordedDry, StaysOnSide, ReadyToAppend;
    if run.config.dryRun {
      DryRunIsRegular(s, planId, key);
    } else if run.accountUsable && run.place.PlaceError? {
      FailedPlacementIsRegular(s, planId, key, Placement(key, s.held, s.held, None));
    } else if run.accountUsable {
      AcceptedExecutionIsRegular(s, run, planId, key, d);
    } else {
      ReadyIsRegular(s, planId, key);
    }
  }

  lemma ReadyIsRegular(s: State, planId: nat, key: Key)
    requires ReadyToAppend(s, planId, key)
    ensures Regular(s)
  {
  }

  lemma AcceptedExecutionIsRegular(s: State, run: RunInput, planId: nat, key: Key, d: Decision)
    requires ReadyToAppend(s, planId, key) && Steered(s, d)
    requires !run.config.dryRun && run.accountUsable && run.place.Accepted?
    requires RulesKept(s, FirstExecution(s, run, planId, key, s.held, d).0)
    ensures var r := FirstExecution(s, run, planId, key, s.held, d).0;
            && Regular(r) && StaysOnSide(s.held, r.held) && r.now == s.now
  {
    hide Regular, Truthful, Pending, KeepsRules, NewExecution, Recorded, StaysOnSide;
    var o := ExchangeOrder(key, d.side.value, d.quantity, d.reduceOnly, run.place.status, run.place.filled);
    var p := Placement(key, s.held, s.held, Some(|s.orders|));
    RecordedKeepsOrders(Accepting(s, o, p), planId,
                        NewExecution(planId, key, Some(|s.orders|), o.status, o.filled, s.now));
    AcceptedPlacementIsRegular(s, planId, o, p);
  }

  lemma SameSide(held: real)
    ensures StaysOnSide(held, held)
  {
  }

  lemma SameWithTables(s: State, t: Tables)
    requires t.executions == s.tables.executions
    ensures var r := s.(tables := t);
            (Pending(r) <==> Pending(s)) && (Truthful(r) <==> Truthful(s))
  {
  }

  lemma RecordedKeepsOrders(s: State, planId: nat, e: Execution)
    requires planId < |s.tables.plans|
    ensures Recorded(s, planId, e).0 == s.(tables := Recorded(s, planId, e).0.tables)
  {
  }

  predicate ReadyToAppend(s: State, planId: nat, key: Key) {
    && Regular(s) && Truthful(s) && !Pending(s)
    && planId < |s.tables.plans| && s.tables.plans[planId].key == key && !HasExecution(s.tables, key)
  }

  lemma DryRunIsRegular(s: State, planId: nat, key: Key)
    requires ReadyToAppend(s, planId, key)
    ensures Regular(RecordedDry(s, NewExecution(planId, key, None, DryRun, 0.0, s.now)).0)
    ensures var r := RecordedDry(s, NewExecution(planId, key, None, DryRun, 0.0, s.now)).0;
            r == s.(tables := r.tables)
  {
    var e := NewExecution(planId, key, None, DryRun, 0.0, s.now);
    ExecutionAppended(s.tables, e, s.now);
    AppendedIsSound(s.tables, e, s.now);
    hide Regular, Pending;
    EndedExecutionAdded(s, s.tables.(executions := s.tables.executions + [e]), e);
  }

  lemma FailedPlacementIsRegular(s: State, planId: nat, key: Key, p: Placement)
    requires ReadyToAppend(s, planId, key) && p.decidedOn == s.held && p.held == s.held && p.key == key
    ensures var r := Recorded(s.(placements := s.placements + [p]), planId,
                              NewExecution(planId, key, None, Failed, 0.0, s.now)).0;
            Regular(r) && r == s.(placements := s.placements + [p], tables := r.tables)
  {
    var e := NewExecution(planId, key, None, Failed, 0.0, s.now);
    ReadyIsSound(s, planId, key);
    NewKey(s, planId, key);
    NewIsStamped(e, s.now);
    ExecutionAppended(s.tables, e, s.now);
    AppendedIsSound(s.tables, e, s.now);
    hide Regular, Sound, Pending, Truthful, Stamped, HasExecution, Grows;
    PlacementLogged(s, p);
    SameWithPlacements(s, p);
    EndedExecutionAdded(s.(placements := s.placements + [p]), WithLive(s.tables, e, s.now), e);
  }

  /** The answer of PlaceOrder is recorded. */
  lemma RecordedPlacementIsRegular(s: State, planId: nat, o: ExchangeOrder, p: Placement)
    requires ReadyToAppend(s, planId, o.clientId) && Recordable(o.status)
    requires KeepsRules(o, s.held) && (o.reduceOnly || StaysOnSide(s.held, Directed(o.side, 1.0)))
    requires p.decidedOn == s.held && p.held == s.held && p.key == o.clientId
    ensures var s1 := Accepting(s, o, p);
            var r := Recorded(s1, planId, NewExecution(planId, o.clientId, Some(|s.orders|), o.status, o.filled, s.now)).0;
            Regular(r) && r == s1.(tables := r.tables) && StaysOnSide(s.held, r.held)
  {
    var e := NewExecution(planId, o.clientId, Some(|s.orders|), o.status, o.filled, s.now);
    ReadyIsSound(s, planId, o.clientId);
    NewIsStamped(e, s.now);
    ExecutionAppended(s.tables, e, s.now);
    AppendedIsSound(s.tables, e, s.now);
    hide Regular, Sound, Truthful, Pending, KeepsRules, StaysOnSide, Stamped, HasExecution, Grows;
    AcceptedOrderAdded(s, WithLive(s.tables, e, s.now), e, o, p);
  }

  lemma ReadyIsSound(s: State, planId: nat, key: Key)
    requires ReadyToAppend(s, planId, key)
    ensures Sound(s.tables)
  {
    hide Sound;
  }

  /** The database refuses the answer's status. */
  lemma UnrecordedPlacementIsRegular(s: State, planId: nat, o: ExchangeOrder, p: Placement)
    requires ReadyToAppend(s, planId, o.clientId) && !Recordable(o.status)
    requires KeepsRules(o, s.held)
    requires p.decidedOn == s.held && p.held == s.held && p.key == o.clientId
    ensures var s1 := Accepting(s, o, p);
            var r := Recorded(s1, planId, NewExecution(planId, o.clientId, Some(|s.orders|), o.status, o.filled, s.now)).0;
            Regular(r) && r == s1 && r.held == s.held
  {
    NewKey(s, planId, o.clientId);
    hide Regular, Pending, Truthful;
    PlacementLogged(s, p);
    SameWithPlacements(s, p);
    RefusedOrderLogged(s.(placements := s.placements + [p]), o);
    assert Accepting(s, o, p) == s.(placements := s.placements + [p]).(orders := s.orders + [o]);
  }

  lemma SameWithPlacements(s: State, p: Placement)
    ensures Pending(s.(placements := s.placements + [p])) <==> Pending(s)
    ensures Truthful(s.(placements := s.placements + [p])) <==> Truthful(s)
  {
  }

  lemma NewKey(s: State, planId: nat, key: Key)
    requires ReadyToAppend(s, planId, key)
    ensures s.tables.executions != [] ==> key != Last(s).clientId
  {
    hide Regular;
  }

  /** PlaceOrder answered; the answer is recorded unless the database refuses its status. */
  lemma AcceptedPlacementIsRegular(s: State, planId: nat, o: ExchangeOrder, p: Placement)
    requires ReadyToAppend(s, planId, o.clientId)
    requires KeepsRules(o, s.held) && (o.reduceOnly || StaysOnSide(s.held, Directed(o.side, 1.0)))
    requires p.decidedOn == s.held && p.held == s.held && p.key == o.clientId
    ensures var s1 := Accepting(s, o, p);
            var r := Recorded(s1, planId, NewExecution(planId, o.clientId, Some(|s.orders|), o.status, o.filled, s.now)).0;
            Regular(r) && r == s1.(tables := r.tables) && StaysOnSide(s.held, r.held)
  {
    hide Regular, ReadyToAppend, Recorded, KeepsRules, StaysOnSide, NewExecution;
    SameSide(s.held);
    if Recordable(o.status) {
      RecordedPlacementIsRegular(s, planId, o, p);
    } else {
      UnrecordedPlacementIsRegular(s, planId, o, p);
    }
  }

  // ---- Steps and runs -------------------------------------------------------------------------------------------

  /** The order an automatic run decides on starts from the truth and cannot reverse it. */
  lemma DecisionIsSteered(s: State, run: RunInput)
    requires Truthful(s) && SnapshotSane(s) && run.kind.Automatic? && s.exposure.Some?
    requires var r := RunDecision(run, s.exposure.value, RunPosition(s, s.exposure.value)); r.Ok? && r.value.IsOrder()
    ensures QuantityOf(RunPosition(s, s.exposure.value)) == s.held
    ensures Steered(s, RunDecision(run, s.exposure.value, RunPosition(s, s.exposure.value)).value)
  {
    hide Calculate;
    var e := Exposure(s.exposure.value.notional, s.exposure.value.mark);
    var p := ToPosition(run.config.targetSymbol, RunPosition(s, s.exposure.value));
    NoFlipInOneOrder(run.config, e, p, 0.0);
  }

  lemma DecidedIsRegular(s: State, run: RunInput)
    requires Regular(s) && Truthful(s) && !Pending(s) && run.kind.Automatic?
    requires RulesKept(s, Decided(s, run).0)
    requires FetchFits(run.config.targetSymbol, run.placeFetch, Decided(s, run).0.held)
    ensures Regular(Decided(s, run).0) && StaysOnSide(s.held, Decided(s, run).0.held)
  {
    hide Regular, Truthful, Pending, Executed, Refreshed, RunDecision, Steered, FetchFits, StaysOnSide;
    SameSide(s.held);
    if Asked(s, run).Some? {
      var position, d := RunPosition(s, s.exposure.value), Asked(s, run).value;
      AskedIsSteered(s, run);
      var (s1, id) := Executed(s, run, s.exposure.value, position, d);
      if id.Some? {
        RefreshedKeepsRest(s1, run.config, position, d.side.value, d.quantity, s1.tables.executions[id.value],
                           run.placeFetch);
      }
      ExecutedIsRegular(s, run, s.exposure.value, position, d);
      if id.Some? {
        RefreshedIsRegular(s1, run.config, position, d.side.value, d.quantity, s1.tables.executions[id.value],
                           run.placeFetch);
      }
    }
  }

  lemma AskedIsSteered(s: State, run: RunInput)
    requires Regular(s) && Truthful(s) && run.kind.Automatic? && Asked(s, run).Some?
    ensures QuantityOf(RunPosition(s, s.exposure.value)) == s.held && Steered(s, Asked(s, run).value)
  {
    hide Sound, Chronological, OwnedOrders, OpenLinked, TrueUnlessFilled, Accounted, SidesKept, DecidedOnTruth;
    DecisionIsSteered(s, run);
    hide RunDecision, Steered, Truthful;
  }

  lemma RefreshedKeepsRest(
    s: State, c: Config, previous: Option<Snapshot>, side: Side, quantity: real, e: Execution, fetch: Fetch)
    ensures var r := Refreshed(s, c, previous, side, quantity, e, fetch); r == s.(snapshot := r.snapshot)
  {
  }

  /** A run that executes nothing keeps everything, even past a hidden fill. */
  lemma IdleIsRegular(s: State, run: RunInput)
    requires Regular(s) && !Executes(s, run)
    requires FetchFits(run.config.targetSymbol, run.placeFetch, s.held)
    ensures Regular(Decided(s, run).0) && Decided(s, run).0.held == s.held
  {
    hide Regular, Refreshed, FindByClient, KeyOf, FetchFits, WithPlan, RunDecision;
    if Asked(s, run).Some? {
      var position, d := RunPosition(s, s.exposure.value), Asked(s, run).value;
      PlanTouchIsRegular(s, run, s.exposure.value, d);
      var (s1, id) := Executed(s, run, s.exposure.value, position, d);
      if id.Some? {
        RefreshedKeepsRest(s1, run.config, position, d.side.value, d.quantity, s1.tables.executions[id.value],
                           run.placeFetch);
        RefreshedIsRegular(s1, run.config, position, d.side.value, d.quantity, s1.tables.executions[id.value],
                           run.placeFetch);
      }
    }
  }

  lemma PlanTouchIsRegular(s: State, run: RunInput, exposure: ObservedExposure, d: Decision)
    requires Regular(s) && d.side.Some?
    ensures var plan := Plan(KeyOf(run.configId, exposure.observedAt, d), d.side.value, d.quantity, d.limitPrice,
                             d.reduceOnly, d.reason, if run.config.dryRun then DryRun else Planned, s.now);
            var t := WithPlan(s.tables, plan, s.now).0;
            t.executions == s.tables.executions && Regular(s.(tables := t))
  {
    var plan := Plan(KeyOf(run.configId, exposure.observedAt, d), d.side.value, d.quantity, d.limitPrice,
                     d.reduceOnly, d.reason, if run.config.dryRun then DryRun else Planned, s.now);
    PlanKept(s.tables, plan, s.now);
    TablesReplaced(s, WithPlan(s.tables, plan, s.now).0);
  }

  lemma RunIsRegular(s: State, run: RunInput)
    requires Regular(s) && Allowed(s, Run(run))
    ensures Regular(RunOnce(s, run).0) && StaysOnSide(s.held, RunOnce(s, run).0.held)
  {
    hide Regular, Guarded, Decided, KeepsRules, FetchFits, StaysOnSide, Truthful, Pending, HidesFill, Executes;
    GuardedIsRegular(s, run);
    SameSide(s.held);
    var (s0, block) := Guarded(s, run);
    if block.None? {
      TimePasses(s0, run.pause);
      var s1 := s0.(now := s0.now + run.pause);
      SameLater(s0, run.pause);
      if HidesFill(s0) {
        IdleKeepsHeld(s1, run);
        IdleIsRegular(s1, run);
      } else {
        DecidedIsRegular(s1, run);
      }
    }
  }

  lemma IdleKeepsHeld(s: State, run: RunInput)
    requires !Executes(s, run)
    ensures Decided(s, run).0.held == s.held
  {
    hide Refreshed, FindByClient, KeyOf, WithPlan, RunDecision;
    if Asked(s, run).Some? {
      var position, d := RunPosition(s, s.exposure.value), Asked(s, run).value;
      var plan := Plan(KeyOf(run.configId, s.exposure.value.observedAt, d), d.side.value, d.quantity, d.limitPrice,
                       d.reduceOnly, d.reason, if run.config.dryRun then DryRun else Planned, s.now);
      SameExecutions(s.tables, plan, s.now);
      var (s1, id) := Executed(s, run, s.exposure.value, position, d);
      if id.Some? {
        RefreshedKeepsRest(s1, run.config, position, d.side.value, d.quantity, s1.tables.executions[id.value],
                           run.placeFetch);
      }
    }
  }

  lemma SameExecutions(t: Tables, plan: Plan, now: int)
    ensures WithPlan(t, plan, now).0.executions == t.executions
  {
  }

  lemma SameLater(s: State, elapsed: nat)
    ensures var r := s.(now := s.now + elapsed); (Pending(r) <==> Pending(s)) && (Truthful(r) <==> Truthful(s))
  {
  }

  lemma SyncIsRegular(s: State, target: string, fetch: Fetch)
    requires Regular(s) && SyncFits(target, fetch, s.held)
    ensures Regular(Synced(s, target, fetch)) && Synced(s, target, fetch).held == s.held
  {
    hide Regular, Truthful;
    if fetch.Fetched? {
      Sync.AggregateIsSignedSum(Sync.Normalize(target), target, fetch.positions, s.now);
      StoredTruth(s, Synced(s, target, fetch).snapshot.value);
    }
  }

  lemma FillIsRegular(s: State, j: nat, amount: real, done: bool)
    requires Regular(s) && Allowed(s, Fill(j, amount, done))
    ensures Regular(Filling(s, j, amount, done)) && StaysOnSide(s.held, Filling(s, j, amount, done).held)
  {
    hide Sound;
    var o := s.orders[j];
    var r := Filling(s, j, amount, done);
    assert Pending(s) && Last(s).orderId == Some(j) && Last(r) == Last(s) && Pending(r);
    MovesWithinSide(s.placements[|s.placements| - 1].held, s.held, o.side, amount, o.reduceOnly);
    assert r.orders[j].filled == 0.0 ==> r.held == s.held;
  }

  lemma EndIsRegular(s: State, j: nat, status: Status)
    requires Regular(s) && Allowed(s, EndUnfilled(j, status))
    ensures Regular(s.(orders := s.orders[j := s.orders[j].(status := status)]))
  {
    hide Sound;
    var r := s.(orders := s.orders[j := s.orders[j].(status := status)]);
    assert Pending(s) && Last(s).orderId == Some(j) && Last(r) == Last(s) && Pending(r);
  }

  lemma ExposureIsIrrelevant(s: State, exposure: Option<ObservedExposure>)
    requires Regular(s)
    ensures Regular(s.(exposure := exposure))
  {
    hide Sound;
    var r := s.(exposure := exposure);
    assert Pending(r) == Pending(s);
    assert s.tables.executions != [] ==> Last(r) == Last(s);
  }

  lemma EventIsRegular(s: State, event: Event)
    requires Regular(s) && Allowed(s, event)
    ensures Regular(Happens(s, event)) && StaysOnSide(s.held, Happens(s, event).held)
  {
    hide Regular, RunOnce, Reconciled, RunAllowed, FetchFits, SyncFits, StaysOnSide, Filling, Synced, Closable;
    SameSide(s.held);
    match event
    case Tick =>
    case Fill(j, amount, done) => FillIsRegular(s, j, amount, done);
    case EndUnfilled(j, status) => EndIsRegular(s, j, status);
    case ReconcileTask(id, c, works, fetch) =>
      if id < |s.tables.executions| && s.tables.executions[id].status.Submitted? {
        ReconciledIsRegular(s, id, c, works, fetch);
      }
    case SyncPosition(target, fetch) => SyncIsRegular(s, target, fetch);
    case SyncExposure(notional, mark) => ExposureIsIrrelevant(s, Happens(s, event).exposure);
    case Run(run) => RunIsRegular(s, run);
  }

  lemma StepIsRegular(s: State, timed: Timed)
    requires Regular(s) && AllowedStep(s, timed)
    ensures Regular(Step(s, timed)) && StaysOnSide(s.held, Step(s, timed).held)
  {
    hide Regular, Happens, Allowed, StaysOnSide;
    TimePasses(s, timed.elapsed);
    EventIsRegular(s.(now := s.now + timed.elapsed), timed.event);
  }

  lemma InitiallyRegular(s: State)
    requires Initial(s)
    ensures Regular(s)
  {
  }

  lemma {:induction false} TraceIsRegular(s: State, steps: seq<Timed>)
    requires Regular(s) && AllowedTrace(s, steps)
    ensures Regular(Trace(s, steps))
    decreases |steps|
  {
    if steps != [] {
      hide Regular, AllowedStep, Step;
      StepIsRegular(s, steps[0]);
      TraceIsRegular(Step(s, steps[0]), steps[1..]);
    }
  }

  /** In every run of automatic hedging, fills, reconciliations, syncs and clock ticks, each order was decided on a
      stored quantity equal to the quantity held when it was submitted. */
  lemma EveryDecisionWasFresh(s: State, steps: seq<Timed>)
    requires Initial(s) && AllowedTrace(s, steps)
    ensures var t := Trace(s, steps);
            forall i :: 0 <= i < |t.placements| ==> t.placements[i].decidedOn == t.placements[i].held
  {
    InitiallyRegular(s);
    TraceIsRegular(s, steps);
  }

  predicate NeverJumps(s: State, steps: seq<Timed>)
    decreases |steps|
  {
    steps == [] || (StaysOnSide(s.held, Step(s, steps[0]).held) && NeverJumps(Step(s, steps[0]), steps[1..]))
  }

  lemma {:induction false} RegularNeverJumps(s: State, steps: seq<Timed>)
    requires Regular(s) && AllowedTrace(s, steps)
    ensures NeverJumps(s, steps)
    decreases |steps|
  {
    if steps != [] {
      hide Regular, AllowedStep, Step;
      StepIsRegular(s, steps[0]);
      RegularNeverJumps(Step(s, steps[0]), steps[1..]);
    }
  }

  /** In every such run no step carries the position over zero, and from one order to the next it is never on opposite
      sides: a reversal has an order that starts exactly at zero in between. */
  lemma PositionNeverFlips(s: State, steps: seq<Timed>)
    requires Initial(s) && AllowedTrace(s, steps)
    ensures NeverJumps(s, steps)
    ensures var t := Trace(s, steps);
            && (forall i :: 0 <= i < |t.placements| - 1 ==>
                  StaysOnSide(t.placements[i].held, t.placements[i + 1].held))
            && (t.placements != [] ==> StaysOnSide(t.placements[|t.placements| - 1].held, t.held))
  {
    InitiallyRegular(s);
    TraceIsRegular(s, steps);
    RegularNeverJumps(s, steps);
  }
}
