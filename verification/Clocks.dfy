/** The clocks of the hedge loop. The whole-run theorems assume no more of them than that no run acts on a hidden fill; here
    that is shown to be exact, and to follow from a clock that advances with no stamps in the future. */
module Clocks {
  import opened Money
  import opened Calculator
  import opened Positions
  import opened OrderStore
  import opened ExitPosition
  import opened HedgeLoop
  import opened Idempotence
  import opened FreshDecisions
  import opened Sequencing
  import Sync = PositionSync

  // ---- What a hidden fill does ----------------------------------------------------------------------------------

  /** The cooldown after the last execution is over. */
  predicate CooldownOver(s: State, cooldown: int)
    requires s.tables.executions != []
  {
    cooldown <= 0 || s.now >= Last(s).updatedAt + cooldown
  }

  /** Some placement after the first `count` was decided on a quantity that was not held. */
  ghost predicate StalePlacement(t: State, count: nat) {
    exists i :: count <= i < |t.placements| && t.placements[i].decidedOn != t.placements[i].held
  }

  /** The run executes an order, live or dry, that it decides on a quantity that is not held. */
  predicate DecidesStale(s: State, run: RunInput) {
    var t := AtDecision(s, run);
    AfterGuard(s, run).1.None? && Executes(t, run) && QuantityOf(t.snapshot) != t.held
  }

  /** A live run that decides on a stale quantity is one that places an order on it. */
  lemma StaleMeansPlaced(s: State, run: RunInput)
    requires !run.config.dryRun
    ensures StalePlacement(RunOnce(s, run).0, |s.placements|) <==> DecidesStale(s, run)
  {
    PlacesExactly(s, run);
    hide Asked, KeyOf, FindByClient, RunOnce, AfterGuard;
    var key := if Wanted(s, run).Some? then WantedKey(s, run) else NoKey;
    GuardKeepsClients(s, run, key);
    var r := RunOnce(s, run).0;
    if AboutToPlace(s, run) {
      assert r.placements[|s.placements|] in r.placements;
    }
  }

  /** After a fill that the stored snapshot misses, the next automatic run is decided on the stale quantity if and only if
      the snapshot's stamp is not before the fill was recorded, the cooldown is over, and the run executes an order. */
  lemma NextRunIsStaleExactly(s: State, run: RunInput)
    requires Chronological(s) && s.tables.executions != [] && Last(s).status.Filled? && !Truthful(s)
    requires run.kind.Automatic?
    ensures DecidesStale(s, run) <==>
            && s.snapshot.Some? && s.snapshot.value.observedAt >= Last(s).updatedAt
            && CooldownOver(s, run.cooldown) && Executes(s.(now := s.now + run.pause), run)
  {
    LatestIsLast(s);
    hide Executes, Latest;
    assert AfterGuard(s, run) == (s, BlockAfter(s, |s.tables.executions| - 1, run.cooldown));
  }

  /** From every regular state - also with an order pending that the guard is yet to reconcile - an automatic run is decided
      on a stale quantity if and only if it acts on a hidden fill: a snapshot that the stamps vouch for and that is not
      what the loop's own records say the last order has left. */
  lemma RunIsStaleExactly(s: State, run: RunInput)
    requires Regular(s) && run.kind.Automatic? && FetchFits(run.config.targetSymbol, run.guardFetch, s.held)
    ensures DecidesStale(s, run) <==> ActsBlind(s, run)
  {
    hide Regular, Executes, Guarded, FetchFits, HidesFill;
    GuardedIsRegular(s, run);
    if HidesFill(Guarded(s, run).0) {
      HiddenIsUntrue(Guarded(s, run).0);
    }
  }

  lemma HiddenIsUntrue(s: State)
    requires Regular(s) && HidesFill(s)
    ensures !Truthful(s)
  {
    hide Regular, Expected;
    FillIsAccounted(s);
  }

  predicate DecidesFresh(s: State, timed: Timed) {
    timed.event.Run? ==> !DecidesStale(s.(now := s.now + timed.elapsed), timed.event.run)
  }

  predicate BehavesStep(s: State, timed: Timed) {
    Behaves(s.(now := s.now + timed.elapsed), timed.event)
  }

  predicate ClocksFitStep(s: State, timed: Timed) {
    ClocksFit(s.(now := s.now + timed.elapsed), timed.event)
  }

  lemma StepIsFreshExactly(s: State, timed: Timed)
    requires Regular(s) && BehavesStep(s, timed)
    ensures DecidesFresh(s, timed) <==> ClocksFitStep(s, timed)
  {
    hide Regular, DecidesStale, ActsBlind, FetchFits, KeepsRules, RunOnce;
    TimePasses(s, timed.elapsed);
    if timed.event.Run? {
      RunIsStaleExactly(s.(now := s.now + timed.elapsed), timed.event.run);
    }
  }

  predicate FreshThroughout(s: State, steps: seq<Timed>)
    decreases |steps|
  {
    steps == [] || (DecidesFresh(s, steps[0]) && FreshThroughout(Step(s, steps[0]), steps[1..]))
  }

  predicate BehavesThroughout(s: State, steps: seq<Timed>)
    decreases |steps|
  {
    steps == [] || (BehavesStep(s, steps[0]) && BehavesThroughout(Step(s, steps[0]), steps[1..]))
  }

  predicate NeverBlind(s: State, steps: seq<Timed>)
    decreases |steps|
  {
    steps == [] || (ClocksFitStep(s, steps[0]) && NeverBlind(Step(s, steps[0]), steps[1..]))
  }

  /** Over whole runs on an exchange that behaves, whatever the clocks do: every order is decided on the quantity held if
      and only if no run acts on a hidden fill. */
  lemma {:induction false} FreshExactly(s: State, steps: seq<Timed>)
    requires Regular(s) && BehavesThroughout(s, steps)
    ensures FreshThroughout(s, steps) <==> NeverBlind(s, steps)
    decreases |steps|
  {
    if steps != [] {
      StepIsFreshExactly(s, steps[0]);
      if ClocksFitStep(s, steps[0]) {
        assert AllowedStep(s, steps[0]) by { hide Behaves, ClocksFit; }
        hide Regular, Step, DecidesFresh, BehavesStep, ClocksFitStep, AllowedStep;
        StepIsRegular(s, steps[0]);
        FreshExactly(Step(s, steps[0]), steps[1..]);
      } else {
        hide Regular, Step, DecidesFresh, BehavesStep, ClocksFitStep;
      }
    }
  }

  // ---- A clock that advances ------------------------------------------------------------------------------------

  /** A last fill that the snapshot misses was recorded after the snapshot's stamp. */
  predicate FillSeenLater(s: State) {
    s.tables.executions != [] && Last(s).status.Filled? && !Truthful(s) ==>
      s.snapshot.None? || s.snapshot.value.observedAt < Last(s).updatedAt
  }

  lemma TruthHidesNothing(s: State)
    requires Truthful(s)
    ensures FillSeenLater(s)
  {
  }

  predicate Timely(s: State) {
    s.snapshot.Some? ==> s.snapshot.value.observedAt <= s.now
  }

  /** Time passes before every step and between the guard and the decision, and no position carries a later stamp. */
  predicate Advances(s: State, timed: Timed) {
    && timed.elapsed >= 1
    && match timed.event
       case Run(run) => run.pause >= 1
       case SyncPosition(_, fetch) =>
         fetch.Fetched? ==> forall p :: p in fetch.positions ==> p.updatedAt <= s.now + timed.elapsed
       case _ => true
  }

  predicate AdvancingStep(s: State, timed: Timed) {
    Behaves(s.(now := s.now + timed.elapsed), timed.event) && Advances(s, timed)
  }

  predicate AdvancingTrace(s: State, steps: seq<Timed>)
    decreases |steps|
  {
    steps == [] || (AdvancingStep(s, steps[0]) && AdvancingTrace(Step(s, steps[0]), steps[1..]))
  }

  /** Everything stored was stored before now. */
  predicate Past(s: State) {
    && (s.tables.executions != [] ==> Last(s).updatedAt < s.now)
    && (s.snapshot.Some? ==> s.snapshot.value.observedAt < s.now)
  }

  lemma RefreshedStamp(
    s: State, c: Config, previous: Option<Snapshot>, side: Side, quantity: real, e: Execution, fetch: Fetch)
    ensures var r := Refreshed(s, c, previous, side, quantity, e, fetch);
            r.snapshot == s.snapshot || (r.snapshot.Some? && r.snapshot.value.observedAt == s.now)
  {
    hide FirstOpen, ExpectedQuantity;
  }

  lemma ReconciledStamp(s: State, id: nat, c: Config, works: bool, fetch: Fetch)
    requires id < |s.tables.executions| && Reconciled(s, id, c, works, fetch).Some?
    ensures var r := Reconciled(s, id, c, works, fetch).value;
            r.snapshot == s.snapshot || (r.snapshot.Some? && r.snapshot.value.observedAt == s.now)
  {
    hide FetchOrder, RefreshedAfter;
    var e := s.tables.executions[id];
    var o := s.orders[FetchOrder(s, e).value];
    var executed := WithExecutionStatus(s.tables, id, FetchOrder(s, e), PersistedStatus(o.status), o.filled, s.now);
    var s1 := s.(tables := WithPlanStatus(executed, e.planId, PersistedStatus(o.status), s.now));
    RefreshedStamp(s1, c, s1.snapshot, s.tables.plans[e.planId].side, o.filled, s1.tables.executions[id], fetch);
  }

  /** A fill recorded now is later than a snapshot from before, and a refreshed snapshot shows it. */
  lemma RecordedNowIsSeen(s: State, r: State)
    requires s.snapshot.Some? ==> s.snapshot.value.observedAt < s.now
    requires r.tables.executions != [] ==> Last(r).updatedAt == s.now
    requires r.snapshot == s.snapshot || Truthful(r)
    ensures FillSeenLater(r)
  {
  }

  lemma ReconciledIsSeen(s: State, id: nat, c: Config, works: bool, fetch: Fetch)
    requires Regular(s) && FillSeenLater(s) && Past(s) && FetchFits(c.targetSymbol, fetch, s.held)
    requires id < |s.tables.executions| && s.tables.executions[id].status.Submitted?
    ensures var r := Reconciled(s, id, c, works, fetch);
            r.Some? ==> FillSeenLater(r.value) && Timely(r.value)
  {
    hide Reconciled, Regular, FetchFits, FillSeenLater, Truthful;
    ReconciledIsRegular(s, id, c, works, fetch);
    var r := Reconciled(s, id, c, works, fetch);
    if r.Some? {
      ReconciledStamp(s, id, c, works, fetch);
      RecordedNowIsSeen(s, r.value);
    }
  }

  lemma GuardedIsSeen(s: State, run: RunInput)
    requires Regular(s) && FillSeenLater(s) && Past(s) && FetchFits(run.config.targetSymbol, run.guardFetch, s.held)
    ensures FillSeenLater(Guarded(s, run).0) && Timely(Guarded(s, run).0)
  {
    hide Reconciled, Regular, FetchFits, FillSeenLater, Latest;
    var id := Latest(s.tables.executions);
    if id.Some? && s.tables.executions[id.value].status.Submitted? {
      ReconciledIsSeen(s, id.value, run.config, run.accountUsable && run.fetchWorks, run.guardFetch);
    }
  }

  /** An order that was taken but not recorded had no fill. */
  lemma UnrecordedHeld(s: State, run: RunInput, exposure: ObservedExposure, position: Option<Snapshot>, d: Decision)
    requires Sound(s.tables) && d.side.Some? && RulesKept(s, Executed(s, run, exposure, position, d).0)
    requires Executed(s, run, exposure, position, d).0.tables.executions == s.tables.executions
    ensures Executed(s, run, exposure, position, d).0.held == s.held
  {
    var key := KeyOf(run.configId, exposure.observedAt, d);
    var plan := Plan(key, d.side.value, d.quantity, d.limitPrice, d.reduceOnly, d.reason,
                     if run.config.dryRun then DryRun else Planned, s.now);
    PlanKept(s.tables, plan, s.now);
    hide Sound, WithPlan, KeyOf, FirstExecution, Grows;
    var (t1, planId) := WithPlan(s.tables, plan, s.now);
    if FindByClient(t1.executions, key).None? {
      NoneOfPlan(t1.executions, planId, key);
      FirstHeld(s.(tables := t1), run, planId, key, QuantityOf(position), d);
    }
  }

  lemma FirstHeld(s: State, run: RunInput, planId: nat, key: Key, decidedOn: real, d: Decision)
    requires d.side.Some? && planId < |s.tables.plans| && FindByPlan(s.tables.executions, planId).None?
    requires FindByClient(s.tables.executions, key).None?
    requires var r := FirstExecution(s, run, planId, key, decidedOn, d).0;
             RulesKept(s, r) && r.tables.executions == s.tables.executions
    ensures FirstExecution(s, run, planId, key, decidedOn, d).0.held == s.held
  {
    hide FindByPlan, FindByClient;
  }

  lemma DecidedIsSeen(s: State, run: RunInput)
    requires Regular(s) && Past(s) && Truthful(s) && !Pending(s) && run.kind.Automatic?
    requires RulesKept(s, Decided(s, run).0)
    requires FetchFits(run.config.targetSymbol, run.placeFetch, Decided(s, run).0.held)
    ensures FillSeenLater(Decided(s, run).0) && Timely(Decided(s, run).0)
  {
    if s.exposure.Some? && Asked(s, run).Some? {
      var position, d := RunPosition(s, s.exposure.value), Asked(s, run).value;
      DecisionIsSteered(s, run);
      hide Regular, Truthful, Pending, Executed, Refreshed, RunDecision, Steered, FetchFits, FillSeenLater, KeepsRules;
      var (s1, id) := Executed(s, run, s.exposure.value, position, d);
      if id.Some? {
        RefreshedKeepsRest(s1, run.config, position, d.side.value, d.quantity, s1.tables.executions[id.value],
                           run.placeFetch);
      }
      ExecutedIsRegular(s, run, s.exposure.value, position, d);
      ExecutedIsSeen(s, run, s.exposure.value, position, d);
      if id.Some? {
        RefreshedIsRegular(s1, run.config, position, d.side.value, d.quantity, s1.tables.executions[id.value],
                           run.placeFetch);
        RefreshedStamp(s1, run.config, position, d.side.value, d.quantity, s1.tables.executions[id.value],
                       run.placeFetch);
        SeenWhenRefreshed(s1, Decided(s, run).0);
      }
    } else {
      TruthHidesNothing(s);
    }
  }

  lemma SeenWhenRefreshed(s: State, r: State)
    requires FillSeenLater(s) && r == s.(snapshot := r.snapshot) && (r == s || Truthful(r))
    ensures FillSeenLater(r)
  {
    if r != s {
      TruthHidesNothing(r);
    }
  }

  lemma ExecutedIsSeen(s: State, run: RunInput, exposure: ObservedExposure, position: Option<Snapshot>, d: Decision)
    requires Sound(s.tables) && Past(s) && Truthful(s) && d.side.Some?
    requires RulesKept(s, Executed(s, run, exposure, position, d).0)
    ensures var r := Executed(s, run, exposure, position, d).0;
            FillSeenLater(r) && r.snapshot == s.snapshot && r.now == s.now
  {
    ExecutedRow(s, run, exposure, position, d);
    ExecutedKeepsSnapshot(s, run, exposure, position, d);
    var r := Executed(s, run, exposure, position, d).0;
    if r.tables.executions == s.tables.executions {
      UnrecordedHeld(s, run, exposure, position, d);
      hide Executed;
      TruthHidesNothing(r);
    } else {
      hide Executed;
      RecordedNowIsSeen(s, r);
    }
  }

  lemma ExecutedKeepsSnapshot(
    s: State, run: RunInput, exposure: ObservedExposure, position: Option<Snapshot>, d: Decision)
    requires d.side.Some?
    ensures var r := Executed(s, run, exposure, position, d).0; r.snapshot == s.snapshot && r.now == s.now
  {
    hide WithPlan, WithExecution, WithPlanStatus, FindByClient, KeyOf, NewExecution;
  }

  lemma RunIsSeen(s: State, run: RunInput)
    requires Regular(s) && FillSeenLater(s) && Past(s) && RunAllowed(s, run) && run.pause >= 1
    ensures ClocksFit(s, Run(run))
    ensures FillSeenLater(RunOnce(s, run).0) && Timely(RunOnce(s, run).0)
  {
    hide Regular, Guarded, Decided, KeepsRules, FetchFits, Truthful, Pending, FillSeenLater, HidesFill, Executes;
    GuardedIsRegular(s, run);
    GuardedIsSeen(s, run);
    var (s0, block) := Guarded(s, run);
    SeenHidesNothing(s0);
    if block.None? {
      TimePasses(s0, run.pause);
      SameLater(s0, run.pause);
      var s1 := s0.(now := s0.now + run.pause);
      LaterIsPast(s0, run.pause);
      DecidedIsSeen(s1, run);
    }
  }

  lemma SeenHidesNothing(s: State)
    requires Regular(s) && FillSeenLater(s)
    ensures !HidesFill(s)
  {
    hide Regular, Expected;
    if s.tables.executions != [] && Last(s).status.Filled? {
      FillIsAccounted(s);
    }
  }

  lemma LaterIsPast(s: State, elapsed: nat)
    requires Regular(s) && Timely(s) && elapsed >= 1
    ensures Past(s.(now := s.now + elapsed))
  {
    assert s.tables.executions != [] ==> Last(s.(now := s.now + elapsed)) == Last(s);
  }

  lemma {:induction false} SyncedStamp(normalized: string, symbol: string, positions: seq<RawPosition>, now: int)
    requires forall p :: p in positions ==> p.updatedAt <= now
    ensures Sync.AggregateOf(normalized, symbol, positions, now).observedAt <= now
    decreases |positions|
  {
    if positions != [] {
      SyncedStamp(normalized, symbol, positions[..|positions| - 1], now);
    }
  }

  lemma AdvancingStepFits(s: State, timed: Timed)
    requires Regular(s) && FillSeenLater(s) && Timely(s) && AdvancingStep(s, timed)
    ensures AllowedStep(s, timed) && FillSeenLater(Step(s, timed)) && Timely(Step(s, timed))
  {
    var s1 := s.(now := s.now + timed.elapsed);
    hide Regular, FillSeenLater, RunOnce, Reconciled, FetchFits, SyncFits, RunAllowed, Closable, ActsBlind;
    TimePasses(s, timed.elapsed);
    LaterIsPast(s, timed.elapsed);
    StillSeen(s, s1);
    match timed.event
    case Run(run) => RunIsSeen(s1, run);
    case ReconcileTask(id, c, works, fetch) =>
      if id < |s1.tables.executions| && s1.tables.executions[id].status.Submitted? {
        ReconciledIsSeen(s1, id, c, works, fetch);
      }
    case SyncPosition(target, fetch) => SyncIsSeen(s1, target, fetch);
    case Fill(j, amount, done) => PendingHidesNothing(s1, j, Happens(s1, timed.event));
    case EndUnfilled(j, status) => PendingHidesNothing(s1, j, Happens(s1, timed.event));
    case _ => StillSeen(s1, Happens(s1, timed.event));
  }

  lemma StillSeen(s: State, r: State)
    requires FillSeenLater(s) && r.tables == s.tables && r.snapshot == s.snapshot && r.held == s.held
    ensures FillSeenLater(r)
  {
  }

  /** While an order is pending, the last execution is no fill. */
  lemma PendingHidesNothing(s: State, j: nat, r: State)
    requires Regular(s) && j < |s.orders| && s.orders[j].status.Submitted? && r.tables == s.tables
    ensures FillSeenLater(r)
  {
    hide Sound, Chronological, SidesKept, DecidedOnTruth, SnapshotSane;
    assert Pending(s);
  }

  lemma SyncIsSeen(s: State, target: string, fetch: Fetch)
    requires FillSeenLater(s) && Timely(s) && SyncFits(target, fetch, s.held)
    requires fetch.Fetched? ==> forall p :: p in fetch.positions ==> p.updatedAt <= s.now
    ensures FillSeenLater(Synced(s, target, fetch)) && Timely(Synced(s, target, fetch))
  {
    if fetch.Fetched? {
      Sync.AggregateIsSignedSum(Sync.Normalize(target), target, fetch.positions, s.now);
      SyncedStamp(Sync.Normalize(target), target, fetch.positions, s.now);
      TruthHidesNothing(Synced(s, target, fetch));
    }
  }

  /** A clock that advances at every step and no stamps in the future: then the clock hypothesis of the whole-run theorems
      holds by itself. */
  lemma {:induction false} AdvancingIsAllowed(s: State, steps: seq<Timed>)
    requires Regular(s) && FillSeenLater(s) && Timely(s) && AdvancingTrace(s, steps)
    ensures AllowedTrace(s, steps)
    decreases |steps|
  {
    if steps != [] {
      hide Regular, FillSeenLater, Timely, AdvancingStep, AllowedStep, Step;
      AdvancingStepFits(s, steps[0]);
      StepIsRegular(s, steps[0]);
      AdvancingIsAllowed(Step(s, steps[0]), steps[1..]);
    }
  }

  lemma InitiallySeen(s: State)
    requires Initial(s)
    ensures Regular(s) && FillSeenLater(s) && Timely(s)
  {
  }

  /** With such a clock and an exchange that behaves, nothing else assumed: every order of automatic hedging was decided on
      a stored quantity equal to the quantity held when it was submitted. */
  lemma AdvancingDecisionsAreFresh(s: State, steps: seq<Timed>)
    requires Initial(s) && AdvancingTrace(s, steps)
    ensures var t := Trace(s, steps);
            forall i :: 0 <= i < |t.placements| ==> t.placements[i].decidedOn == t.placements[i].held
  {
    hide Regular, FillSeenLater, Timely, Trace, AdvancingTrace, AllowedTrace, Initial;
    InitiallySeen(s);
    AdvancingIsAllowed(s, steps);
    EveryDecisionWasFresh(s, steps);
  }

  /** The same for the side of the position: no step carries it over zero, and from one order to the next it is never on
      opposite sides. */
  lemma AdvancingNeverFlips(s: State, steps: seq<Timed>)
    requires Initial(s) && AdvancingTrace(s, steps)
    ensures NeverJumps(s, steps) && SidesKept(Trace(s, steps))
  {
    hide Regular, FillSeenLater, Timely, Trace, AdvancingTrace, AllowedTrace, Initial, NeverJumps;
    InitiallySeen(s);
    AdvancingIsAllowed(s, steps);
    PositionNeverFlips(s, steps);
  }
}
