/** Over any sequence of runs, retries, reconciliations and outside events there is one plan per key, one execution per
    plan and one PlaceOrder call per key, and terminal executions are frozen. */
module Idempotence {
  import opened Money
  import opened Calculator
  import opened Positions
  import opened OrderStore
  import opened ExitPosition
  import opened HedgeLoop

  /** Unique plan keys, executions that belong to the plan whose key they carry, unique client ids. */
  predicate Linked(t: Tables) {
    && (forall i, j :: 0 <= i < j < |t.plans| ==> t.plans[i].key != t.plans[j].key)
    && (forall i :: 0 <= i < |t.executions| ==>
          t.executions[i].planId < |t.plans| && t.executions[i].clientId == t.plans[t.executions[i].planId].key)
    && (forall i, j :: 0 <= i < j < |t.executions| ==> t.executions[i].clientId != t.executions[j].clientId)
  }

  /** An execution is filled or failed exactly when it carries that timestamp. */
  predicate Stamped(e: Execution) {
    && Recordable(e.status)
    && (e.filledAt.Some? <==> e.status.Filled?)
    && (e.failedAt.Some? <==> e.status.Failed?)
    && (e.status.Submitted? || e.status.Filled? ==> e.submittedAt.Some?)
  }

  /** A plan shows its execution's status; only a dry-run execution added later to a live plan leaves it `Planned`. */
  predicate Agrees(t: Tables, e: Execution) {
    e.planId < |t.plans| &&
    (t.plans[e.planId].status == e.status || (e.status.DryRun? && t.plans[e.planId].status.Planned?))
  }

  /** A plan without an execution was only ever planned. */
  predicate Waiting(t: Tables, plan: Plan) {
    HasExecution(t, plan.key) || plan.status.Planned? || plan.status.DryRun?
  }

  predicate AllWaiting(t: Tables) {
    forall i :: 0 <= i < |t.plans| ==> Waiting(t, t.plans[i])
  }

  predicate AllAgree(t: Tables) {
    forall i :: 0 <= i < |t.executions| ==> Stamped(t.executions[i]) && Agrees(t, t.executions[i])
  }

  predicate Sound(t: Tables) {
    Linked(t) && AllWaiting(t) && AllAgree(t)
  }

  /** One execution later in its life: identity kept, timestamps written once, nothing changed once terminal. */
  predicate Evolves(a: Execution, b: Execution) {
    && a.planId == b.planId && a.clientId == b.clientId
    && (Terminal(a.status) ==> a == b)
    && (a.submittedAt.Some? ==> b.submittedAt == a.submittedAt)
    && (a.filledAt.Some? ==> b.filledAt == a.filledAt)
    && (a.failedAt.Some? ==> b.failedAt == a.failedAt)
  }

  predicate SamePlan(a: Plan, b: Plan) {
    b == a.(status := b.status, updatedAt := b.updatedAt)
  }

  /** Rows are only added, and old rows only evolve. */
  predicate Grows(t: Tables, u: Tables) {
    && |t.plans| <= |u.plans| && |t.executions| <= |u.executions|
    && (forall i :: 0 <= i < |t.plans| ==> SamePlan(t.plans[i], u.plans[i]))
    && (forall i :: 0 <= i < |t.executions| ==> Evolves(t.executions[i], u.executions[i]))
  }

  predicate HasExecution(t: Tables, key: Key) {
    exists i :: 0 <= i < |t.executions| && t.executions[i].clientId == key
  }

  /** PlaceOrder was called at most once per key, and each key it was called with has an execution. */
  predicate OncePerKey(s: State) {
    && (forall i, j :: 0 <= i < j < |s.placements| ==> s.placements[i].key != s.placements[j].key)
    && (forall i :: 0 <= i < |s.placements| ==> HasExecution(s.tables, s.placements[i].key))
  }

  predicate Invariant(s: State) {
    Sound(s.tables) && OncePerKey(s)
  }

  /** The database can record the status PlaceOrder answered with; the check constraint knows no canceled order. */
  predicate PlacementRecordable(event: Event) {
    event.Run? && event.run.place.Accepted? ==> Recordable(event.run.place.status)
  }

  // ---- Rows -----------------------------------------------------------------------------------------------------

  lemma GrowsReflexive(t: Tables)
    ensures Grows(t, t)
  {
  }

  lemma GrowsTransitive(t: Tables, u: Tables, v: Tables)
    requires Grows(t, u) && Grows(u, v)
    ensures Grows(t, v)
  {
    forall i | 0 <= i < |t.executions|
      ensures Evolves(t.executions[i], v.executions[i])
    {
      assert Evolves(t.executions[i], u.executions[i]) && Evolves(u.executions[i], v.executions[i]);
    }
    forall i | 0 <= i < |t.plans|
      ensures SamePlan(t.plans[i], v.plans[i])
    {
      assert SamePlan(t.plans[i], u.plans[i]) && SamePlan(u.plans[i], v.plans[i]);
    }
  }

  lemma GrowsKeepsExecutions(t: Tables, u: Tables, key: Key)
    requires Grows(t, u) && HasExecution(t, key)
    ensures HasExecution(u, key)
  {
    var i :| 0 <= i < |t.executions| && t.executions[i].clientId == key;
    assert Evolves(t.executions[i], u.executions[i]);
  }

  lemma PlanKept(t: Tables, plan: Plan, now: int)
    requires Sound(t)
    requires plan.status.Planned? || plan.status.DryRun?
    ensures var (u, id) := WithPlan(t, plan, now);
            && Sound(u) && Grows(t, u) && u.executions == t.executions
            && (id < |t.plans| || u.plans[id] == plan.(updatedAt := now))
            && (forall e :: e in t.executions && e.planId == id ==> e.clientId == plan.key)
  {
    hide AllWaiting, AllAgree;
    PlanKeepsAgreement(t, plan, now);
    PlanKeepsWaiting(t, plan, now);
    if FindPlan(t.plans, plan.key).Some? {
      // only the row's update time moves
    } else {
      // the row is new
    }
  }

  lemma PlanKeepsAgreement(t: Tables, plan: Plan, now: int)
    requires Linked(t) && AllAgree(t)
    ensures AllAgree(WithPlan(t, plan, now).0)
  {
    var u := WithPlan(t, plan, now).0;
    forall i | 0 <= i < |t.executions|
      ensures Agrees(u, u.executions[i])
    {
      assert Agrees(t, t.executions[i]);
    }
  }

  lemma PlanKeepsWaiting(t: Tables, plan: Plan, now: int)
    requires AllWaiting(t) && (plan.status.Planned? || plan.status.DryRun?)
    ensures AllWaiting(WithPlan(t, plan, now).0)
  {
    var u := WithPlan(t, plan, now).0;
    forall i | 0 <= i < |u.plans|
      ensures Waiting(u, u.plans[i])
    {
      assert i < |t.plans| ==> Waiting(t, t.plans[i]);
      ExecutionsAreKept(t, u, u.plans[i].key);
    }
  }

  /** A new execution for a key that has none is appended. */
  lemma ExecutionAppended(t: Tables, e: Execution, now: int)
    requires Sound(t) && Stamped(e)
    requires e.planId < |t.plans| && e.clientId == t.plans[e.planId].key
    requires !HasExecution(t, e.clientId)
    ensures var r := WithExecution(t, e, now);
            && r.Some? && r.value.1 == |t.executions| && r.value.0 == t.(executions := t.executions + [e])
    ensures Grows(t, t.(executions := t.executions + [e])) && HasExecution(t.(executions := t.executions + [e]), e.clientId)
  {
    var u := t.(executions := t.executions + [e]);
    assert u.executions[|t.executions|] == e;
  }

  /** The table after a live execution: its plan takes its status. */
  function WithLive(t: Tables, e: Execution, now: int): Tables
    requires e.planId < |t.plans|
  {
    WithPlanStatus(t.(executions := t.executions + [e]), e.planId, e.status, now)
  }

  predicate CanAppend(t: Tables, e: Execution) {
    && Sound(t) && Stamped(e) && e.planId < |t.plans| && e.clientId == t.plans[e.planId].key
    && !HasExecution(t, e.clientId)
  }

  lemma AppendedIsSound(t: Tables, e: Execution, now: int)
    requires CanAppend(t, e)
    ensures var u := WithLive(t, e, now); Sound(u) && Grows(t, u) && HasExecution(u, e.clientId)
    ensures e.status.DryRun? ==> Sound(t.(executions := t.executions + [e]))
  {
    hide AllWaiting, AllAgree;
    AppendedAgrees(t, e, now);
    AppendedWaits(t, e, now);
    assert WithLive(t, e, now).executions[|t.executions|] == e;
  }

  lemma AppendedAgrees(t: Tables, e: Execution, now: int)
    requires CanAppend(t, e)
    ensures AllAgree(WithLive(t, e, now))
    ensures e.status.DryRun? ==> AllAgree(t.(executions := t.executions + [e]))
  {
    assert Waiting(t, t.plans[e.planId]);
    hide AllWaiting;
    forall i | 0 <= i < |t.executions|
      ensures Agrees(WithLive(t, e, now), t.executions[i])
      ensures Agrees(t.(executions := t.executions + [e]), t.executions[i])
    {
      assert Stamped(t.executions[i]) && Agrees(t, t.executions[i]);
    }
  }

  lemma AppendedWaits(t: Tables, e: Execution, now: int)
    requires CanAppend(t, e)
    ensures AllWaiting(WithLive(t, e, now)) && AllWaiting(t.(executions := t.executions + [e]))
  {
    hide AllAgree, Linked;
    var u, v := WithLive(t, e, now), t.(executions := t.executions + [e]);
    assert u.executions[|t.executions|] == e && v.executions[|t.executions|] == e;
    forall i | 0 <= i < |u.plans|
      ensures Waiting(u, u.plans[i]) && Waiting(v, v.plans[i])
    {
      StillWaiting(t, u, i, |t.executions|);
      StillWaiting(t, v, i, |t.executions|);
    }
  }

  lemma ExecutionsAreKept(t: Tables, u: Tables, key: Key)
    requires |t.executions| <= |u.executions|
    requires forall i :: 0 <= i < |t.executions| ==> u.executions[i].clientId == t.executions[i].clientId
    ensures HasExecution(t, key) ==> HasExecution(u, key)
  {
    if HasExecution(t, key) {
      var i :| 0 <= i < |t.executions| && t.executions[i].clientId == key;
      assert u.executions[i].clientId == key;
    }
  }

  predicate CanUpdate(t: Tables, id: nat, status: Status) {
    && Sound(t) && id < |t.executions| && t.executions[id].status.Submitted?
    && (status.Submitted? || status.Filled? || status.Failed?)
  }

  function Updated(t: Tables, id: nat, order: Option<nat>, status: Status, filled: real, now: int): Tables
    requires id < |t.executions| && t.executions[id].planId < |t.plans|
  {
    WithPlanStatus(WithExecutionStatus(t, id, order, status, filled, now), t.executions[id].planId, status, now)
  }

  lemma StatusUpdated(t: Tables, id: nat, order: Option<nat>, status: Status, filled: real, now: int)
    requires CanUpdate(t, id, status)
    ensures var u := Updated(t, id, order, status, filled, now); Sound(u) && Grows(t, u)
  {
    assert Stamped(t.executions[id]);
    hide AllWaiting, AllAgree;
    UpdatedAgrees(t, id, order, status, filled, now);
    UpdatedWaits(t, id, order, status, filled, now);
    var u := Updated(t, id, order, status, filled, now);
    assert forall i :: 0 <= i < |u.plans| ==> SamePlan(t.plans[i], u.plans[i]);
  }

  lemma UpdatedAgrees(t: Tables, id: nat, order: Option<nat>, status: Status, filled: real, now: int)
    requires CanUpdate(t, id, status)
    ensures AllAgree(Updated(t, id, order, status, filled, now))
  {
    hide AllWaiting;
    var u := Updated(t, id, order, status, filled, now);
    forall i | 0 <= i < |u.executions|
      ensures Stamped(u.executions[i]) && Agrees(u, u.executions[i])
    {
      assert Stamped(t.executions[i]) && Agrees(t, t.executions[i]);
      assert i != id ==> t.executions[i].clientId != t.executions[id].clientId;
    }
  }

  lemma UpdatedWaits(t: Tables, id: nat, order: Option<nat>, status: Status, filled: real, now: int)
    requires CanUpdate(t, id, status)
    ensures AllWaiting(Updated(t, id, order, status, filled, now))
  {
    hide AllAgree;
    var u := Updated(t, id, order, status, filled, now);
    assert u.executions[id].clientId == t.plans[t.executions[id].planId].key;
    forall i | 0 <= i < |u.plans|
      ensures Waiting(u, u.plans[i])
    {
      StillWaiting(t, u, i, id);
    }
  }

  /** Copying the status of an execution to its plan leaves no plan without an execution but planned ones. */
  lemma StillWaiting(t: Tables, u: Tables, i: nat, id: nat)
    requires i < |t.plans| && |u.plans| == |t.plans| && |t.executions| <= |u.executions| && id < |u.executions|
    requires Waiting(t, t.plans[i]) && SamePlan(t.plans[i], u.plans[i])
    requires u.plans[i].status == t.plans[i].status || u.executions[id].clientId == t.plans[i].key
    requires forall k :: 0 <= k < |t.executions| ==> u.executions[k].clientId == t.executions[k].clientId
    ensures Waiting(u, u.plans[i])
  {
    ExecutionsAreKept(t, u, t.plans[i].key);
  }

  // ---- When a run places ----------------------------------------------------------------------------------------

  lemma {:induction false} SameClients(a: seq<Execution>, b: seq<Execution>, key: Key)
    requires |a| == |b| && forall i :: 0 <= i < |a| ==> a[i].clientId == b[i].clientId
    ensures FindByClient(a, key) == FindByClient(b, key)
    decreases |a|
  {
    if a != [] {
      SameClients(a[..|a| - 1], b[..|b| - 1], key);
    }
  }

  /** Some key, for runs that want no order. */
  const NoKey := Key(0, 0, Hold, "", 0.0, 0.0, 0.0)

  /** The guard renames nothing and places nothing. */
  lemma GuardKeepsClients(s: State, run: RunInput, key: Key)
    ensures var r := AfterGuard(s, run).0;
            && r == s.(tables := r.tables, snapshot := r.snapshot)
            && FindByClient(r.tables.executions, key) == FindByClient(s.tables.executions, key)
  {
    var id := Latest(s.tables.executions);
    if run.kind.Automatic? && id.Some? && s.tables.executions[id.value].status.Submitted? {
      var works := run.accountUsable && run.fetchWorks;
      if Reconciled(s, id.value, run.config, works, run.guardFetch).Some? {
        ReconciledKeepsClients(s, id.value, run.config, works, run.guardFetch);
        hide Reconciled, FindByClient;
        SameClients(Reconciled(s, id.value, run.config, works, run.guardFetch).value.tables.executions,
                    s.tables.executions, key);
      }
    }
  }

  lemma ReconciledKeepsClients(s: State, id: nat, c: Config, works: bool, fetch: Fetch)
    requires id < |s.tables.executions| && Reconciled(s, id, c, works, fetch).Some?
    ensures var r := Reconciled(s, id, c, works, fetch).value;
            && r == s.(tables := r.tables, snapshot := r.snapshot)
            && |r.tables.executions| == |s.tables.executions|
            && forall i :: 0 <= i < |s.tables.executions| ==>
                 r.tables.executions[i].clientId == s.tables.executions[i].clientId
  {
    hide FetchOrder, RefreshedAfter;
  }

  /** The placement log after a run has decided: one more call exactly when nothing was executed for the key, in a live
      run with a usable account; it carries the key, the stored quantity and the quantity held. */
  lemma DecidedPlaces(s: State, run: RunInput)
    ensures var r, d := Decided(s, run).0, Asked(s, run);
            if d.Some? && !run.config.dryRun && run.accountUsable
               && FindByClient(s.tables.executions, KeyOf(run.configId, s.exposure.value.observedAt, d.value)).None? then
              && |r.placements| == |s.placements| + 1 && s.placements <= r.placements
              && var p := r.placements[|s.placements|];
                 && p.key == KeyOf(run.configId, s.exposure.value.observedAt, d.value)
                 && p.decidedOn == QuantityOf(s.snapshot) && p.held == s.held
            else r.placements == s.placements
  {
    hide RunDecision, RefreshedAfter, KeyOf, FindByClient, Executed;
    if Asked(s, run).Some? {
      ExecutedPlaces(s, run, s.exposure.value, RunPosition(s, s.exposure.value), Asked(s, run).value);
    }
  }

  lemma ExecutedPlaces(s: State, run: RunInput, exposure: ObservedExposure, position: Option<Snapshot>, d: Decision)
    requires d.side.Some?
    ensures var r, key := Executed(s, run, exposure, position, d).0, KeyOf(run.configId, exposure.observedAt, d);
            if FindByClient(s.tables.executions, key).None? && !run.config.dryRun && run.accountUsable then
              && |r.placements| == |s.placements| + 1 && s.placements <= r.placements
              && var p := r.placements[|s.placements|];
                 p.key == key && p.decidedOn == QuantityOf(position) && p.held == s.held
            else r.placements == s.placements
  {
    hide WithExecution, WithPlanStatus, FindByClient, KeyOf;
  }

  /** A run calls PlaceOrder exactly when it is about to, and then once: with the key of its order, the quantity stored
      when it decides and the quantity held. */
  lemma PlacesExactly(s: State, run: RunInput)
    ensures var r := RunOnce(s, run).0;
            if AboutToPlace(s, run) then
              && |r.placements| == |s.placements| + 1 && s.placements <= r.placements
              && var p := r.placements[|s.placements|];
                 && p.key == WantedKey(s, run)
                 && p.decidedOn == QuantityOf(AtDecision(s, run).snapshot) && p.held == s.held
            else r.placements == s.placements
  {
    hide Guarded, Decided, FindByClient, Asked, KeyOf, AfterGuard;
    if Wanted(s, run).Some? {
      GuardKeepsClients(s, run, WantedKey(s, run));
    } else {
      GuardKeepsClients(s, run, NoKey);
    }
    DecidedPlaces(AtDecision(s, run), run);
  }

  // ---- The store ------------------------------------------------------------------------------------------------

  lemma NoneOfPlan(executions: seq<Execution>, planId: nat, key: Key)
    requires forall e :: e in executions && e.planId == planId ==> e.clientId == key
    requires FindByClient(executions, key).None?
    ensures FindByPlan(executions, planId).None?
  {
  }

  lemma ReconciledIsSound(s: State, id: nat, c: Config, works: bool, fetch: Fetch)
    requires Sound(s.tables) && id < |s.tables.executions| && s.tables.executions[id].status.Submitted?
    requires Reconciled(s, id, c, works, fetch).Some?
    ensures var r := Reconciled(s, id, c, works, fetch).value;
            Sound(r.tables) && Grows(s.tables, r.tables) && r.placements == s.placements
  {
    var e := s.tables.executions[id];
    var o := s.orders[FetchOrder(s, e).value];
    StatusUpdated(s.tables, id, FetchOrder(s, e), PersistedStatus(o.status), o.filled, s.now);
  }

  lemma GuardIsSound(s: State, run: RunInput)
    requires Sound(s.tables)
    ensures var r := AfterGuard(s, run).0; Sound(r.tables) && Grows(s.tables, r.tables)
  {
    hide Reconciled, Sound, Grows;
    GrowsReflexive(s.tables);
    var id := Latest(s.tables.executions);
    if id.Some? && s.tables.executions[id.value].status.Submitted? {
      var works := run.accountUsable && run.fetchWorks;
      if Reconciled(s, id.value, run.config, works, run.guardFetch).Some? {
        ReconciledIsSound(s, id.value, run.config, works, run.guardFetch);
      }
    }
  }

  /** A run that executes a key for the first time leaves an execution for it: not with an unusable account, and not when
      the database refuses what the exchange answered. */
  predicate Records(run: RunInput) {
    run.config.dryRun || (run.accountUsable && PlacementRecordable(Run(run)))
  }

  lemma NewIsStamped(e: Execution, now: int)
    requires Recordable(e.status)
    requires e == NewExecution(e.planId, e.clientId, e.orderId, e.status, e.filled, now)
    ensures Stamped(e)
  {
  }

  lemma FirstExecutionIsSound(s: State, run: RunInput, planId: nat, key: Key, decidedOn: real, d: Decision)
    requires Sound(s.tables) && d.side.Some? && planId < |s.tables.plans| && s.tables.plans[planId].key == key
    requires !HasExecution(s.tables, key)
    ensures var r := FirstExecution(s, run, planId, key, decidedOn, d).0;
            && Sound(r.tables) && Grows(s.tables, r.tables)
            && (HasExecution(r.tables, key) <==> Records(run))
  {
    GrowsReflexive(s.tables);
    if Records(run) {
      var e :=
        if run.config.dryRun then NewExecution(planId, key, None, DryRun, 0.0, s.now)
        else if run.place.PlaceError? then NewExecution(planId, key, None, Failed, 0.0, s.now)
        else NewExecution(planId, key, Some(|s.orders|), run.place.status, run.place.filled, s.now);
      NewIsStamped(e, s.now);
      ExecutionAppended(s.tables, e, s.now);
      AppendedIsSound(s.tables, e, s.now);
    }
    hide WithPlanStatus, Sound, Grows, HasExecution, Stamped;
  }

  /** Executing a decision keeps the store sound whatever PlaceOrder answers. */
  lemma ExecutedIsSound(s: State, run: RunInput, exposure: ObservedExposure, position: Option<Snapshot>, d: Decision)
    requires Sound(s.tables) && d.side.Some?
    ensures var r, key := Executed(s, run, exposure, position, d).0, KeyOf(run.configId, exposure.observedAt, d);
            && Sound(r.tables) && Grows(s.tables, r.tables)
            && (HasExecution(r.tables, key) <==> HasExecution(s.tables, key) || Records(run))
  {
    var key := KeyOf(run.configId, exposure.observedAt, d);
    var plan := Plan(key, d.side.value, d.quantity, d.limitPrice, d.reduceOnly, d.reason,
                     if run.config.dryRun then DryRun else Planned, s.now);
    PlanKept(s.tables, plan, s.now);
    hide WithPlan, Sound, Grows, KeyOf, FirstExecution;
    var (t1, planId) := WithPlan(s.tables, plan, s.now);
    if FindByClient(t1.executions, key).None? {
      FirstExecutionIsSound(s.(tables := t1), run, planId, key, QuantityOf(position), d);
      GrowsTransitive(s.tables, t1, Executed(s, run, exposure, position, d).0.tables);
    }
  }

  lemma DecidedIsSound(s: State, run: RunInput)
    requires Sound(s.tables)
    ensures var r := Decided(s, run).0;
            && Sound(r.tables) && Grows(s.tables, r.tables)
            && (Asked(s, run).Some? ==>
                  var key := KeyOf(run.configId, s.exposure.value.observedAt, Asked(s, run).value);
                  HasExecution(r.tables, key) <==> HasExecution(s.tables, key) || Records(run))
  {
    hide Executed, RunDecision, Sound, Grows, HasExecution, RefreshedAfter, KeyOf;
    GrowsReflexive(s.tables);
    if Asked(s, run).Some? {
      ExecutedIsSound(s, run, s.exposure.value, RunPosition(s, s.exposure.value), Asked(s, run).value);
    }
  }

  /** A run keeps the store sound; the key it places for has an execution afterwards exactly if the answer can be
      recorded. */
  lemma RunIsSound(s: State, run: RunInput)
    requires Sound(s.tables)
    ensures var r := RunOnce(s, run).0;
            && Sound(r.tables) && Grows(s.tables, r.tables)
            && (AboutToPlace(s, run) ==>
                  (HasExecution(r.tables, WantedKey(s, run)) <==> PlacementRecordable(Run(run))))
  {
    hide Decided, AfterGuard, Asked, Sound, Grows, KeyOf;
    GuardIsSound(s, run);
    GuardKeepsClients(s, run, if Wanted(s, run).Some? then WantedKey(s, run) else NoKey);
    if AfterGuard(s, run).1.None? {
      var s1 := AtDecision(s, run);
      DecidedIsSound(s1, run);
      GrowsTransitive(s.tables, s1.tables, Decided(s1, run).0.tables);
    }
  }

  lemma StepIsSound(s: State, timed: Timed)
    requires Sound(s.tables)
    ensures Sound(Step(s, timed).tables) && Grows(s.tables, Step(s, timed).tables)
  {
    hide RunOnce, Reconciled, Sound, Grows, Synced, AboutToPlace;
    GrowsReflexive(s.tables);
    var s1 := s.(now := s.now + timed.elapsed);
    match timed.event
    case Run(run) => RunIsSound(s1, run);
    case ReconcileTask(id, c, works, fetch) =>
      if id < |s1.tables.executions| && s1.tables.executions[id].status.Submitted?
         && Reconciled(s1, id, c, works, fetch).Some? {
        ReconciledIsSound(s1, id, c, works, fetch);
      }
    case SyncPosition(target, fetch) => SyncTouchesSnapshotOnly(s1, target, fetch);
    case _ =>
  }

  lemma SyncTouchesSnapshotOnly(s: State, target: string, fetch: Fetch)
    ensures Synced(s, target, fetch) == s.(snapshot := Synced(s, target, fetch).snapshot)
  {
  }

  /** Over every run of the system, whatever the exchange answers and the clocks do: one plan per key, at most one
      execution per plan, rows that only evolve, terminal rows frozen, and times written once. */
  lemma {:induction false} StoreStaysSound(s: State, steps: seq<Timed>)
    requires Sound(s.tables)
    ensures Sound(Trace(s, steps).tables) && Grows(s.tables, Trace(s, steps).tables)
    decreases |steps|
  {
    if steps == [] {
      GrowsReflexive(s.tables);
    } else {
      hide Step, Sound, Grows;
      StepIsSound(s, steps[0]);
      StoreStaysSound(Step(s, steps[0]), steps[1..]);
      GrowsTransitive(s.tables, Step(s, steps[0]).tables, Trace(s, steps).tables);
    }
  }

  // ---- A key is executed once -----------------------------------------------------------------------------------

  /** Rows keep their client ids, in any state. */
  predicate KeepsKeys(before: seq<Execution>, after: seq<Execution>) {
    && |before| <= |after|
    && forall i :: 0 <= i < |before| ==> after[i].clientId == before[i].clientId
  }

  lemma ExecutedKeepsKeys(s: State, run: RunInput, exposure: ObservedExposure, position: Option<Snapshot>, d: Decision)
    requires d.side.Some?
    ensures KeepsKeys(s.tables.executions, Executed(s, run, exposure, position, d).0.tables.executions)
  {
    hide FindByPlan, FindByClient, FindPlan, KeyOf;
  }

  lemma RunKeepsKeys(s: State, run: RunInput)
    ensures KeepsKeys(s.tables.executions, RunOnce(s, run).0.tables.executions)
  {
    hide Executed, RunDecision, RefreshedAfter, Reconciled;
    var id := Latest(s.tables.executions);
    if run.kind.Automatic? && id.Some? && s.tables.executions[id.value].status.Submitted? {
      var works := run.accountUsable && run.fetchWorks;
      if Reconciled(s, id.value, run.config, works, run.guardFetch).Some? {
        ReconciledKeepsClients(s, id.value, run.config, works, run.guardFetch);
      }
    }
    var s1 := AtDecision(s, run);
    if Asked(s1, run).Some? {
      ExecutedKeepsKeys(s1, run, s1.exposure.value, RunPosition(s1, s1.exposure.value), Asked(s1, run).value);
    }
  }

  lemma StepKeepsKeys(s: State, timed: Timed)
    ensures KeepsKeys(s.tables.executions, Step(s, timed).tables.executions)
  {
    hide RunOnce, Reconciled, Synced;
    var s1 := s.(now := s.now + timed.elapsed);
    match timed.event
    case Run(run) => RunKeepsKeys(s1, run);
    case ReconcileTask(id, c, works, fetch) =>
      if id < |s1.tables.executions| && Reconciled(s1, id, c, works, fetch).Some? {
        ReconciledKeepsClients(s1, id, c, works, fetch);
      }
    case SyncPosition(target, fetch) => SyncTouchesSnapshotOnly(s1, target, fetch);
    case _ =>
  }

  /** What a step adds to the calls of PlaceOrder: one, for a key without an execution, if it is a run about to place. */
  lemma StepPlaces(s: State, timed: Timed)
    ensures var s1, r := s.(now := s.now + timed.elapsed), Step(s, timed);
            if timed.event.Run? && AboutToPlace(s1, timed.event.run) then
              && |r.placements| == |s.placements| + 1 && s.placements <= r.placements
              && r.placements[|s.placements|].key == WantedKey(s1, timed.event.run)
              && !HasExecution(s.tables, WantedKey(s1, timed.event.run))
            else r.placements == s.placements
  {
    hide RunOnce, Reconciled, Synced, Wanted, WantedKey;
    var s1 := s.(now := s.now + timed.elapsed);
    match timed.event
    case Run(run) => PlacesExactly(s1, run);
    case ReconcileTask(id, c, works, fetch) =>
      if id < |s1.tables.executions| && Reconciled(s1, id, c, works, fetch).Some? {
        ReconciledKeepsClients(s1, id, c, works, fetch);
      }
    case SyncPosition(target, fetch) => SyncTouchesSnapshotOnly(s1, target, fetch);
    case _ =>
  }

  /** No call from the first `count` on was for this key. */
  predicate NoCallFrom(placements: seq<Placement>, count: nat, key: Key) {
    forall i :: count <= i < |placements| ==> placements[i].key != key
  }

  lemma StepSparesKey(s: State, timed: Timed, key: Key)
    requires HasExecution(s.tables, key)
    ensures var r := Step(s, timed);
            && HasExecution(r.tables, key) && s.placements <= r.placements
            && NoCallFrom(r.placements, |s.placements|, key)
  {
    hide Step, HasExecution, Wanted, WantedKey, FindByClient;
    StepPlaces(s, timed);
    StepKeepsKeys(s, timed);
    ExecutionsAreKept(s.tables, Step(s, timed).tables, key);
  }

  lemma NoCallFromEither(a: seq<Placement>, b: seq<Placement>, count: nat, key: Key)
    requires count <= |a| && a <= b && NoCallFrom(a, count, key) && NoCallFrom(b, |a|, key)
    ensures NoCallFrom(b, count, key)
  {
    assert forall i :: 0 <= i < |a| ==> b[i] == a[i];
  }

  /** A key that has an execution, failed or not, is never submitted again, from any state and whatever the exchange
      answers: no later state has a placement for it that was not there before. */
  lemma {:induction false} NeverResubmitted(s: State, steps: seq<Timed>, key: Key)
    requires HasExecution(s.tables, key)
    ensures var t := Trace(s, steps);
            && HasExecution(t.tables, key) && s.placements <= t.placements
            && NoCallFrom(t.placements, |s.placements|, key)
    decreases |steps|
  {
    if steps != [] {
      hide Step, HasExecution, NoCallFrom;
      var s1 := Step(s, steps[0]);
      StepSparesKey(s, steps[0], key);
      NeverResubmitted(s1, steps[1..], key);
      NoCallFromEither(s1.placements, Trace(s, steps).placements, |s.placements|, key);
    } else {
      hide HasExecution;
    }
  }

  // ---- One call per key, exactly --------------------------------------------------------------------------------

  /** The step is not a run about to place whose answer the database refuses. */
  predicate AnswerRecorded(s: State, timed: Timed) {
    timed.event.Run? ==>
      PlacementRecordable(timed.event) || !AboutToPlace(s.(now := s.now + timed.elapsed), timed.event.run)
  }

  /** A new call for a key without an execution keeps one call per key exactly if the key has one afterwards. */
  lemma OneMoreCall(s: State, r: State, key: Key)
    requires OncePerKey(s) && Grows(s.tables, r.tables) && !HasExecution(s.tables, key)
    requires |r.placements| == |s.placements| + 1 && s.placements <= r.placements
    requires r.placements[|s.placements|].key == key
    ensures OncePerKey(r) <==> HasExecution(r.tables, key)
  {
    assert forall i :: 0 <= i < |s.placements| ==> r.placements[i] == s.placements[i];
    CallsKept(s, r);
    hide HasExecution, Grows;
  }

  lemma CallsKept(s: State, r: State)
    requires OncePerKey(s) && Grows(s.tables, r.tables)
    ensures forall i :: 0 <= i < |s.placements| ==> HasExecution(r.tables, s.placements[i].key)
  {
    hide Grows, HasExecution;
    forall i | 0 <= i < |s.placements|
      ensures HasExecution(r.tables, s.placements[i].key)
    {
      GrowsKeepsExecutions(s.tables, r.tables, s.placements[i].key);
    }
  }

  /** The exact condition for one step: the invariant survives if and only if the step is no run about to place, or
      PlaceOrder answers with a status the database accepts. */
  lemma StepKeepsInvariantExactly(s: State, timed: Timed)
    requires Invariant(s)
    ensures Invariant(Step(s, timed)) <==> AnswerRecorded(s, timed)
  {
    hide RunOnce, Wanted, WantedKey, HasExecution, Sound, Grows, PlacementRecordable, Step, FindByClient;
    StepPlaces(s, timed);
    StepIsSound(s, timed);
    CallsKept(s, Step(s, timed));
    var s1 := s.(now := s.now + timed.elapsed);
    if timed.event.Run? && AboutToPlace(s1, timed.event.run) {
      RunStep(s, timed);
      RunIsSound(s1, timed.event.run);
      OneMoreCall(s, Step(s, timed), WantedKey(s1, timed.event.run));
    }
  }

  lemma RunStep(s: State, timed: Timed)
    requires timed.event.Run?
    ensures Step(s, timed) == RunOnce(s.(now := s.now + timed.elapsed), timed.event.run).0
  {
    hide RunOnce;
  }

  /** The same for one run. */
  lemma RunKeepsInvariantExactly(s: State, run: RunInput)
    requires Invariant(s)
    ensures Invariant(RunOnce(s, run).0) <==> PlacementRecordable(Run(run)) || !AboutToPlace(s, run)
  {
    hide RunOnce, AboutToPlace, Invariant;
    RunStep(s, Timed(0, Run(run)));
    StepKeepsInvariantExactly(s, Timed(0, Run(run)));
  }

  predicate InvariantThroughout(s: State, steps: seq<Timed>)
    decreases |steps|
  {
    Invariant(s) && (steps == [] || InvariantThroughout(Step(s, steps[0]), steps[1..]))
  }

  predicate AllRecorded(s: State, steps: seq<Timed>)
    decreases |steps|
  {
    steps == [] || (AnswerRecorded(s, steps[0]) && AllRecorded(Step(s, steps[0]), steps[1..]))
  }

  /** Over whole runs: PlaceOrder is called once per key, and each key it was called with has an execution, in every state
      passed through, if and only if every answer to a call can be recorded. */
  lemma {:induction false} OncePerKeyExactly(s: State, steps: seq<Timed>)
    requires Invariant(s)
    ensures InvariantThroughout(s, steps) <==> AllRecorded(s, steps)
    ensures AllRecorded(s, steps) ==> Invariant(Trace(s, steps))
    decreases |steps|
  {
    if steps != [] {
      hide Invariant, Step, AnswerRecorded;
      StepKeepsInvariantExactly(s, steps[0]);
      if Invariant(Step(s, steps[0])) {
        OncePerKeyExactly(Step(s, steps[0]), steps[1..]);
      } else {
        assert !InvariantThroughout(Step(s, steps[0]), steps[1..]);
      }
    }
  }

  lemma InitiallySound(s: State)
    requires Initial(s)
    ensures Invariant(s)
  {
  }

  /** The whole claim from an empty store: the store is sound at the end of every run, and PlaceOrder was called once per
      key if every answer to a call can be recorded. */
  lemma ExecutesOncePerKey(s: State, steps: seq<Timed>)
    requires Initial(s)
    ensures Sound(Trace(s, steps).tables)
    ensures AllRecorded(s, steps) ==> OncePerKey(Trace(s, steps))
  {
    InitiallySound(s);
    hide Sound, OncePerKey;
    StoreStaysSound(s, steps);
    OncePerKeyExactly(s, steps);
  }

  // ---- Where the claim stops ------------------------------------------------------------------------------------

  const SampleConfig := Config("BTC", 1.0, 5.0, 2.0, 1.0, 0, 0.0, 1.0, true, false)

  const SampleState :=
    State(0, Tables([], []), [], 0.0, None, Some(ObservedExposure(-10.0, 1.0, 0)), [])

  function SampleRun(config: Config, accountUsable: bool, place: PlaceAnswer): RunInput {
    RunInput(1, config, 0, OtherReason, accountUsable, true, FetchFailed, 1, place, FetchFailed)
  }

  lemma SampleDecision(config: Config)
    requires config == SampleConfig.(dryRun := config.dryRun)
    ensures Calculate(config, Exposure(-10.0, 1.0), ToPosition("BTC", None)) ==
            Ok(Decision(Open, Some(Buy), "BTC", 10.0, 0.0, 10.0, 10.0, 1.0, false, FirstTrigger, config.dryRun))
  {
    assert CappedTarget(config, -10.0) == 10.0;
    assert ChooseLeg(config, 0.0, 10.0, Open) == FullLeg(false);
    assert Units(10.0, 1.0) == 10.0;
  }

  const SampleKey := Key(1, 0, Open, "BTC", 10.0, 0.0, 10.0)

  /** One canceled placement from a state without executions adds a call and no execution. */
  lemma CanceledPlacement(s: State, run: RunInput)
    requires run == SampleRun(SampleConfig, true, Accepted(Canceled, 0.0))
    requires s.tables.executions == [] && s.snapshot.None? && s.exposure == SampleState.exposure
    ensures var t := RunOnce(s, run).0;
            && t.tables.executions == [] && t.snapshot.None? && t.exposure == s.exposure
            && |t.placements| == |s.placements| + 1 && s.placements <= t.placements
            && t.placements[|s.placements|].key == SampleKey
  {
    hide Calculate;
    SampleDecision(SampleConfig);
  }

  /** A placement the exchange answers with "canceled" is made again by the next run. */
  lemma CanceledPlacementIsRepeated() returns (run: RunInput, t: State)
    ensures Initial(SampleState) && run.place.Accepted? && run.place.status == Canceled
    ensures t == RunOnce(RunOnce(SampleState, run).0, run).0
    ensures |t.placements| == 2 && t.placements[0].key == t.placements[1].key
  {
    hide RunOnce;
    run := SampleRun(SampleConfig, true, Accepted(Canceled, 0.0));
    CanceledPlacement(SampleState, run);
    var t1 := RunOnce(SampleState, run).0;
    CanceledPlacement(t1, run);
    t := RunOnce(t1, run).0;
  }

  /** The plan a sample run makes. */
  function SamplePlan(now: int): Plan {
    Plan(SampleKey, Buy, 10.0, 1.0, false, FirstTrigger, Planned, now)
  }

  /** A live run with an unusable account only stores the plan. */
  lemma PlanOnly()
    ensures RunOnce(SampleState, SampleRun(SampleConfig, false, PlaceError)).0 ==
            SampleState.(now := 1, tables := Tables([SamplePlan(1)], []))
  {
    hide Calculate;
    SampleDecision(SampleConfig);
  }

  lemma DryAfterPlan()
    ensures var dry := SampleRun(SampleConfig.(dryRun := true), true, PlaceError);
            var t := RunOnce(SampleState.(now := 1, tables := Tables([SamplePlan(1)], [])), dry).0;
            && |t.tables.plans| == 1 && |t.tables.executions| == 1
            && t.tables.plans[0].status == Planned && t.tables.executions[0].status == DryRun
  {
    hide Calculate, RefreshedAfter;
    SampleDecision(SampleConfig.(dryRun := true));
    assert FindPlan([SamplePlan(1)], SampleKey) == Some(0);
    hide FindPlan;
  }

  /** A live run that stops before placing, followed by a dry run on the same exposure, leaves a plan that says
      "planned" beside a dry-run execution. */
  lemma DryRunToggleDisagrees()
    ensures var live := SampleRun(SampleConfig, false, PlaceError);
            var dry := SampleRun(SampleConfig.(dryRun := true), true, PlaceError);
            var t := RunOnce(RunOnce(SampleState, live).0, dry).0;
            && !live.config.dryRun && dry.config.dryRun && |t.tables.plans| == 1 && |t.tables.executions| == 1
            && t.tables.plans[0].status == Planned && t.tables.executions[0].status == DryRun
  {
    hide RunOnce;
    PlanOnly();
    DryAfterPlan();
  }
}
