/** When plans show the status of their executions, live and dry runs mixed: exactly while no dry run meets a plan that an
    earlier live run left open. */
module PlanAgreement {
  import opened Money
  import opened Calculator
  import opened Positions
  import opened OrderStore
  import opened ExitPosition
  import opened HedgeLoop
  import opened Idempotence

  predicate PlansAgree(t: Tables) {
    forall i :: 0 <= i < |t.executions| ==>
      t.executions[i].planId < |t.plans| && t.plans[t.executions[i].planId].status == t.executions[i].status
  }

  /** A plan with this key is stored, says something other than "dry_run", and has no execution. */
  predicate LeftOpen(t: Tables, key: Key) {
    var i := FindPlan(t.plans, key);
    i.Some? && !t.plans[i.value].status.DryRun? && FindByClient(t.executions, key).None?
  }

  /** The run is a dry run that is about to execute a plan left open. */
  predicate MixesDryRun(s: State, run: RunInput) {
    run.config.dryRun && Wanted(s, run).Some? && LeftOpen(s.tables, WantedKey(s, run))
  }

  // ---- One row --------------------------------------------------------------------------------------------------

  /** Touching or adding a plan changes no execution and no status. */
  lemma PlanAgrees(t: Tables, plan: Plan, now: int)
    requires Sound(t) && PlansAgree(t)
    ensures PlansAgree(WithPlan(t, plan, now).0)
    ensures var (u, id) := WithPlan(t, plan, now);
            && u.executions == t.executions
            && u.plans[id].status == (var i := FindPlan(t.plans, plan.key);
                                      if i.Some? then t.plans[i.value].status else plan.status)
  {
    hide Sound;
  }

  /** A new execution of a plan that had none agrees exactly when the plan shows its status. */
  lemma AppendedAgreesExactly(t: Tables, u: Tables, e: Execution)
    requires PlansAgree(t) && e.planId < |t.plans| && FindByPlan(t.executions, e.planId).None?
    requires u.executions == t.executions + [e] && |u.plans| == |t.plans|
    requires forall i :: 0 <= i < |t.plans| && i != e.planId ==> u.plans[i] == t.plans[i]
    ensures PlansAgree(u) <==> u.plans[e.planId].status == e.status
  {
    hide FindByPlan;
    assert u.executions[|t.executions|] == e;
    forall i | 0 <= i < |t.executions|
      ensures u.plans[t.executions[i].planId].status == t.executions[i].status
    {
      assert t.executions[i].planId != e.planId;
    }
  }

  lemma DryExecutionAgreesExactly(s: State, planId: nat, key: Key)
    requires PlansAgree(s.tables) && planId < |s.tables.plans|
    requires FindByPlan(s.tables.executions, planId).None? && FindByClient(s.tables.executions, key).None?
    ensures PlansAgree(RecordedDry(s, NewExecution(planId, key, None, DryRun, 0.0, s.now)).0.tables) <==>
            s.tables.plans[planId].status.DryRun?
  {
    hide FindByPlan, FindByClient;
    var e := NewExecution(planId, key, None, DryRun, 0.0, s.now);
    AppendedAgreesExactly(s.tables, s.tables.(executions := s.tables.executions + [e]), e);
    hide PlansAgree;
  }

  lemma LiveExecutionAgrees(s: State, planId: nat, e: Execution)
    requires PlansAgree(s.tables) && planId < |s.tables.plans| && e.planId == planId
    requires FindByPlan(s.tables.executions, planId).None?
    ensures PlansAgree(Recorded(s, planId, e).0.tables)
  {
    hide FindByPlan, FindByClient;
    var u := WithPlanStatus(s.tables.(executions := s.tables.executions + [e]), planId, e.status, s.now);
    AppendedAgreesExactly(s.tables, u, e);
    hide PlansAgree;
  }

  /** The first execution of a plan: a live one always agrees, a dry one exactly when the plan says "dry_run". */
  lemma FirstAgreesExactly(s: State, run: RunInput, planId: nat, key: Key, decidedOn: real, d: Decision)
    requires PlansAgree(s.tables) && d.side.Some? && planId < |s.tables.plans|
    requires FindByPlan(s.tables.executions, planId).None? && FindByClient(s.tables.executions, key).None?
    ensures PlansAgree(FirstExecution(s, run, planId, key, decidedOn, d).0.tables) <==>
            (run.config.dryRun ==> s.tables.plans[planId].status.DryRun?)
  {
    hide PlansAgree, Recorded, RecordedDry, NewExecution, FindByPlan, FindByClient;
    NamedPlan(planId, key, s.now);
    if run.config.dryRun {
      DryExecutionAgreesExactly(s, planId, key);
    } else if run.place.Accepted? {
      var o := ExchangeOrder(key, d.side.value, d.quantity, d.reduceOnly, run.place.status, run.place.filled);
      LiveExecutionAgrees(Accepting(s, o, Placement(key, decidedOn, s.held, Some(|s.orders|))), planId,
                          NewExecution(planId, key, Some(|s.orders|), run.place.status, run.place.filled, s.now));
    } else {
      LiveExecutionAgrees(s.(placements := s.placements + [Placement(key, decidedOn, s.held, None)]), planId,
                          NewExecution(planId, key, None, Failed, 0.0, s.now));
    }
  }

  lemma NamedPlan(planId: nat, key: Key, now: int)
    ensures forall order, status, filled :: NewExecution(planId, key, order, status, filled, now).planId == planId
  {
  }

  lemma ExecutedAgreesExactly(
    s: State, run: RunInput, exposure: ObservedExposure, position: Option<Snapshot>, d: Decision)
    requires Sound(s.tables) && PlansAgree(s.tables) && d.side.Some?
    ensures PlansAgree(Executed(s, run, exposure, position, d).0.tables) <==>
            !(run.config.dryRun && LeftOpen(s.tables, KeyOf(run.configId, exposure.observedAt, d)))
  {
    var key := KeyOf(run.configId, exposure.observedAt, d);
    var plan := Plan(key, d.side.value, d.quantity, d.limitPrice, d.reduceOnly, d.reason,
                     if run.config.dryRun then DryRun else Planned, s.now);
    PlanKept(s.tables, plan, s.now);
    PlanAgrees(s.tables, plan, s.now);
    hide Sound, Grows, PlansAgree, WithPlan, FindByClient, FindPlan, KeyOf, FirstExecution;
    var (t1, planId) := WithPlan(s.tables, plan, s.now);
    if FindByClient(t1.executions, key).None? {
      NoneOfPlan(t1.executions, planId, key);
      FirstAgreesExactly(s.(tables := t1), run, planId, key, QuantityOf(position), d);
    }
  }

  // ---- A whole run ----------------------------------------------------------------------------------------------

  lemma ReconciledAgrees(s: State, id: nat, c: Config, works: bool, fetch: Fetch)
    requires Sound(s.tables) && PlansAgree(s.tables) && id < |s.tables.executions|
    requires Reconciled(s, id, c, works, fetch).Some?
    ensures PlansAgree(Reconciled(s, id, c, works, fetch).value.tables)
  {
    hide FetchOrder, RefreshedAfter;
    var t, u := s.tables, Reconciled(s, id, c, works, fetch).value.tables;
    forall i | 0 <= i < |u.executions|
      ensures u.executions[i].planId < |u.plans| && u.plans[u.executions[i].planId].status == u.executions[i].status
    {
      assert t.executions[i].planId == t.executions[id].planId ==> t.executions[i].clientId == t.executions[id].clientId;
    }
  }

  /** The guard keeps agreement, and opens or closes no plan that has no execution. */
  lemma GuardAgrees(s: State, run: RunInput, key: Key)
    requires Sound(s.tables) && PlansAgree(s.tables)
    ensures var t := AfterGuard(s, run).0.tables;
            Sound(t) && PlansAgree(t) && (LeftOpen(t, key) <==> LeftOpen(s.tables, key))
  {
    var id := Latest(s.tables.executions);
    var works := run.accountUsable && run.fetchWorks;
    if run.kind.Automatic? && id.Some? && s.tables.executions[id.value].status.Submitted?
       && Reconciled(s, id.value, run.config, works, run.guardFetch).Some? {
      ReconciledIsSound(s, id.value, run.config, works, run.guardFetch);
      ReconciledAgrees(s, id.value, run.config, works, run.guardFetch);
      ReconciledLeavesOpen(s, id.value, run.config, works, run.guardFetch, key);
      hide Reconciled, Sound, PlansAgree, LeftOpen, Grows;
    } else {
      hide Sound, PlansAgree, LeftOpen;
    }
  }

  lemma ReconciledLeavesOpen(s: State, id: nat, c: Config, works: bool, fetch: Fetch, key: Key)
    requires Linked(s.tables) && id < |s.tables.executions| && Reconciled(s, id, c, works, fetch).Some?
    ensures LeftOpen(Reconciled(s, id, c, works, fetch).value.tables, key) <==> LeftOpen(s.tables, key)
  {
    ReconciledKeepsClients(s, id, c, works, fetch);
    ReconciledPlans(s, id, c, works, fetch);
    var t, u := s.tables, Reconciled(s, id, c, works, fetch).value.tables;
    SameClients(u.executions, t.executions, key);
    SameKeys(u.plans, t.plans, key);
    var i := FindPlan(t.plans, key);
    if i.Some? && i.value == t.executions[id].planId {
      assert t.executions[id].clientId == key;
    }
    hide Reconciled, FindPlan, FindByClient;
  }

  lemma ReconciledPlans(s: State, id: nat, c: Config, works: bool, fetch: Fetch)
    requires id < |s.tables.executions| && Reconciled(s, id, c, works, fetch).Some?
    ensures var t, u := s.tables, Reconciled(s, id, c, works, fetch).value.tables;
            && |u.plans| == |t.plans|
            && (forall i :: 0 <= i < |t.plans| ==> u.plans[i].key == t.plans[i].key)
            && (forall i :: 0 <= i < |t.plans| && i != t.executions[id].planId ==> u.plans[i] == t.plans[i])
  {
    hide FetchOrder, RefreshedAfter;
  }

  lemma {:induction false} SameKeys(a: seq<Plan>, b: seq<Plan>, key: Key)
    requires |a| == |b| && forall i :: 0 <= i < |a| ==> a[i].key == b[i].key
    ensures FindPlan(a, key) == FindPlan(b, key)
    decreases |a|
  {
    if a != [] {
      SameKeys(a[..|a| - 1], b[..|b| - 1], key);
    }
  }

  lemma DecidedAgreesExactly(s: State, run: RunInput)
    requires Sound(s.tables) && PlansAgree(s.tables)
    ensures PlansAgree(Decided(s, run).0.tables) <==>
            !(run.config.dryRun && Asked(s, run).Some?
              && LeftOpen(s.tables, KeyOf(run.configId, s.exposure.value.observedAt, Asked(s, run).value)))
  {
    hide Sound, PlansAgree, LeftOpen, RunDecision, RefreshedAfter, KeyOf, Executed;
    if Asked(s, run).Some? {
      ExecutedAgreesExactly(s, run, s.exposure.value, RunPosition(s, s.exposure.value), Asked(s, run).value);
    }
  }

  /** From agreement, a run of any kind keeps it if and only if it is not a dry run that wants an order for which an
      earlier run left its plan open. */
  lemma RunAgreesExactly(s: State, run: RunInput)
    requires Sound(s.tables) && PlansAgree(s.tables)
    ensures PlansAgree(RunOnce(s, run).0.tables) <==> !MixesDryRun(s, run)
  {
    hide Sound, PlansAgree, LeftOpen, Decided, AfterGuard, Asked, KeyOf;
    GuardAgrees(s, run, if Wanted(s, run).Some? then WantedKey(s, run) else NoKey);
    if AfterGuard(s, run).1.None? {
      DecidedAgreesExactly(AtDecision(s, run), run);
    }
  }

  // ---- Whole traces ---------------------------------------------------------------------------------------------

  predicate KeepsAgreement(s: State, timed: Timed) {
    timed.event.Run? ==> !MixesDryRun(s.(now := s.now + timed.elapsed), timed.event.run)
  }

  lemma StepAgreesExactly(s: State, timed: Timed)
    requires Sound(s.tables) && PlansAgree(s.tables)
    ensures Sound(Step(s, timed).tables)
    ensures PlansAgree(Step(s, timed).tables) <==> KeepsAgreement(s, timed)
  {
    hide RunOnce, Reconciled, Synced, Sound, PlansAgree, Grows, MixesDryRun;
    var s1 := s.(now := s.now + timed.elapsed);
    match timed.event
    case Run(run) =>
      RunIsSound(s1, run);
      RunAgreesExactly(s1, run);
    case ReconcileTask(id, c, works, fetch) =>
      if id < |s1.tables.executions| && s1.tables.executions[id].status.Submitted?
         && Reconciled(s1, id, c, works, fetch).Some? {
        ReconciledIsSound(s1, id, c, works, fetch);
        ReconciledAgrees(s1, id, c, works, fetch);
      }
    case SyncPosition(target, fetch) => SyncTouchesSnapshotOnly(s1, target, fetch);
    case _ =>
  }

  predicate AgreeThroughout(s: State, steps: seq<Timed>)
    decreases |steps|
  {
    PlansAgree(s.tables) && (steps == [] || AgreeThroughout(Step(s, steps[0]), steps[1..]))
  }

  predicate AllKeepAgreement(s: State, steps: seq<Timed>)
    decreases |steps|
  {
    steps == [] || (KeepsAgreement(s, steps[0]) && AllKeepAgreement(Step(s, steps[0]), steps[1..]))
  }

  /** Over whole runs, live and dry mixed: every plan shows its execution's status in every state passed through if and
      only if no dry run wants an order whose plan was left open. */
  lemma {:induction false} PlansAgreeExactly(s: State, steps: seq<Timed>)
    requires Sound(s.tables) && PlansAgree(s.tables)
    ensures AgreeThroughout(s, steps) <==> AllKeepAgreement(s, steps)
    decreases |steps|
  {
    if steps != [] {
      hide Sound, PlansAgree, Step, KeepsAgreement;
      StepAgreesExactly(s, steps[0]);
      if PlansAgree(Step(s, steps[0]).tables) {
        PlansAgreeExactly(Step(s, steps[0]), steps[1..]);
      } else {
        assert !AgreeThroughout(Step(s, steps[0]), steps[1..]);
      }
    }
  }

  lemma LivePlansAgree(t: Tables)
    requires Sound(t) && forall i :: 0 <= i < |t.executions| ==> !t.executions[i].status.DryRun?
    ensures PlansAgree(t)
  {
    forall i | 0 <= i < |t.executions|
      ensures t.executions[i].planId < |t.plans| && t.plans[t.executions[i].planId].status == t.executions[i].status
    {
      assert Agrees(t, t.executions[i]);
    }
  }

  lemma {:induction false} LiveStepsKeepAgreement(s: State, steps: seq<Timed>)
    requires forall i :: 0 <= i < |steps| && steps[i].event.Run? ==> !steps[i].event.run.config.dryRun
    ensures AllKeepAgreement(s, steps)
    decreases |steps|
  {
    if steps != [] {
      hide Step;
      LiveStepsKeepAgreement(Step(s, steps[0]), steps[1..]);
    }
  }

  /** In particular with live runs only, from a store without dry-run executions and whatever the exchange answers. */
  lemma PlansAgreeInLiveRuns(s: State, steps: seq<Timed>)
    requires Sound(s.tables) && forall i :: 0 <= i < |s.tables.executions| ==> !s.tables.executions[i].status.DryRun?
    requires forall i :: 0 <= i < |steps| && steps[i].event.Run? ==> !steps[i].event.run.config.dryRun
    ensures AgreeThroughout(s, steps)
  {
    hide Sound, AgreeThroughout, AllKeepAgreement;
    LivePlansAgree(s.tables);
    LiveStepsKeepAgreement(s, steps);
    PlansAgreeExactly(s, steps);
  }
}
