/** The orders of one configuration come one after the other: every execution but the last is final, and the last one is the
    one the guard looks up. Nothing is assumed of the exchange, of its positions or of the clocks. */
module Sequencing {
  import opened Money
  import opened Calculator
  import opened Positions
  import opened OrderStore
  import opened ExitPosition
  import opened HedgeLoop
  import opened Idempotence

  function Last(s: State): Execution
    requires s.tables.executions != []
  {
    s.tables.executions[|s.tables.executions| - 1]
  }

  predicate Pending(s: State) {
    s.tables.executions != [] && Last(s).status.Submitted?
  }

  predicate Chronological(s: State) {
    && (forall i, j :: 0 <= i < j < |s.tables.executions| ==>
          s.tables.executions[i].updatedAt <= s.tables.executions[j].updatedAt)
    && (forall i :: 0 <= i < |s.tables.executions| ==> s.tables.executions[i].updatedAt <= s.now)
    && (forall i :: 0 <= i < |s.tables.executions| - 1 ==> Terminal(s.tables.executions[i].status))
  }

  predicate InSequence(s: State) {
    Sound(s.tables) && Chronological(s)
  }

  lemma LatestIsLast(s: State)
    requires Chronological(s) && s.tables.executions != []
    ensures Latest(s.tables.executions) == Some(|s.tables.executions| - 1)
  {
  }

  lemma SequenceSeesLast(s: State)
    requires InSequence(s) && s.tables.executions != []
    ensures Latest(s.tables.executions) == Some(|s.tables.executions| - 1)
  {
    hide Sound, Latest;
    LatestIsLast(s);
  }

  lemma LastIsStamped(s: State)
    requires Sound(s.tables) && s.tables.executions != []
    ensures Stamped(Last(s))
  {
  }

  // ---- Rows -----------------------------------------------------------------------------------------------------

  /** The executions after a reconcile: one row changed, and it carries the present time. */
  lemma ReconciledRow(s: State, id: nat, c: Config, works: bool, fetch: Fetch)
    requires id < |s.tables.executions| && Reconciled(s, id, c, works, fetch).Some?
    ensures var r := Reconciled(s, id, c, works, fetch).value;
            var rows := r.tables.executions;
            && r.now == s.now && |rows| == |s.tables.executions| && rows[id].updatedAt == s.now
            && forall k :: 0 <= k < |rows| && k != id ==> rows[k] == s.tables.executions[k]
  {
    hide RefreshedAfter, FetchOrder;
  }

  predicate OneMore(before: seq<Execution>, rows: seq<Execution>, now: int) {
    rows != [] && rows[..|rows| - 1] == before && rows[|rows| - 1].updatedAt == now
  }

  /** A first execution adds one row with the present time exactly if it is recorded. */
  lemma FirstRow(s: State, run: RunInput, planId: nat, key: Key, decidedOn: real, d: Decision)
    requires d.side.Some? && planId < |s.tables.plans| && FindByPlan(s.tables.executions, planId).None?
    requires FindByClient(s.tables.executions, key).None?
    ensures var rows := FirstExecution(s, run, planId, key, decidedOn, d).0.tables.executions;
            if Records(run) then OneMore(s.tables.executions, rows, s.now) else rows == s.tables.executions
  {
    hide FindByPlan, FindByClient;
  }

  /** Executing a plan adds one row exactly if its key has none and the execution is recorded. */
  lemma ExecutedRow(s: State, run: RunInput, exposure: ObservedExposure, position: Option<Snapshot>, d: Decision)
    requires Sound(s.tables) && d.side.Some?
    ensures var r := Executed(s, run, exposure, position, d).0;
            && r.now == s.now
            && (if FindByClient(s.tables.executions, KeyOf(run.configId, exposure.observedAt, d)).None? && Records(run)
                then OneMore(s.tables.executions, r.tables.executions, s.now)
                else r.tables.executions == s.tables.executions)
  {
    var key := KeyOf(run.configId, exposure.observedAt, d);
    var plan := Plan(key, d.side.value, d.quantity, d.limitPrice, d.reduceOnly, d.reason,
                     if run.config.dryRun then DryRun else Planned, s.now);
    PlanKept(s.tables, plan, s.now);
    hide Sound, WithPlan, KeyOf, Grows, FindByClient, FindByPlan, OneMore, Records;
    var (t1, planId) := WithPlan(s.tables, plan, s.now);
    if FindByClient(t1.executions, key).None? {
      NoneOfPlan(t1.executions, planId, key);
      FirstRow(s.(tables := t1), run, planId, key, QuantityOf(position), d);
      FirstKeepsTime(s.(tables := t1), run, planId, key, QuantityOf(position), d);
    }
    hide FirstExecution;
  }

  lemma FirstKeepsTime(s: State, run: RunInput, planId: nat, key: Key, decidedOn: real, d: Decision)
    requires d.side.Some? && planId < |s.tables.plans|
    ensures FirstExecution(s, run, planId, key, decidedOn, d).0.now == s.now
  {
    hide WithExecution, WithPlanStatus, NewExecution;
  }

  /** The part of a run after its guard stores a new execution. */
  predicate Adds(s: State, run: RunInput) {
    var d := Asked(s, run);
    && d.Some? && Records(run)
    && FindByClient(s.tables.executions, KeyOf(run.configId, s.exposure.value.observedAt, d.value)).None?
  }

  lemma DecidedRow(s: State, run: RunInput)
    requires Sound(s.tables)
    ensures var r := Decided(s, run).0;
            && r.now == s.now
            && (if Adds(s, run) then OneMore(s.tables.executions, r.tables.executions, s.now)
                else r.tables.executions == s.tables.executions)
  {
    hide Sound, Executed, RunDecision, RefreshedAfter, OneMore, Records, FindByClient, KeyOf;
    if Asked(s, run).Some? {
      ExecutedRow(s, run, s.exposure.value, RunPosition(s, s.exposure.value), Asked(s, run).value);
    }
  }

  // ---- Runs -----------------------------------------------------------------------------------------------------

  lemma ReconciledIsOrdered(s: State, id: nat, c: Config, works: bool, fetch: Fetch)
    requires InSequence(s) && id < |s.tables.executions| && s.tables.executions[id].status.Submitted?
    ensures id == |s.tables.executions| - 1
    ensures var r := Reconciled(s, id, c, works, fetch); r.Some? ==> InSequence(r.value)
  {
    hide Sound, Reconciled;
    assert !Terminal(s.tables.executions[id].status);
    if Reconciled(s, id, c, works, fetch).Some? {
      ReconciledIsSound(s, id, c, works, fetch);
      ReconciledRow(s, id, c, works, fetch);
    }
  }

  /** The guard keeps the order, and lets a run through only when no order is outstanding. */
  lemma GuardedIsOrdered(s: State, run: RunInput)
    requires InSequence(s)
    ensures var (r, block) := AfterGuard(s, run);
            && InSequence(r) && r.now == s.now
            && (run.kind.Automatic? && block.None? ==> !Pending(r))
            && (!run.kind.Automatic? ==> r == s && block.None?)
  {
    hide Reconciled, Sound, Latest;
    if run.kind.Automatic? && s.tables.executions != [] {
      SequenceSeesLast(s);
      var id := |s.tables.executions| - 1;
      var works := run.accountUsable && run.fetchWorks;
      if s.tables.executions[id].status.Submitted? {
        ReconciledIsOrdered(s, id, run.config, works, run.guardFetch);
        if Reconciled(s, id, run.config, works, run.guardFetch).Some? {
          ReconciledRow(s, id, run.config, works, run.guardFetch);
        }
        hide Chronological;
      }
    }
  }

  lemma AddedIsChronological(s: State, r: State)
    requires Chronological(s) && r.now == s.now && OneMore(s.tables.executions, r.tables.executions, s.now)
    requires s.tables.executions != [] ==> Terminal(Last(s).status)
    ensures Chronological(r)
  {
    var before, rows := s.tables.executions, r.tables.executions;
    assert forall i :: 0 <= i < |before| ==> rows[i] == before[i];
  }

  lemma AddedOverOpen(s: State, r: State)
    requires Pending(s) && OneMore(s.tables.executions, r.tables.executions, s.now)
    ensures !Chronological(r)
  {
    var rows := r.tables.executions;
    assert rows[..|rows| - 1][|rows| - 2] == Last(s);
  }

  lemma AddedIsOrderedExactly(s: State, r: State)
    requires InSequence(s) && Sound(r.tables) && r.now == s.now
    requires OneMore(s.tables.executions, r.tables.executions, s.now)
    ensures InSequence(r) <==> !Pending(s)
  {
    if Pending(s) {
      AddedOverOpen(s, r);
    } else {
      if s.tables.executions != [] {
        LastIsStamped(s);
      }
      AddedIsChronological(s, r);
    }
    hide Sound, Chronological, OneMore;
  }

  /** The part of a run after its guard keeps the order if and only if it does not add an execution to an open one. */
  lemma DecidedIsOrderedExactly(s: State, run: RunInput)
    requires InSequence(s)
    ensures InSequence(Decided(s, run).0) <==> !(Pending(s) && Adds(s, run))
  {
    hide Sound, Decided, Adds, OneMore, Grows, Asked, KeyOf, HasExecution;
    DecidedRow(s, run);
    DecidedIsSound(s, run);
    if Adds(s, run) {
      AddedIsOrderedExactly(s, Decided(s, run).0);
    }
  }

  lemma LaterIsOrdered(s: State, elapsed: nat)
    requires InSequence(s)
    ensures var r := s.(now := s.now + elapsed); InSequence(r) && (Pending(r) <==> Pending(s))
  {
    hide Sound;
  }

  /** A run with a reason other than automatic hedging, which no guard holds back, executes over an open order. */
  predicate Overtakes(s: State, run: RunInput) {
    !run.kind.Automatic? && Pending(s) && Adds(s.(now := s.now + run.pause), run)
  }

  lemma RunIsOrderedExactly(s: State, run: RunInput)
    requires InSequence(s)
    ensures InSequence(RunOnce(s, run).0) <==> !Overtakes(s, run)
  {
    hide InSequence, Pending, Decided, AfterGuard, Adds;
    GuardedIsOrdered(s, run);
    var (s0, block) := AfterGuard(s, run);
    LaterIsOrdered(s0, run.pause);
    if block.None? {
      DecidedIsOrderedExactly(AtDecision(s, run), run);
    }
  }

  predicate InTurn(s: State, timed: Timed) {
    timed.event.Run? ==> !Overtakes(s.(now := s.now + timed.elapsed), timed.event.run)
  }

  lemma StepIsOrderedExactly(s: State, timed: Timed)
    requires InSequence(s)
    ensures InSequence(Step(s, timed)) <==> InTurn(s, timed)
  {
    hide RunOnce, Reconciled, Synced, Sound, Overtakes;
    LaterIsOrdered(s, timed.elapsed);
    var s1 := s.(now := s.now + timed.elapsed);
    match timed.event
    case Run(run) => RunIsOrderedExactly(s1, run);
    case ReconcileTask(id, c, works, fetch) =>
      if id < |s1.tables.executions| && s1.tables.executions[id].status.Submitted? {
        ReconciledIsOrdered(s1, id, c, works, fetch);
      }
    case SyncPosition(target, fetch) => SyncTouchesSnapshotOnly(s1, target, fetch);
    case _ =>
  }

  predicate OrderedThroughout(s: State, steps: seq<Timed>)
    decreases |steps|
  {
    InSequence(s) && (steps == [] || OrderedThroughout(Step(s, steps[0]), steps[1..]))
  }

  predicate AllInTurn(s: State, steps: seq<Timed>)
    decreases |steps|
  {
    steps == [] || (InTurn(s, steps[0]) && AllInTurn(Step(s, steps[0]), steps[1..]))
  }

  /** Over whole runs of every kind: every execution but the last is final, in every state passed through, if and only if
      no run that is not automatic executes over an open order. */
  lemma {:induction false} OrderedExactly(s: State, steps: seq<Timed>)
    requires InSequence(s)
    ensures OrderedThroughout(s, steps) <==> AllInTurn(s, steps)
    ensures AllInTurn(s, steps) ==> InSequence(Trace(s, steps))
    decreases |steps|
  {
    if steps != [] {
      hide InSequence, Step, InTurn;
      StepIsOrderedExactly(s, steps[0]);
      if InSequence(Step(s, steps[0])) {
        OrderedExactly(Step(s, steps[0]), steps[1..]);
      } else {
        assert !OrderedThroughout(Step(s, steps[0]), steps[1..]);
      }
    }
  }

  predicate AllAutomatic(steps: seq<Timed>) {
    forall i :: 0 <= i < |steps| && steps[i].event.Run? ==> steps[i].event.run.kind.Automatic?
  }

  lemma {:induction false} AutomaticIsInTurn(s: State, steps: seq<Timed>)
    requires AllAutomatic(steps)
    ensures AllInTurn(s, steps)
    decreases |steps|
  {
    if steps != [] {
      hide Step, Adds;
      AutomaticIsInTurn(Step(s, steps[0]), steps[1..]);
    }
  }

  lemma InitiallyOrdered(s: State)
    requires Initial(s)
    ensures InSequence(s)
  {
  }

  /** In every run of automatic hedging, whatever exchange, positions and clocks do, at most one execution is submitted,
      it is the one looked up as the latest, and all others are final. */
  lemma OneOutstandingOrder(s: State, steps: seq<Timed>, i: nat)
    requires Initial(s) && AllAutomatic(steps)
    requires i < |Trace(s, steps).tables.executions| && Trace(s, steps).tables.executions[i].status.Submitted?
    ensures Latest(Trace(s, steps).tables.executions) == Some(i)
    ensures forall k :: 0 <= k < |Trace(s, steps).tables.executions| && k != i ==>
              Terminal(Trace(s, steps).tables.executions[k].status)
  {
    hide Sound, Trace, AllInTurn, AllAutomatic, OrderedThroughout, Latest;
    InitiallyOrdered(s);
    AutomaticIsInTurn(s, steps);
    OrderedExactly(s, steps);
    LatestIsLast(Trace(s, steps));
  }
}
