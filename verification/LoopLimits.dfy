/** Two runs in which a fill is hidden by its clocks: a position stamped in the future, and a sync and a fill at the same
    instant. The guard then trusts a snapshot that misses the fill. */
module LoopLimits {
  import opened Money
  import opened Calculator
  import opened Positions
  import opened OrderStore
  import opened ExitPosition
  import opened HedgeLoop
  import Sync = PositionSync

  const Config0 := Config("BTC", 1.0, 5.0, 2.0, 1.0, 0, 0.0, 1.0, true, false)

  const Start := State(0, Tables([], []), [], 0.0, None, None, [])

  /** An exchange that reports the position flat, stamped by itself. */
  function FlatAt(stamp: int): Fetch {
    Fetched([RawPosition("BTC", Net, 0.0, 0.0, 0.0, 0.0, stamp)])
  }

  lemma FlatSync(s: State, stamp: int)
    ensures Synced(s, "BTC", FlatAt(stamp)) ==
            s.(snapshot := Some(Snapshot(Net, 0.0, 0.0, 0.0, 0.0, if stamp > s.now then stamp else s.now)))
  {
    var p := RawPosition("BTC", Net, 0.0, 0.0, 0.0, 0.0, stamp);
    assert [p][..0] == [];
    assert Sync.AggregateOf(Sync.Normalize("BTC"), "BTC", [p], s.now) ==
           Sync.Folded(Sync.Aggregate("BTC", 0.0, 0.0, 0.0, 0.0, s.now), p);
  }

  /** An automatic run without cooldown whose order fills completely while the position refresh fails. */
  function FillingRun(pause: nat): RunInput {
    RunInput(1, Config0, 0, Automatic, true, true, FetchFailed, pause, Accepted(Filled, 10.0), FetchFailed)
  }

  /** A flat snapshot stored at `observedAt` and an exposure that asks for ten units. */
  predicate AsksForTen(s: State, observedAt: int, exposedAt: int) {
    && s.snapshot == Some(Snapshot(Net, 0.0, 0.0, 0.0, 0.0, observedAt))
    && s.exposure == Some(ObservedExposure(-10.0, 1.0, exposedAt))
    && FindByClient(s.tables.executions, TenKey(exposedAt)).None?
    && FindPlan(s.tables.plans, TenKey(exposedAt)).None?
    && FindByPlan(s.tables.executions, |s.tables.plans|).None?
  }

  function TenKey(exposedAt: int): Key {
    Key(1, exposedAt, Open, "BTC", 10.0, 0.0, 10.0)
  }

  lemma TenDecision(p: Position)
    requires p.notional == 0.0 && p.quantity == 0.0
    ensures Calculate(Config0, Exposure(-10.0, 1.0), p) ==
            Ok(Decision(Open, Some(Buy), "BTC", 10.0, 0.0, 10.0, 10.0, 1.0, false, FirstTrigger, false))
  {
    assert CappedTarget(Config0, -10.0) == 10.0;
    assert ChooseLeg(Config0, 0.0, 10.0, Open) == FullLeg(false);
    assert Units(10.0, 1.0) == 10.0;
  }

  /** The run buys ten more whatever is held: it only sees the snapshot. */
  lemma BuysTen(s: State, pause: nat, observedAt: int, exposedAt: int)
    requires AsksForTen(s, observedAt, exposedAt)
    requires Guarded(s, FillingRun(pause)) == (s, None)
    ensures var t := RunOnce(s, FillingRun(pause)).0;
            && t.snapshot == s.snapshot && t.exposure == s.exposure && t.now == s.now + pause
            && t.held == s.held + 10.0
            && t.placements == s.placements + [Placement(TenKey(exposedAt), 0.0, s.held, Some(|s.orders|))]
            && |t.tables.plans| == |s.tables.plans| + 1
            && t.tables.plans[|s.tables.plans|].key == TenKey(exposedAt)
            && t.tables.plans[..|s.tables.plans|] == s.tables.plans
            && t.tables.executions == s.tables.executions +
               [NewExecution(|s.tables.plans|, TenKey(exposedAt), Some(|s.orders|), Filled, 10.0, t.now)]
  {
    hide Calculate, Guarded, FindByClient, FindByPlan, FindPlan, NewExecution, FirstOpen;
    var run := FillingRun(pause);
    var position := RunPosition(s, s.exposure.value);
    TenDecision(ToPosition("BTC", position));
    NewIsFilled(|s.tables.plans|, TenKey(exposedAt), Some(|s.orders|), s.now + pause);
  }

  lemma NewIsFilled(planId: nat, key: Key, order: Option<nat>, now: int)
    ensures var e := NewExecution(planId, key, order, Filled, 10.0, now);
            e.status == Filled && e.planId == planId && e.clientId == key && e.updatedAt == now && e.filled == 10.0
  {
  }

  /** A snapshot that is not older than the only execution, which is filled, lets the run through. */
  lemma GuardTrusts(s: State, run: RunInput)
    requires |s.tables.executions| == 1 && s.tables.executions[0].status.Filled? && run.cooldown == 0
    requires s.snapshot.Some? && s.snapshot.value.observedAt >= s.tables.executions[0].updatedAt
    ensures Guarded(s, run) == (s, None)
  {
    assert Latest(s.tables.executions) == Some(0);
  }

  /** The state after the first run, when a new exposure came in and time passed. */
  function AfterFirst(s: State, pause: nat, later: int, elapsed: nat): State {
    var s1 := RunOnce(s, FillingRun(pause)).0;
    s1.(exposure := Some(ObservedExposure(-10.0, 1.0, later)), now := s1.now + elapsed)
  }

  /** The second run passes the guard, since the snapshot is not older than the fill it misses. */
  lemma SecondRunIsBlind(s: State, pause: nat, observedAt: int, exposedAt: int, later: int, elapsed: nat)
    requires AsksForTen(s, observedAt, exposedAt) && s.tables == Tables([], []) && s.placements == [] && s.held == 0.0
    requires observedAt >= s.now + pause && later != exposedAt
    ensures var t := RunOnce(AfterFirst(s, pause, later, elapsed), FillingRun(pause)).0;
            |t.placements| == 2 && t.placements[1].decidedOn == 0.0 && t.placements[1].held == 10.0
  {
    assert Guarded(s, FillingRun(pause)) == (s, None);
    BuysTen(s, pause, observedAt, exposedAt);
    NewIsFilled(0, TenKey(exposedAt), Some(|s.orders|), s.now + pause);
    hide RunOnce, NewExecution, Guarded;
    var s2 := AfterFirst(s, pause, later, elapsed);
    GuardTrusts(s2, FillingRun(pause));
    assert TenKey(later) != TenKey(exposedAt);
    OneRowOfAnother(s2, TenKey(exposedAt), TenKey(later));
    BuysTen(s2, pause, observedAt, later);
  }

  lemma OneRowOfAnother(s: State, there: Key, wanted: Key)
    requires |s.tables.plans| == 1 && s.tables.plans[0].key == there && there != wanted
    requires |s.tables.executions| == 1 && s.tables.executions[0].clientId == there && s.tables.executions[0].planId == 0
    ensures FindByClient(s.tables.executions, wanted).None? && FindPlan(s.tables.plans, wanted).None?
    ensures FindByPlan(s.tables.executions, 1).None?
  {
  }

  /** A flat position stamped one day ahead, a run that buys ten, a new exposure, and a second run that buys ten more
      while ten are held. */
  lemma FutureStampHidesAFill() returns (steps: seq<Timed>)
    ensures Initial(Start)
    ensures steps == [Timed(1, SyncExposure(-10.0, 1.0)), Timed(1, SyncPosition("BTC", FlatAt(86400))),
                      Timed(1, Run(FillingRun(1))), Timed(1, SyncExposure(-10.0, 1.0)), Timed(1, Run(FillingRun(1)))]
    ensures var t := Trace(Start, steps);
            |t.placements| == 2 && t.placements[1].decidedOn == 0.0 && t.placements[1].held == 10.0
  {
    hide RunOnce, Synced, FlatAt;
    var a, b := Timed(1, SyncExposure(-10.0, 1.0)), Timed(1, SyncPosition("BTC", FlatAt(86400)));
    var c := Timed(1, Run(FillingRun(1)));
    steps := [a, b, c, a, c];
    FlatSync(Step(Start, a).(now := 2), 86400);
    var s2 := Step(Step(Start, a), b);
    var s3 := s2.(now := 3);
    assert Guarded(s3, FillingRun(1)) == (s3, None);
    BuysTen(s3, 1, 86400, 1);
    SecondRunIsBlind(s3, 1, 86400, 1, 5, 2);
    FiveSteps(Start, a, b, c, a, c);
  }

  /** The same when the sync and the fill share one instant of the clock. */
  lemma TieHidesAFill() returns (steps: seq<Timed>)
    ensures Initial(Start)
    ensures steps == [Timed(1, SyncExposure(-10.0, 1.0)), Timed(1, SyncPosition("BTC", FlatAt(0))),
                      Timed(0, Run(FillingRun(0))), Timed(1, SyncExposure(-10.0, 1.0)), Timed(1, Run(FillingRun(0)))]
    ensures var t := Trace(Start, steps);
            |t.placements| == 2 && t.placements[1].decidedOn == 0.0 && t.placements[1].held == 10.0
  {
    hide RunOnce, Synced, FlatAt;
    var a, b := Timed(1, SyncExposure(-10.0, 1.0)), Timed(1, SyncPosition("BTC", FlatAt(0)));
    var c, d := Timed(0, Run(FillingRun(0))), Timed(1, Run(FillingRun(0)));
    steps := [a, b, c, a, d];
    FlatSync(Step(Start, a).(now := 2), 0);
    var s2 := Step(Step(Start, a), b);
    assert Guarded(s2, FillingRun(0)) == (s2, None);
    BuysTen(s2, 0, 2, 1);
    SecondRunIsBlind(s2, 0, 2, 1, 3, 2);
    FiveSteps(Start, a, b, c, a, d);
  }

  lemma FiveSteps(s: State, a: Timed, b: Timed, c: Timed, d: Timed, e: Timed)
    ensures Trace(s, [a, b, c, d, e]) == Step(Step(Step(Step(Step(s, a), b), c), d), e)
  {
    hide Step;
    assert [a, b, c, d, e][1..] == [b, c, d, e] && [b, c, d, e][1..] == [c, d, e];
    assert [c, d, e][1..] == [d, e] && [d, e][1..] == [e];
    var s2 := Step(Step(s, a), b);
    assert Trace(s, [a, b, c, d, e]) == Trace(Step(s, a), [b, c, d, e]) == Trace(s2, [c, d, e]);
    assert Trace(s2, [c, d, e]) == Trace(Step(s2, c), [d, e]) == Trace(Step(Step(s2, c), d), [e]);
    OneStep(Step(Step(s2, c), d), e);
  }

  lemma OneStep(s: State, e: Timed)
    ensures Trace(s, [e]) == Step(s, e)
  {
    hide Step;
    assert [e][1..] == [];
    assert Trace(Step(s, e), []) == Step(s, e);
  }
}
