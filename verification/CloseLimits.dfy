/** Histories from the start of the service in which the exact conditions of CloseDiscipline and RunsAfterClose fail. */
module CloseLimits {
  import opened Money
  import opened Calculator
  import opened Positions
  import opened ExitPosition
  import opened CloseStore
  import opened Chains
  import opened CloseLifecycle
  import opened CloseInvariants
  import opened CloseDiscipline
  import Store = OrderStore
  import Loop = HedgeLoop
  import Limits = LoopLimits

  const Config0 := Limits.Config0

  const Context0 := Context(1, Config0)

  // ---- A history with two chains --------------------------------------------------------------------------------

  /** Ten units held and nothing ordered yet. */
  const Holding := Loop.State(
    4, Store.Tables([], []), [], 10.0, Some(Snapshot(Net, 10.0, 10.0, 1.0, 1.0, 4)), None, [])

  const Start := State(Holding, Rows(true, Active, []), [], Idle, false)

  const TenLive := RawPosition("BTC", Net, 10.0, 10.0, 1.0, 1.0, 4)

  const ClosesTen := ExitAnswers(Fetched([TenLive]), Ticker(1.0, 1.0), true, Loop.Accepted(Store.Filled, 10.0))

  const CloseKey := Store.Key(1, 4, Exit, "BTC", 0.0, 10.0, -10.0)

  const CloseRow := Store.Execution(0, CloseKey, Some(0), Store.Filled, 10.0, Some(4), Some(4), None, 4)

  /** The loop after the close was placed and filled at once. */
  const FilledLoop := Loop.State(
    4, Store.Tables([Store.Plan(CloseKey, Sell, 10.0, 1.0, true, ManualClose, Store.Filled, 4)], [CloseRow]),
    [Loop.ExchangeOrder(CloseKey, Sell, 10.0, true, Store.Filled, 10.0)], 0.0,
    Some(Snapshot(Net, 10.0, 10.0, 1.0, 1.0, 4)), None, [Loop.Placement(CloseKey, 10.0, 10.0, Some(0))])

  const CloseDecision := Decision(Exit, Some(Sell), "BTC", 0.0, 10.0, -10.0, 10.0, 1.0, true, ManualClose, false)

  const Closing0 := CloseOrder(CloseDecision, Some(Snapshot(Net, 10.0, 10.0, 1.0, 1.0, 4)), 0, CloseRow)

  const NothingLeft := Answers(Config0, true, FetchFailed, Fetched([]))

  const OneLeft :=
    Answers(Config0, true, FetchFailed, Fetched([RawPosition("BTC", Net, 1.0, 1.0, 1.0, 1.0, 4)]))

  const NoAnswer := Answers(Config0, true, FetchFailed, FetchFailed)

  /** An exit whose order fills at once while no position fetch answers, one attempt in vain, a crash, and the recovery
      that schedules a second chain. */
  const TwoChainsHistory := [
    ExitBegin(Context0, Accepts), ExitPlace(ClosesTen), ExitLink, ExitEnd(FetchFailed, FetchFailed, Accepts),
    Chain(0, NoAnswer, Accepts), Crash, Recover(Accepts)]

  const TwoChains := State(FilledLoop, Rows(true, Closing, [Request(Some(0), Verifying)]),
                           [Task(0, 1, true), Task(0, 0, true)], Idle, false)

  lemma ShownPositions(now: int)
    ensures LivePosition("BTC", OneLeft.fetch, now).LiveOpen?
    ensures LivePosition("BTC", NothingLeft.fetch, now).LiveFlat?
    ensures LivePosition("BTC", ClosesTen.fetch, now) == LiveOpen(Snapshot(Net, 10.0, 10.0, 1.0, 1.0, now))
  {
    assert OneLeft.fetch.positions[0] in OneLeft.fetch.positions;
    assert FirstOpen("BTC", [TenLive]) == Some(TenLive);
  }

  lemma CloseOfTen()
    ensures LoadExit(Config0, ClosesTen.fetch, ClosesTen.ticker, Holding.snapshot, 4) ==
            Loaded(Closing0.position, Closing0.position)
    ensures ClosePosition(Config0, ToPosition("BTC", Closing0.position)) == Ok(CloseDecision)
  {
    ShownPositions(4);
    hide LivePosition;
  }

  lemma OrderOfTen()
    ensures CloseOrdered(Holding, Context0, Closing0.position, CloseDecision, ClosesTen) == (FilledLoop, Some(0))
  {
    var plan := Store.Plan(CloseKey, Sell, 10.0, 1.0, true, ManualClose, Store.Planned, 4);
    assert Store.WithPlan(Holding.tables, plan, 4) == (Store.Tables([plan], []), 0) by {
      assert Holding.tables.plans == [] && plan.(updatedAt := 4) == plan;
      assert Store.FindPlan([], CloseKey) == None;
      assert [] + [plan] == [plan];
    }
    var t1 := Store.Tables([plan], []);
    assert Store.WithExecution(t1, CloseRow, 4) == Some((Store.Tables([plan], [CloseRow]), 0)) by {
      assert Store.FindByPlan([], 0) == None && Store.FindByClient([], CloseKey) == None;
      assert [] + [CloseRow] == [CloseRow];
    }
    var s2 := Loop.Accepting(Holding.(tables := t1), FilledLoop.orders[0], FilledLoop.placements[0]);
    assert s2 == FilledLoop.(tables := t1);
    assert Store.NewExecution(0, CloseKey, Some(0), Store.Filled, 10.0, 4) == CloseRow;
    assert Store.FindByClient([], CloseKey) == None;
    assert Loop.Recorded(s2, 0, CloseRow) == (FilledLoop, Some(0)) by {
      assert [plan][0 := plan.(status := Store.Filled, updatedAt := 4)] == FilledLoop.tables.plans;
      assert FilledLoop.tables == Store.Tables(FilledLoop.tables.plans, [CloseRow]);
    }
    hide Store.WithPlan, Store.WithExecution, Store.NewExecution, Loop.Recorded, Loop.Accepting, Store.FindByClient;
  }

  /** The exit, from its begin to its end. */
  lemma ExitOfTen()
    ensures var s1 := Step(Start, ExitBegin(Context0, Accepts));
            var s2 := Step(s1, ExitPlace(ClosesTen));
            var s3 := Step(s2, ExitLink);
            Step(s3, ExitEnd(FetchFailed, FetchFailed, Accepts)) ==
            TwoChains.(tasks := [Task(0, 0, true)])
  {
    CloseOfTen();
    OrderOfTen();
    hide LoadExit, ClosePosition, CloseOrdered, FirstOpen;
    var s1 := Step(Start, ExitBegin(Context0, Accepts));
    assert s1 == State(Holding, Rows(true, Closing, [Request(None, Requested)]), [], Opened(0, Context0), false);
    var s2 := Step(s1, ExitPlace(ClosesTen));
    assert s2 == s1.(loop := FilledLoop, stage := Placed(0, Context0, Closing0));
    var s3 := Step(s2, ExitLink);
    assert s3 == s2.(rows := TwoChains.rows, stage := Linked(0, Context0, Closing0));
  }

  /** One attempt in vain, a crash, and the recovery. */
  lemma SecondChain()
    ensures var s4 := TwoChains.(tasks := [Task(0, 0, true)]);
            Step(Step(Step(s4, Chain(0, NoAnswer, Accepts)), Crash), Recover(Accepts)) == TwoChains
  {
    var s4 := TwoChains.(tasks := [Task(0, 0, true)]);
    var s5 := Step(s4, Chain(0, NoAnswer, Accepts));
    assert s5 == TwoChains.(tasks := [Task(0, 1, true)]) by {
      assert FindByExecution(TwoChains.rows.requests, 0) == Some(0);
      hide FindByExecution, NewestOutstanding;
    }
    var s6 := Step(s5, Crash);
    assert RecoveredUpTo(s6, 0, Accepts) == s6;
    assert RecoveredUpTo(s6, 1, Accepts) == s6.(tasks := TwoChains.tasks);
  }

  lemma {:induction false} TraceAppends(s: State, a: seq<Event>, b: seq<Event>)
    ensures Trace(s, a + b) == Trace(Trace(s, a), b)
    decreases |a|
  {
    hide Step;
    if a == [] {
      assert a + b == b;
    } else {
      assert (a + b)[1..] == a[1..] + b;
      TraceAppends(Step(s, a[0]), a[1..], b);
    }
  }

  lemma OneStep(s: State, e: Event)
    ensures Trace(s, [e]) == Step(s, e)
  {
    hide Step;
    assert [e][1..] == [];
    assert Trace(Step(s, e), []) == Step(s, e);
  }

  lemma ThreeSteps(s: State, a: Event, b: Event, c: Event)
    ensures Trace(s, [a, b, c]) == Step(Step(Step(s, a), b), c)
  {
    hide Step;
    assert [a, b, c] == [a] + [b] + [c];
    TraceAppends(s, [a] + [b], [c]);
    TraceAppends(s, [a], [b]);
    OneStep(s, a);
    OneStep(Step(s, a), b);
    OneStep(Step(Step(s, a), b), c);
  }

  lemma ReachesTwoChains()
    ensures CloseInvariants.Initial(Start) && Loop.Initial(Start.loop)
    ensures Trace(Start, TwoChainsHistory) == TwoChains
  {
    ExitOfTen();
    SecondChain();
    hide Step;
    var h := TwoChainsHistory;
    assert h == [h[0], h[1], h[2]] + [h[3]] + [h[4], h[5], h[6]];
    TraceAppends(Start, [h[0], h[1], h[2]] + [h[3]], [h[4], h[5], h[6]]);
    TraceAppends(Start, [h[0], h[1], h[2]], [h[3]]);
    ThreeSteps(Start, h[0], h[1], h[2]);
    OneStep(Trace(Start, [h[0], h[1], h[2]]), h[3]);
    ThreeSteps(TwoChains.(tasks := [Task(0, 0, true)]), h[4], h[5], h[6]);
  }

  // ---- What the second chain does -------------------------------------------------------------------------------

  /** A task that finds its order filled and the position gone completes the request, whatever its status was. */
  lemma HandledFlat(s: State, i: nat, queueing: Queueing, q: nat)
    requires s.loop == FilledLoop && i < |s.tasks| && s.tasks[i].execution == 0
    requires FindByExecution(s.rows.requests, 0) == Some(q)
    ensures Handled(s, i, NothingLeft, queueing) ==
            s.(rows := Finished(s.rows, q, true), tasks := Without(s.tasks, i))
  {
    hide LivePosition, FindByExecution, Loop.Reconciled;
    ShownPositions(4);
  }

  /** A task that finds its order filled and a position left sets the request to verifying, whatever its status was. */
  lemma HandledOpen(s: State, i: nat, queueing: Queueing, q: nat)
    requires s.loop == FilledLoop && i < |s.tasks| && s.tasks[i].execution == 0 && s.tasks[i].attempt < 3
    requires FindByExecution(s.rows.requests, 0) == Some(q) && NewestOutstanding(s.rows.requests).None?
    ensures Handled(s, i, OneLeft, queueing).rows ==
            s.rows.(requests := s.rows.requests[q := s.rows.requests[q].(status := Verifying)])
  {
    hide LivePosition, FindByExecution, WithStatus, NewestOutstanding, Enqueue, Coupled, Loop.Reconciled;
    ShownPositions(4);
    ReopeningCoupledExactly(s.rows, q);
    assert DelayAt(Checkpoints(s.tasks[i].close), s.tasks[i].attempt + 1).Some?;
  }

  /** The first chain completes the close; the second is still pending. */
  const OneChain := State(FilledLoop, Rows(false, Disabled, [Request(Some(0), Completed)]), [Task(0, 0, true)], Idle, false)

  const CompletedHistory := TwoChainsHistory + [Chain(0, NothingLeft, Accepts)]

  lemma FirstChainCompletes()
    ensures Step(TwoChains, Chain(0, NothingLeft, Accepts)) == OneChain
  {
    HandledFlat(TwoChains, 0, Accepts, 0);
    hide Handled, FindByExecution;
  }

  lemma ReachesOneChain()
    ensures Trace(Start, CompletedHistory) == OneChain
  {
    hide Step, Trace;
    ReachesTwoChains();
    FirstChainCompletes();
    TraceAppends(Start, TwoChainsHistory, [Chain(0, NothingLeft, Accepts)]);
    OneStep(TwoChains, Chain(0, NothingLeft, Accepts));
  }

  lemma SecondChainReopens()
    ensures var rows := Step(OneChain, Chain(0, OneLeft, Accepts)).rows;
            rows == Rows(false, Disabled, [Request(Some(0), Verifying)]) && !Coupled(rows)
  {
    assert FindByExecution(OneChain.rows.requests, 0) == Some(0) && NewestOutstanding(OneChain.rows.requests).None?;
    hide Handled, FindByExecution, NewestOutstanding;
    HandledOpen(OneChain, 0, Accepts, 0);
    var r := Handled(OneChain, 0, OneLeft, Accepts);
    assert r.rows.requests == [Request(Some(0), Verifying)] && Outstanding(r.rows.requests[0]);
  }

  /** A history from the start of the service: after the first of two chains has completed a close, a fetch of the second
      sets the request back to verifying while the configuration stays disabled. */
  lemma CompletedCloseComesBack()
    ensures CloseInvariants.Initial(Start) && Loop.Initial(Start.loop)
    ensures var t := Trace(Start, CompletedHistory);
            t.rows == Rows(false, Disabled, [Request(Some(0), Completed)]) && Coupled(t.rows)
    ensures var t := Trace(Start, CompletedHistory + [Chain(0, OneLeft, Accepts)]);
            t.rows == Rows(false, Disabled, [Request(Some(0), Verifying)]) && !Coupled(t.rows)
  {
    hide Step, Trace;
    ReachesOneChain();
    SecondChainReopens();
    TraceAppends(Start, CompletedHistory, [Chain(0, OneLeft, Accepts)]);
    OneStep(OneChain, Chain(0, OneLeft, Accepts));
  }

  /** The same history, and a second exit that has just begun. */
  const SecondExitHistory := CompletedHistory + [ExitBegin(Context0, Accepts)]

  const OldChain := State(FilledLoop, Rows(true, Closing, [Request(Some(0), Completed), Request(None, Requested)]),
                          [Task(0, 0, true)], Opened(1, Context0), false)

  lemma ReachesOldChain()
    ensures Trace(Start, SecondExitHistory) == OldChain
  {
    ReachesOneChain();
    hide Trace;
    TraceAppends(Start, CompletedHistory, [ExitBegin(Context0, Accepts)]);
    OneStep(OneChain, ExitBegin(Context0, Accepts));
    assert OneChain.rows.requests + [Request(None, Requested)] == OldChain.rows.requests;
  }

  lemma OldChainEndsNewClose()
    ensures Coupled(OldChain.rows)
    ensures var rows := Step(OldChain, Chain(0, NothingLeft, Accepts)).rows;
            rows == Rows(false, Disabled, OldChain.rows.requests) && !Coupled(rows)
  {
    var requests := OldChain.rows.requests;
    assert Outstanding(requests[1]);
    assert FindByExecution(requests, 0) == Some(0) by {
      assert requests[..1] == [Request(Some(0), Completed)];
    }
    HandledFlat(OldChain, 0, Accepts, 0);
    hide Handled, FindByExecution;
    assert Outstanding(Handled(OldChain, 0, NothingLeft, Accepts).rows.requests[1]);
  }

  /** A history from the start of the service: a leftover chain of an earlier close completes that close a second time and
      disables the configuration under the close that has just begun. */
  lemma OldChainDisablesNewClose()
    ensures CloseInvariants.Initial(Start) && Loop.Initial(Start.loop)
    ensures Trace(Start, SecondExitHistory) == OldChain && Coupled(OldChain.rows)
    ensures var t := Trace(Start, SecondExitHistory + [Chain(0, NothingLeft, Accepts)]);
            t.rows == Rows(false, Disabled, OldChain.rows.requests) && !Coupled(t.rows)
  {
    hide Step, Trace, Coupled;
    ReachesOldChain();
    OldChainEndsNewClose();
    TraceAppends(Start, SecondExitHistory, [Chain(0, NothingLeft, Accepts)]);
    OneStep(OldChain, Chain(0, NothingLeft, Accepts));
  }

  // ---- A run that loaded its configuration too early ------------------------------------------------------------

  const Unhedged := Loop.State(
    2, Store.Tables([], []), [], 0.0, Some(Snapshot(Net, 0.0, 0.0, 0.0, 0.0, 2)),
    Some(ObservedExposure(-10.0, 1.0, 1)), [])

  const StaleRun := Automatic(Limits.FillingRun(0), Active, Accepts)

  const Active0 := State(Unhedged, Rows(true, Active, []), [], Idle, false)

  const FlatAnswers := ExitAnswers(Fetched([]), Ticker(1.0, 1.0), true, Loop.PlaceError)

  lemma NothingToExit()
    ensures LoadExit(Config0, FlatAnswers.fetch, FlatAnswers.ticker, Unhedged.snapshot, 2) ==
            Loaded(Some(Snapshot(Net, 0.0, 0.0, 0.0, 1.0, 2)), Unhedged.snapshot)
  {
    hide LivePosition;
    ShownPositions(2);
  }

  /** With no position live or stored, an exit completes at once. */
  lemma FlatExit()
    ensures Step(Step(Active0, ExitBegin(Context0, Accepts)), ExitPlace(FlatAnswers)) ==
            Active0.(rows := Rows(false, Disabled, [Request(None, Completed)]))
  {
    var s1 := Step(Active0, ExitBegin(Context0, Accepts));
    assert s1 == Active0.(rows := Rows(true, Closing, [Request(None, Requested)]), stage := Opened(0, Context0));
    hide LoadExit, CloseOrdered, Begun, NewestOutstanding, FirstOpen;
    NothingToExit();
  }

  /** A run that loaded the active configuration just before a close took the lock places an order after that close has
      completed: the lifecycle is checked before the lock is taken. */
  lemma StaleLoadOrdersAfterClose()
    ensures CloseInvariants.Initial(Active0)
    ensures var closed := Step(Step(Active0, ExitBegin(Context0, Accepts)), ExitPlace(FlatAnswers));
            && closed.rows == Rows(false, Disabled, [Request(None, Completed)]) && closed.loop.placements == []
            && |Step(closed, StaleRun).loop.placements| == 1 && Step(closed, StaleRun).loop.held == 10.0
  {
    FlatExit();
    assert Loop.Guarded(Unhedged, Limits.FillingRun(0)) == (Unhedged, None);
    Limits.BuysTen(Unhedged, 0, 2, 1);
    hide Loop.RunOnce, ExitBegun, ExitPlaced;
  }
}
