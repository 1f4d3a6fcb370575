/** What a run asks for and what it leaves, field by field: the order, the plan and the execution it stores, and its
    outcome, read off the state in which it decides. */
module RunSteps {
  import opened Money
  import opened Calculator
  import opened Positions
  import opened OrderStore
  import opened ExitPosition
  import opened HedgeLoop
  import opened Idempotence
  import opened Guard
  import Sync = PositionSync

  /** The notional a run finds stored. */
  function Current(s: State): real {
    if s.snapshot.None? then 0.0 else s.snapshot.value.notional
  }

  /** How far the stored notional is from the wanted one. */
  function Off(s: State, run: RunInput): real
    requires s.exposure.Some?
  {
    WantedNotional(run.config, s.exposure.value.notional) - Current(s)
  }

  /** The configuration a run calculates with: one for a new hedge ratio has no rebalance threshold. */
  function RunConfig(run: RunInput): Config {
    if run.kind.RatioAdjustment? then run.config.(rebalance := 0.0) else run.config
  }

  /** What a run asks for is what the calculator orders on the exposure and the snapshot it finds. */
  lemma AskedIsCalculated(s: State, run: RunInput)
    requires s.exposure.Some?
    ensures var p := Position(run.config.targetSymbol, QuantityOf(s.snapshot), Current(s),
                              ToPosition("", RunPosition(s, s.exposure.value)).mark);
            var r := Calculate(RunConfig(run), Exposure(s.exposure.value.notional, s.exposure.value.mark), p);
            && (Asked(s, run).Some? <==> r.Ok? && r.value.IsOrder() && r.value.side.Some?)
            && (Asked(s, run).Some? ==>
                  Asked(s, run).value == if run.kind.RatioAdjustment? && r.value.action.Rebalance?
                                            && r.value.reason.RebalanceDrift?
                                         then r.value.(reason := HedgeRatioAdjustment) else r.value)
  {
    hide Calculate;
  }

  /** Exactly when a run past its guard asks for an order: the distance to the wanted notional reaches the minimum order and,
      above the exit threshold, the first trigger from flat and the rebalance threshold otherwise, which a run for a new
      hedge ratio ignores. */
  lemma AsksExactly(s: State, run: RunInput)
    ensures Asked(s, run).Some? <==>
            && s.exposure.Some? && run.config.enabled && run.config.targetSymbol != ""
            && s.exposure.value.mark > 0.0 && run.config.ratio >= 0.0
            && Off(s, run) != 0.0 && Abs(Off(s, run)) >= run.config.minOrder
            && (Abs(s.exposure.value.notional) > run.config.exit ==>
                  if Current(s) == 0.0 then Abs(s.exposure.value.notional) >= run.config.firstTrigger
                  else run.kind.RatioAdjustment? || Abs(Off(s, run)) >= run.config.rebalance)
  {
    hide Calculate, Asked, WantedNotional;
    if s.exposure.Some? {
      var c, e := RunConfig(run), Exposure(s.exposure.value.notional, s.exposure.value.mark);
      var p := Position(run.config.targetSymbol, QuantityOf(s.snapshot), Current(s),
                        ToPosition("", RunPosition(s, s.exposure.value)).mark);
      AskedIsCalculated(s, run);
      SameWanted(c, run.config, e.notional);
      OrdersExactly(c, e, p);
      OrdersHaveSides(c, e, p);
    }
  }

  lemma OrdersHaveSides(c: Config, e: Exposure, p: Position)
    ensures Calculate(c, e, p).Ok? && Calculate(c, e, p).value.IsOrder() ==> Calculate(c, e, p).value.side.Some?
  {
    hide Calculate, OffBySlippage;
    RunCarriesTheLimit(c, e, p);
  }

  /** And exactly which: the whole distance, or to zero when the wanted notional is on the other side; on the side of its
      sign, reduce-only when it shrinks the position, worth the adjustment at the exposure's mark, or for the whole quantity
      held as the close leg, at a limit the allowed slippage off that mark. */
  lemma AsksForExactly(s: State, run: RunInput)
    requires Asked(s, run).Some?
    ensures var d, flips := Asked(s, run).value, !StaysOnSide(Current(s), Current(s) + Off(s, run));
            && d.adjustment == (if flips then -Current(s) else Off(s, run))
            && d.side == Some(if d.adjustment > 0.0 then Buy else Sell)
            && d.target == Current(s) + Off(s, run) && d.current == Current(s)
            && (d.reduceOnly <==> Abs(Current(s) + d.adjustment) < Abs(Current(s)))
            && d.symbol == run.config.targetSymbol && d.dryRun == run.config.dryRun
            && OffBySlippage(run.config, d.side.value, d.limitPrice, s.exposure.value.mark)
            && (if flips && QuantityOf(s.snapshot) != 0.0 then d.quantity == Abs(QuantityOf(s.snapshot))
                else d.quantity * s.exposure.value.mark == Abs(d.adjustment))
            && d.reason == (if flips then PositionFlipClose
                            else if Abs(s.exposure.value.notional) <= run.config.exit then ExitHedge
                            else if Current(s) == 0.0 then FirstTrigger
                            else if run.kind.RatioAdjustment? then HedgeRatioAdjustment else RebalanceDrift)
  {
    hide Calculate, Asked, OffBySlippage, WantedNotional, Units;
    var c, e := RunConfig(run), Exposure(s.exposure.value.notional, s.exposure.value.mark);
    var p := Position(run.config.targetSymbol, QuantityOf(s.snapshot), Current(s),
                      ToPosition("", RunPosition(s, s.exposure.value)).mark);
    AskedIsCalculated(s, run);
    SameWanted(c, run.config, e.notional);
    ReasonsExactly(c, e, p);
    RunCarriesTheLimit(c, e, p);
    OrderLandsOnZeroOrTarget(c, e, p);
    OrdersExactly(c, e, p);
    var d := Calculate(c, e, p).value;
    UnitsAreWorth(d.adjustment, e.mark);
    SameSlippage(c, run.config, d.side.value, d.limitPrice, e.mark);
  }

  lemma SameWanted(c: Config, d: Config, notional: real)
    requires c == d.(rebalance := c.rebalance)
    ensures WantedNotional(c, notional) == WantedNotional(d, notional)
  {
  }

  lemma SameSlippage(c: Config, d: Config, side: Side, limit: real, mark: real)
    requires c == d.(rebalance := c.rebalance)
    ensures OffBySlippage(c, side, limit, mark) <==> OffBySlippage(d, side, limit, mark)
  {
  }

  lemma UnitsAreWorth(notional: real, mark: real)
    requires mark > 0.0
    ensures Units(notional, mark) * mark == Abs(notional)
  {
  }

  // ---- What executing a decision leaves -------------------------------------------------------------------------

  /** The key a decision is executed under: configuration, time of the exposure, action, symbol and the three notionals. */
  function KeyFor(run: RunInput, exposure: ObservedExposure, d: Decision): Key {
    Key(run.configId, exposure.observedAt, d.action, d.symbol, d.target, d.current, d.adjustment)
  }

  /** An execution as it is first stored: submitted and filled ones carry the time of submission, filled and failed ones their
      own. */
  predicate StoredFirst(e: Execution, key: Key, orderId: Option<nat>, status: Status, filled: real, now: int) {
    && e.clientId == key && e.orderId == orderId && e.status == status && e.filled == filled && e.updatedAt == now
    && e.submittedAt == (if status.Submitted? || status.Filled? then Some(now) else None)
    && e.filledAt == (if status.Filled? then Some(now) else None)
    && e.failedAt == (if status.Failed? then Some(now) else None)
  }

  /** One more row, the others unchanged. */
  predicate OneRowMore(before: seq<Execution>, after: seq<Execution>) {
    |after| == |before| + 1 && after[..|before|] == before
  }

  /** What a first execution calls and stores: nothing but a dry row in a dry run, nothing with an unusable account, a failed
      row when the placement fails; otherwise the exchange has the decided order, with the part it reports executed, and a
      row with its answer, if the database accepts that. */
  lemma FirstExecutionExactly(s: State, run: RunInput, planId: nat, key: Key, decidedOn: real, d: Decision)
    requires d.side.Some? && planId < |s.tables.plans|
    requires FindByPlan(s.tables.executions, planId).None? && FindByClient(s.tables.executions, key).None?
    ensures var (r, id) := FirstExecution(s, run, planId, key, decidedOn, d);
            var n, rows := |s.tables.executions|, r.tables.executions;
            && r == s.(tables := r.tables, orders := r.orders, held := r.held, placements := r.placements)
            && if run.config.dryRun then
                 && r == s.(tables := r.tables) && id == Some(n) && OneRowMore(s.tables.executions, rows)
                 && StoredFirst(rows[n], key, None, DryRun, 0.0, s.now) && r.tables.plans == s.tables.plans
               else if !run.accountUsable then r == s && id.None?
               else if run.place.PlaceError? then
                 && id.None? && r.orders == s.orders && r.held == s.held
                 && r.placements == s.placements + [Placement(key, decidedOn, s.held, None)]
                 && OneRowMore(s.tables.executions, rows) && StoredFirst(rows[n], key, None, Failed, 0.0, s.now)
               else
                 && r.orders == s.orders + [ExchangeOrder(key, d.side.value, d.quantity, d.reduceOnly, run.place.status,
                                                          run.place.filled)]
                 && r.held == s.held + Directed(d.side.value, run.place.filled)
                 && r.placements == s.placements + [Placement(key, decidedOn, s.held, Some(|s.orders|))]
                 && if run.place.status.Canceled? then rows == s.tables.executions && id.None?
                    else if Recordable(run.place.status) then
                      && id == Some(n) && OneRowMore(s.tables.executions, rows)
                      && StoredFirst(rows[n], key, Some(|s.orders|), run.place.status, run.place.filled, s.now)
                    else id.None?
  {
    hide FindByPlan, FindByClient;
  }

  /** The plan the rows of a first execution belong to shows the status recorded live; every other plan stays. */
  lemma FirstExecutionPlans(s: State, run: RunInput, planId: nat, key: Key, decidedOn: real, d: Decision)
    requires d.side.Some? && planId < |s.tables.plans|
    requires FindByPlan(s.tables.executions, planId).None? && FindByClient(s.tables.executions, key).None?
    ensures var r := FirstExecution(s, run, planId, key, decidedOn, d).0.tables;
            var recorded := |r.executions| > |s.tables.executions|;
            && (recorded ==> r.executions[|s.tables.executions|].planId == planId)
            && r.plans == if recorded && !run.config.dryRun
                          then s.tables.plans[planId := s.tables.plans[planId].(
                                 status := r.executions[|s.tables.executions|].status, updatedAt := s.now)]
                          else s.tables.plans
  {
    hide FindByPlan, FindByClient;
  }

  /** Executing a decision: a key that has an execution is not executed again, and a failed one is an error; otherwise it is a
      first execution under that key, on the stored quantity. */
  lemma ExecutesExactly(s: State, run: RunInput, exposure: ObservedExposure, position: Option<Snapshot>, d: Decision)
    requires Sound(s.tables) && d.side.Some?
    ensures var key := KeyFor(run, exposure, d);
            var existing := FindByClient(s.tables.executions, key);
            var (r, id) := Executed(s, run, exposure, position, d);
            var n, rows := |s.tables.executions|, r.tables.executions;
            && r == s.(tables := r.tables, orders := r.orders, held := r.held, placements := r.placements)
            && (existing.Some? ==>
                  && r == s.(tables := r.tables) && rows == s.tables.executions
                  && id == if s.tables.executions[existing.value].status.Failed? then None else existing)
            && (existing.None? && run.config.dryRun ==>
                  && r == s.(tables := r.tables) && id == Some(n) && OneRowMore(s.tables.executions, rows)
                  && StoredFirst(rows[n], key, None, DryRun, 0.0, s.now))
            && (existing.None? && !run.config.dryRun && !run.accountUsable ==>
                  r == s.(tables := r.tables) && rows == s.tables.executions && id.None?)
            && (existing.None? && !run.config.dryRun && run.accountUsable && run.place.PlaceError? ==>
                  && id.None? && r.orders == s.orders && r.held == s.held
                  && r.placements == s.placements + [Placement(key, QuantityOf(position), s.held, None)]
                  && OneRowMore(s.tables.executions, rows) && StoredFirst(rows[n], key, None, Failed, 0.0, s.now))
            && (existing.None? && !run.config.dryRun && run.accountUsable && run.place.Accepted? ==>
                  && r.orders == s.orders + [ExchangeOrder(key, d.side.value, d.quantity, d.reduceOnly, run.place.status,
                                                           run.place.filled)]
                  && r.held == s.held + Directed(d.side.value, run.place.filled)
                  && r.placements == s.placements + [Placement(key, QuantityOf(position), s.held, Some(|s.orders|))]
                  && (run.place.status.Canceled? ==> rows == s.tables.executions && id.None?)
                  && (run.place.status.Submitted? || run.place.status.Filled? || run.place.status.Failed? ==>
                        && id == Some(n) && OneRowMore(s.tables.executions, rows)
                        && StoredFirst(rows[n], key, Some(|s.orders|), run.place.status, run.place.filled, s.now)))
  {
    var key := KeyFor(run, exposure, d);
    var plan := Plan(key, d.side.value, d.quantity, d.limitPrice, d.reduceOnly, d.reason,
                     if run.config.dryRun then DryRun else Planned, s.now);
    PlanKept(s.tables, plan, s.now);
    assert KeyOf(run.configId, exposure.observedAt, d) == key;
    hide Sound, WithPlan, FindByClient, FindByPlan, FirstExecution, Grows, StoredFirst, OneRowMore, KeyOf;
    var (t1, planId) := WithPlan(s.tables, plan, s.now);
    if FindByClient(t1.executions, key).None? {
      NoneOfPlan(t1.executions, planId, key);
      FirstExecutionExactly(s.(tables := t1), run, planId, key, QuantityOf(position), d);
    }
  }

  /** The plan of an execution: the one stored under the key keeps its order and is touched, otherwise a new one has the
      decided side, quantity, limit, reduce-only flag and reason; either shows the status recorded live. */
  lemma PlansExactly(s: State, run: RunInput, exposure: ObservedExposure, position: Option<Snapshot>, d: Decision)
    requires Sound(s.tables) && d.side.Some?
    ensures var key := KeyFor(run, exposure, d);
            var i, r := FindPlan(s.tables.plans, key), Executed(s, run, exposure, position, d).0.tables;
            var id, n := (if i.Some? then i.value else |s.tables.plans|), |s.tables.executions|;
            && |r.plans| == (if i.Some? then |s.tables.plans| else |s.tables.plans| + 1)
            && (forall k :: 0 <= k < |s.tables.plans| && k != id ==> r.plans[k] == s.tables.plans[k])
            && r.plans[id].key == key && r.plans[id].updatedAt == s.now
            && (i.Some? ==> r.plans[id] == s.tables.plans[id].(status := r.plans[id].status, updatedAt := s.now))
            && (i.None? ==>
                  && r.plans[id].side == d.side.value && r.plans[id].quantity == d.quantity
                  && r.plans[id].price == d.limitPrice && r.plans[id].reduceOnly == d.reduceOnly
                  && r.plans[id].reason == d.reason)
            && (if |r.executions| > n && !run.config.dryRun then
                  r.executions[n].planId == id && r.plans[id].status == r.executions[n].status
                else r.plans[id].status == if i.Some? then s.tables.plans[id].status
                                           else if run.config.dryRun then DryRun else Planned)
  {
    var key := KeyFor(run, exposure, d);
    var plan := Plan(key, d.side.value, d.quantity, d.limitPrice, d.reduceOnly, d.reason,
                     if run.config.dryRun then DryRun else Planned, s.now);
    PlanKept(s.tables, plan, s.now);
    assert KeyOf(run.configId, exposure.observedAt, d) == key;
    hide Sound, FindByClient, FindByPlan, FirstExecution, Grows, KeyOf;
    var (t1, planId) := WithPlan(s.tables, plan, s.now);
    assert planId == if FindPlan(s.tables.plans, key).Some? then FindPlan(s.tables.plans, key).value else |s.tables.plans|;
    assert t1.plans == if FindPlan(s.tables.plans, key).Some?
                       then s.tables.plans[planId := s.tables.plans[planId].(updatedAt := s.now)]
                       else s.tables.plans + [plan.(updatedAt := s.now)];
    hide FindPlan, WithPlan;
    if FindByClient(t1.executions, key).None? {
      NoneOfPlan(t1.executions, planId, key);
      FirstExecutionPlans(s.(tables := t1), run, planId, key, QuantityOf(position), d);
    }
  }

  /** Exactly how a run past its guard ends: without an exposure, with the calculator's error, without an order, with the
      error of an order that has no execution to show, or with that execution. */
  lemma EndsExactly(s: State, run: RunInput)
    ensures var outcome, c := Decided(s, run).1, run.config;
            && (outcome.NoExposure? <==> s.exposure.None?)
            && (outcome == CalculationError(SymbolRequired) <==> s.exposure.Some? && c.enabled && c.targetSymbol == "")
            && (outcome == CalculationError(MarkPriceNotPositive) <==>
                  s.exposure.Some? && c.enabled && c.targetSymbol != "" && s.exposure.value.mark <= 0.0)
            && (outcome == CalculationError(NegativeRatio) <==>
                  s.exposure.Some? && c.enabled && c.targetSymbol != "" && s.exposure.value.mark > 0.0 && c.ratio < 0.0)
            && (Asked(s, run).Some? ==>
                  var id := Executed(s, run, s.exposure.value, RunPosition(s, s.exposure.value), Asked(s, run).value).1;
                  outcome == if id.None? then OrderError(Asked(s, run).value) else Ordered(Asked(s, run).value, id.value))
            && (Asked(s, run).None? <==>
                  outcome.NoExposure? || outcome.CalculationError? || outcome.NotNeeded?)
  {
    hide Executed, RefreshedAfter, Calculate;
    if s.exposure.Some? {
      ReasonsExactly(RunConfig(run), Exposure(s.exposure.value.notional, s.exposure.value.mark),
                     ToPosition(run.config.targetSymbol, RunPosition(s, s.exposure.value)));
    }
  }

  /** The snapshot a run leaves. It changes exactly when the run ordered live, the execution it has to show is filled and the
      fetch shows the stored quantity moved by that fill; then the fetched quantity is stored as of now, with the reported
      mark. A fetch that shows nothing leaves the mark that was stored, or the exposure's if there was none. */
  lemma SnapshotsExactly(s: State, run: RunInput)
    requires Sound(s.tables)
    ensures var (t, outcome) := Decided(s, run);
            if !outcome.Ordered? then t.snapshot == s.snapshot
            else
              && outcome.execution < |t.tables.executions| && outcome.decision.side.Some?
              && var row, d := t.tables.executions[outcome.execution], outcome.decision;
                 var moved := QuantityOf(s.snapshot)
                              + Directed(d.side.value, if row.filled == 0.0 then Abs(d.quantity) else Abs(row.filled));
                 if !run.config.dryRun && row.status.Filled? && ShowsHeld(run.config.targetSymbol, run.placeFetch, moved) then
                   && t.snapshot.Some? && t.snapshot.value.quantity == moved && t.snapshot.value.observedAt == s.now
                   && t.snapshot.value.mark ==
                      match FirstOpen(run.config.targetSymbol, run.placeFetch.positions)
                      case Some(p) => p.mark
                      case None =>
                        if s.snapshot.None? then 0.0
                        else if s.snapshot.value.mark != 0.0 then s.snapshot.value.mark else s.exposure.value.mark
                 else t.snapshot == s.snapshot
  {
    hide Sound, Executed, RunDecision, FirstOpen, RefreshedAfter, ShowsHeld, Wanted, Asked;
    if s.exposure.Some? {
      var position := RunPosition(s, s.exposure.value);
      var r := RunDecision(run, s.exposure.value, position);
      if r.Ok? && r.value.side.Some? {
        var d := r.value;
        ExecutesExactly(s, run, s.exposure.value, position, d);
        var (s1, id) := Executed(s, run, s.exposure.value, position, d);
        if id.Some? {
          RefreshStoresExactly(run.config, s1.snapshot, position, d.side.value, d.quantity, s1.tables.executions[id.value],
                               run.placeFetch, s1.now);
        }
      }
    }
  }

  // ---- Steps besides the runs -----------------------------------------------------------------------------------

  /** What the other steps change. A fill adds to its order and moves what is held, and ends the order only if it is the last;
      an end without a fill changes that order's status; a reconciliation changes something exactly for a submitted execution
      whose order can be read; an exposure sync stores the exposure as of now, and a position sync that could fetch the net
      quantity on the symbol. Each starts after its time has passed. */
  lemma StepsExactly(s: State, timed: Timed)
    requires Sound(s.tables)
    ensures var t, u := Step(s, timed), s.(now := s.now + timed.elapsed);
            match timed.event
            case Tick => t == u
            case Fill(i, amount, done) =>
              if i >= |s.orders| then t == u
              else
                && t == u.(orders := t.orders, held := s.held + Directed(s.orders[i].side, amount))
                && |t.orders| == |s.orders| && (forall k :: 0 <= k < |s.orders| && k != i ==> t.orders[k] == s.orders[k])
                && t.orders[i].filled == s.orders[i].filled + amount
                && t.orders[i].status == (if done then Filled else s.orders[i].status)
                && t.orders[i].clientId == s.orders[i].clientId && t.orders[i].side == s.orders[i].side
                && t.orders[i].quantity == s.orders[i].quantity && t.orders[i].reduceOnly == s.orders[i].reduceOnly
            case EndUnfilled(i, status) =>
              if i >= |s.orders| then t == u
              else
                && t == u.(orders := t.orders)
                && |t.orders| == |s.orders| && (forall k :: 0 <= k < |s.orders| && k != i ==> t.orders[k] == s.orders[k])
                && t.orders[i] == s.orders[i].(status := status)
            case ReconcileTask(id, c, works, fetch) =>
              if id < |s.tables.executions| && s.tables.executions[id].status.Submitted? && works
                 && FetchOrder(s, s.tables.executions[id]).Some?
              then Reconciled(u, id, c, works, fetch) == Some(t) else t == u
            case SyncPosition(target, fetch) =>
              && t == u.(snapshot := t.snapshot)
              && (fetch.FetchFailed? ==> t == u)
              && (fetch.Fetched? ==>
                    t.snapshot.Some? && t.snapshot.value.observedAt >= u.now && t.snapshot.value.side == Net
                    && t.snapshot.value.quantity == Sync.SignedSum(fetch.positions, Sync.Normalize(target), true)
                    && t.snapshot.value.notional == Sync.SignedSum(fetch.positions, Sync.Normalize(target), false))
            case SyncExposure(notional, mark) =>
              t == u.(exposure := t.exposure) && t.exposure.Some? && t.exposure.value.notional == notional
              && t.exposure.value.mark == mark && t.exposure.value.observedAt == u.now
            case Run(run) => t == RunOnce(u, run).0
  {
    hide Sound, RunOnce, Reconciled, FetchOrder;
    var u := s.(now := s.now + timed.elapsed);
    match timed.event
    case ReconcileTask(id, c, works, fetch) =>
      if id < |s.tables.executions| {
        ReconciledExactly(u, id, c, works, fetch);
        SameOrder(s, u, s.tables.executions[id]);
      }
    case SyncPosition(target, fetch) =>
      if fetch.Fetched? {
        Sync.AggregateIsSignedSum(Sync.Normalize(target), target, fetch.positions, u.now);
      }
    case _ =>
  }

  /** Which order is read does not depend on the time. */
  lemma SameOrder(s: State, u: State, e: Execution)
    requires u == s.(now := u.now)
    ensures FetchOrder(u, e) == FetchOrder(s, e)
  {
  }
}
