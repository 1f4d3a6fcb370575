/** The hedge loop on the simulated exchange, which ignores reduce-only: what a run leaves there, and exactly when an order
    flips the position. */
module SimulatedLoop {
  import opened Money
  import opened Calculator
  import opened Positions
  import opened ExitPosition
  import opened SimulatedExchange
  import opened Idempotence
  import Store = OrderStore
  import Loop = HedgeLoop

  /** The account an order is placed on. */
  datatype Venue = Venue(exchange: string, account: string)

  /** The request a decision turns into: a limit order, filled at once. */
  function RequestOf(d: Decision, clientId: string, v: Venue): Request
    requires d.side.Some?
  {
    Request(clientId, d.symbol, d.side.value, false, d.quantity, d.limitPrice, d.reduceOnly, Store.Filled, v.exchange,
            v.account)
  }

  /** A fetch for one symbol, which must have no surrounding blanks (SimulatedExchange.AskedAsStoredExactly). */
  function Filter1(v: Venue, symbol: string): Filter {
    Filter(v.exchange, v.account, {symbol})
  }

  /** What the exchange nets on a symbol of the account. */
  ghost function Held(b: Book, v: Venue, symbol: string): real {
    NetOf(b, Filter1(v, symbol), symbol, true)
  }

  lemma PlacedMovesHeld(b: Book, d: Decision, clientId: string, v: Venue, id: string)
    requires d.side.Some? && id !in b.orders && Rejection(RequestOf(d, clientId, v)).None?
    ensures Held(Placed(b, RequestOf(d, clientId, v), id).0, v, d.symbol) ==
            Held(b, v, d.symbol) + Directed(d.side.value, d.quantity)
  {
    var r := RequestOf(d, clientId, v);
    PlacementAdds(b, r, id, Filter1(v, d.symbol), d.symbol, true);
    OwnPart(r, id);
    assert Own(r) == Filter1(v, d.symbol);
  }

  // ---- Flips ----------------------------------------------------------------------------------------------------

  /** On the simulated exchange an order of the calculator flips the position if and only if it is reduce-only, not the
      close leg of a reversal, and its adjustment is worth more than the holding at the exposure's mark. */
  lemma SimulatedFlipExactly(
    b: Book, c: Config, e: Exposure, p: Position, clientId: string, v: Venue, id: string)
    requires Calculate(c, e, p).Ok? && Calculate(c, e, p).value.IsOrder() && SameSign(p)
    requires p.quantity == Held(b, v, c.targetSymbol) && id !in b.orders
    requires var d := Calculate(c, e, p).value; d.side.Some? && Rejection(RequestOf(d, clientId, v)).None?
    ensures var d := Calculate(c, e, p).value;
            var after := Held(Placed(b, RequestOf(d, clientId, v), id).0, v, c.targetSymbol);
            !StaysOnSide(p.quantity, after) <==>
              d.reduceOnly && d.reason != PositionFlipClose && Abs(d.adjustment) > Abs(p.quantity) * e.mark
  {
    hide Calculate, Held, Placed, Rejection;
    OrdersCarryTheLimit(c, e, p);
    UnclampedFlipExactly(c, e, p);
    PlacedMovesHeld(b, Calculate(c, e, p).value, clientId, v, id);
  }

  /** It cannot happen while the stored notional does not exceed the holding's value at the exposure's mark. */
  lemma NoSimulatedFlip(b: Book, c: Config, e: Exposure, p: Position, clientId: string, v: Venue, id: string)
    requires Calculate(c, e, p).Ok? && Calculate(c, e, p).value.IsOrder() && SameSign(p)
    requires p.quantity == Held(b, v, c.targetSymbol) && id !in b.orders
    requires var d := Calculate(c, e, p).value; d.side.Some? && Rejection(RequestOf(d, clientId, v)).None?
    requires Abs(p.notional) <= Abs(p.quantity) * e.mark
    ensures var d := Calculate(c, e, p).value;
            StaysOnSide(p.quantity, Held(Placed(b, RequestOf(d, clientId, v), id).0, v, c.targetSymbol))
  {
    hide Calculate, Held, Placed, Rejection;
    OrdersCarryTheLimit(c, e, p);
    NoFlipWithoutClamp(c, e, p);
    PlacedMovesHeld(b, Calculate(c, e, p).value, clientId, v, id);
  }

  const Venue0 := Venue("SIM", "main")

  const BuyOneAtHundred := Request("first", "BTC", Buy, false, 1.0, 100.0, false, Store.Filled, "SIM", "main")

  const OneHeld := Placed(Empty, BuyOneAtHundred, "sim_1").0

  /** One unit bought at 100 and an exposure marked at 50: the reduce-only order that shrinks the hedge sells 1.8 and leaves
      the account 0.8 short. */
  lemma SimulatedExchangeFlips() returns (c: Config, e: Exposure, p: Position)
    ensures Calculate(c, e, p).Ok? && Calculate(c, e, p).value.IsOrder() && Calculate(c, e, p).value.reduceOnly
    ensures Calculate(c, e, p).value.side.Some? && p.quantity == Held(OneHeld, Venue0, "BTC") == 1.0
    ensures Held(Placed(OneHeld, RequestOf(Calculate(c, e, p).value, "second", Venue0), "sim_2").0, Venue0, "BTC") == -0.8
  {
    c := Config("BTC", 1.0, 5.0, 2.0, 1.0, 0, 0.0, 1.0, true, false);
    e := Exposure(-10.0, 50.0);
    p := Position("BTC", 1.0, 100.0, 100.0);
    assert CappedTarget(c, e.notional) == 10.0;
    var d := Calculate(c, e, p).value;
    assert d.quantity == 90.0 / 50.0 == 1.8 && d.side == Some(Sell) && d.symbol == "BTC" && d.limitPrice == 50.0;
    hide Calculate, NetOf;
    EmptyBook(Filter1(Venue0, "BTC"), "BTC", true);
    PlacementAdds(Empty, BuyOneAtHundred, "sim_1", Filter1(Venue0, "BTC"), "BTC", true);
    OwnPart(BuyOneAtHundred, "sim_1");
    PlacedMovesHeld(OneHeld, d, "second", Venue0, "sim_2");
  }

  // ---- A whole run ----------------------------------------------------------------------------------------------

  /** A run that orders on the truth, is filled at once, and then fetches its positions from the simulated exchange: the
      holding and the stored snapshot are both the exchange's signed sum afterwards. */
  lemma SimulatedRun(
    s: Loop.State, run: Loop.RunInput, b: Book, clientId: string, v: Venue, id: string, positions: seq<RawPosition>)
    requires Sound(s.tables) && Loop.AboutToPlace(s, run) && id !in b.orders
    requires var d := Loop.Wanted(s, run).value;
             && run.place == Loop.Accepted(Store.Filled, d.quantity)
             && Rejection(RequestOf(d, clientId, v)).None?
             && Reports(positions, Placed(b, RequestOf(d, clientId, v), id).0, Filter1(v, d.symbol))
    requires run.placeFetch == Fetched(positions)
    requires Loop.QuantityOf(Loop.AtDecision(s, run).snapshot) == s.held == Held(b, v, run.config.targetSymbol)
    ensures var r := Loop.RunOnce(s, run).0;
            var after := Held(Placed(b, RequestOf(Loop.Wanted(s, run).value, clientId, v), id).0, v, run.config.targetSymbol);
            r.held == after && r.snapshot.Some? && r.snapshot.value.quantity == after
  {
    hide Sound, Held, Placed, Rejection, Reports, Loop.RunOnce, Loop.Decided, Loop.Asked, Loop.AboutToPlace, Loop.Wanted,
      Loop.WantedKey, Loop.AfterGuard, Loop.KeyOf, Store.FindByClient, Loop.QuantityOf;
    PlacingRun(s, run);
    GuardIsSound(s, run);
    SimulatedDecision(Loop.AtDecision(s, run), run, b, clientId, v, id, positions);
  }

  /** A run that is about to place gets past its guard and decides in the state the guard left, where the key is still
      without an execution. */
  lemma PlacingRun(s: Loop.State, run: Loop.RunInput)
    requires Loop.AboutToPlace(s, run)
    ensures !run.config.dryRun && run.accountUsable
    ensures var t := Loop.AtDecision(s, run);
            && t.tables == Loop.AfterGuard(s, run).0.tables && t.held == s.held
            && Loop.Asked(t, run).Some? && Loop.Wanted(s, run) == Loop.Asked(t, run)
            && Loop.RunOnce(s, run).0 == Loop.Decided(t, run).0
            && Store.FindByClient(t.tables.executions,
                                  Loop.KeyOf(run.configId, t.exposure.value.observedAt, Loop.Asked(t, run).value)).None?
  {
    hide Loop.Decided, Loop.Asked, Loop.AfterGuard, Loop.KeyOf, Store.FindByClient;
    GuardKeepsClients(s, run, Loop.WantedKey(s, run));
  }

  lemma SimulatedDecision(
    s: Loop.State, run: Loop.RunInput, b: Book, clientId: string, v: Venue, id: string, positions: seq<RawPosition>)
    requires Sound(s.tables) && Loop.Asked(s, run).Some? && !run.config.dryRun && run.accountUsable && id !in b.orders
    requires var d := Loop.Asked(s, run).value;
             && Store.FindByClient(s.tables.executions, Loop.KeyOf(run.configId, s.exposure.value.observedAt, d)).None?
             && run.place == Loop.Accepted(Store.Filled, d.quantity)
             && Rejection(RequestOf(d, clientId, v)).None?
             && Reports(positions, Placed(b, RequestOf(d, clientId, v), id).0, Filter1(v, d.symbol))
    requires run.placeFetch == Fetched(positions)
    requires Loop.QuantityOf(s.snapshot) == s.held == Held(b, v, run.config.targetSymbol)
    ensures var r := Loop.Decided(s, run).0;
            var after := Held(Placed(b, RequestOf(Loop.Asked(s, run).value, clientId, v), id).0, v, run.config.targetSymbol);
            r.held == after && r.snapshot.Some? && r.snapshot.value.quantity == after
  {
    hide Sound, Loop.Executed, Loop.RunDecision, RefreshedAfter, Held, Placed, Reports, Rejection, Store.FindByClient,
      Loop.KeyOf;
    var position, d := Loop.RunPosition(s, s.exposure.value), Loop.Asked(s, run).value;
    AskedSymbol(s, run);
    ExecutedFill(s, run, s.exposure.value, position, d);
    var (s1, execution) := Loop.Executed(s, run, s.exposure.value, position, d);
    FillIsFetched(b, d, clientId, v, id, run.config, s1.snapshot, position, s1.tables.executions[execution.value], positions,
                  s1.now);
  }

  /** The fetch after a filled order stores what the exchange holds, if the decision was on what it held before. */
  lemma FillIsFetched(
    b: Book, d: Decision, clientId: string, v: Venue, id: string, c: Config, stored: Option<Snapshot>,
    previous: Option<Snapshot>, e: Store.Execution, positions: seq<RawPosition>, now: int)
    requires d.side.Some? && d.symbol == c.targetSymbol && !c.dryRun && id !in b.orders
    requires Rejection(RequestOf(d, clientId, v)).None? && e.status.Filled? && e.filled == d.quantity
    requires Loop.QuantityOf(previous) == Held(b, v, d.symbol)
    requires Reports(positions, Placed(b, RequestOf(d, clientId, v), id).0, Filter1(v, d.symbol))
    ensures var after := RefreshedAfter(c, stored, previous, d.side.value, d.quantity, e, Fetched(positions), now);
            var held := Held(Placed(b, RequestOf(d, clientId, v), id).0, v, d.symbol);
            && held == Held(b, v, d.symbol) + Directed(d.side.value, d.quantity)
            && after.Some? && after.value.quantity == held
  {
    hide RefreshedAfter, Placed, Reports, Rejection, NetOf;
    assert Own(RequestOf(d, clientId, v)) == Filter1(v, d.symbol);
    PlacedMovesHeld(b, d, clientId, v, id);
    RefreshStoresTheSum(b, RequestOf(d, clientId, v), id, c, previous, stored, e, positions, now);
  }

  lemma AskedSymbol(s: Loop.State, run: Loop.RunInput)
    requires Loop.Asked(s, run).Some?
    ensures Loop.Asked(s, run).value.symbol == run.config.targetSymbol
  {
    hide Calculate;
    var c := if run.kind.RatioAdjustment? then run.config.(rebalance := 0.0) else run.config;
    OrdersCarryTheLimit(c, Exposure(s.exposure.value.notional, s.exposure.value.mark),
                        ToPosition(run.config.targetSymbol, Loop.RunPosition(s, s.exposure.value)));
  }

  /** A first execution that is filled at once is recorded with its fill and moves the holding. */
  lemma ExecutedFill(
    s: Loop.State, run: Loop.RunInput, exposure: ObservedExposure, position: Option<Snapshot>, d: Decision)
    requires Sound(s.tables) && d.side.Some? && !run.config.dryRun && run.accountUsable
    requires run.place == Loop.Accepted(Store.Filled, d.quantity)
    requires Store.FindByClient(s.tables.executions, Loop.KeyOf(run.configId, exposure.observedAt, d)).None?
    ensures var (r, id) := Loop.Executed(s, run, exposure, position, d);
            && id.Some? && r.held == s.held + Directed(d.side.value, d.quantity) && r.snapshot == s.snapshot
            && r.tables.executions[id.value].status.Filled? && r.tables.executions[id.value].filled == d.quantity
  {
    var key := Loop.KeyOf(run.configId, exposure.observedAt, d);
    var plan := Store.Plan(key, d.side.value, d.quantity, d.limitPrice, d.reduceOnly, d.reason, Store.Planned, s.now);
    PlanKept(s.tables, plan, s.now);
    hide Sound, Grows, Store.WithPlan, Store.FindByClient, Loop.KeyOf, Loop.FirstExecution;
    var (t1, planId) := Store.WithPlan(s.tables, plan, s.now);
    NoneOfPlan(t1.executions, planId, key);
    FirstFill(s.(tables := t1), run, planId, key, Loop.QuantityOf(position), d);
  }

  lemma FirstFill(s: Loop.State, run: Loop.RunInput, planId: nat, key: Store.Key, decidedOn: real, d: Decision)
    requires d.side.Some? && planId < |s.tables.plans| && !run.config.dryRun && run.accountUsable
    requires run.place == Loop.Accepted(Store.Filled, d.quantity)
    requires Store.FindByPlan(s.tables.executions, planId).None? && Store.FindByClient(s.tables.executions, key).None?
    ensures var (r, id) := Loop.FirstExecution(s, run, planId, key, decidedOn, d);
            && id.Some? && r.held == s.held + Directed(d.side.value, d.quantity) && r.snapshot == s.snapshot
            && r.tables.executions[id.value].status.Filled? && r.tables.executions[id.value].filled == d.quantity
  {
    hide Store.FindByPlan, Store.FindByClient;
  }
}
