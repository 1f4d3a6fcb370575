/** The in-memory exchange (internal/exchange/simulated.go): orders in a map, an index by client order id, and positions
    computed by folding the order map in whatever order it is iterated. */
module SimulatedExchange {
  import opened Money
  import opened Calculator
  import opened Symbols
  import opened Positions
  import Exit = ExitPosition
  import Store = OrderStore

  datatype Order = Order(
    id: string, clientId: string, symbol: string, side: Side, quantity: real, price: real, reduceOnly: bool,
    status: Store.Status, filled: real, average: real, exchange: string, account: string)

  /** A placement request; `status` is the simulated outcome, filled unless the caller asks for another. The reduce-only
      flag is stored with the order and has no effect. */
  datatype Request = Request(
    clientId: string, symbol: string, side: Side, market: bool, quantity: real, price: real, reduceOnly: bool,
    status: Store.Status, exchange: string, account: string)

  datatype Refusal =
    | NoSymbol
    | NoQuantity
    | NoPrice
    | OrderNotFound
    | AlreadyFinal

  datatype Answer = Taken(order: Order) | Refused(why: Refusal)

  datatype Book = Book(orders: map<string, Order>, clients: map<string, string>)

  function NewOrder(r: Request, id: string): Order {
    var done := r.status.Filled?;
    Order(id, r.clientId, r.symbol, r.side, r.quantity, r.price, r.reduceOnly, r.status, if done then r.quantity else 0.0,
          if done then r.price else 0.0, r.exchange, r.account)
  }

  function Indexed(clients: map<string, string>, o: Order): map<string, string> {
    if o.clientId == "" then clients else clients[o.clientId := o.id]
  }

  function Rejection(r: Request): Option<Refusal> {
    if Trim(r.symbol) == "" then Some(NoSymbol)
    else if r.quantity <= 0.0 then Some(NoQuantity)
    else if !r.market && r.price <= 0.0 then Some(NoPrice)
    else None
  }

  function Placed(b: Book, r: Request, id: string): (Book, Answer) {
    var refusal := Rejection(r);
    if refusal.Some? then (b, Refused(refusal.value))
    else
      var o := NewOrder(r, id);
      (Book(b.orders[id := o], Indexed(b.clients, o)), Taken(o))
  }

  /** Finds an order by its id first and by its client id otherwise. */
  function Find(b: Book, id: string, clientId: string): (r: Option<Order>)
    ensures r.Some? && BookFits(b) ==> r.value.id in b.orders && b.orders[r.value.id] == r.value
    ensures r.Some? && BookFits(b) ==> r.value.id == id || r.value.clientId == clientId
  {
    if id != "" && id in b.orders then Some(b.orders[id])
    else if clientId != "" && clientId in b.clients && b.clients[clientId] in b.orders
    then Some(b.orders[b.clients[clientId]])
    else None
  }

  predicate Final(status: Store.Status) {
    status.Filled? || status.Canceled? || status.Failed?
  }

  function Canceled(b: Book, id: string, clientId: string): (Book, Answer) {
    match Find(b, id, clientId)
    case None => (b, Refused(OrderNotFound))
    case Some(o) =>
      if Final(o.status) then (b, Refused(AlreadyFinal))
      else
        var c := o.(status := Store.Canceled);
        (Book(b.orders[c.id := c], Indexed(b.clients, c)), Taken(c))
  }

  /** Orders are stored under their id, only filled orders carry a fill, and every client index entry points to an order
      with that client id. */
  predicate BookFits(b: Book) {
    && (forall id :: id in b.orders ==> b.orders[id].id == id)
    && (forall id :: id in b.orders && !b.orders[id].status.Filled? ==> b.orders[id].filled == 0.0)
    && (forall c :: c in b.clients ==> b.clients[c] in b.orders && b.orders[b.clients[c]].clientId == c)
  }

  lemma PlacedFits(b: Book, r: Request, id: string)
    requires BookFits(b) && id !in b.orders
    ensures BookFits(Placed(b, r, id).0)
  {
  }

  lemma CanceledFits(b: Book, id: string, clientId: string)
    requires BookFits(b)
    ensures BookFits(Canceled(b, id, clientId).0)
  {
  }

  // ---- Positions as signed sums ---------------------------------------------------------------------------------

  /** Which orders a position fetch counts: an empty exchange, account or symbol set filters nothing. */
  datatype Filter = Filter(exchange: string, account: string, symbols: set<string>)

  predicate Counts(f: Filter, o: Order) {
    && o.status.Filled?
    && (f.exchange == "" || o.exchange == f.exchange)
    && (f.account == "" || o.account == f.account)
    && (f.symbols == {} || o.symbol in f.symbols)
  }

  /** What one order adds to the quantity on a symbol. */
  function QuantityPart(f: Filter, symbol: string, o: Order): real {
    if Counts(f, o) && o.symbol == symbol then Directed(o.side, o.filled) else 0.0
  }

  function NotionalPart(f: Filter, symbol: string, o: Order): real {
    if Counts(f, o) && o.symbol == symbol then Directed(o.side, o.filled * o.average) else 0.0
  }

  function Part(f: Filter, symbol: string, o: Order, quantity: bool): real {
    if quantity then QuantityPart(f, symbol, o) else NotionalPart(f, symbol, o)
  }

  /** The signed sum over a set of orders, defined without an order of summation. */
  ghost function Total(orders: map<string, Order>, ids: set<string>, f: Filter, symbol: string, quantity: bool): real
    requires ids <= orders.Keys
    decreases |ids|
  {
    if ids == {} then 0.0
    else
      var id :| id in ids;
      Part(f, symbol, orders[id], quantity) + Total(orders, ids - {id}, f, symbol, quantity)
  }

  /** Any order may be taken out first. */
  lemma {:induction false} TotalSplits(
    orders: map<string, Order>, ids: set<string>, f: Filter, symbol: string, quantity: bool, id: string)
    requires ids <= orders.Keys && id in ids
    ensures Total(orders, ids, f, symbol, quantity) ==
            Part(f, symbol, orders[id], quantity) + Total(orders, ids - {id}, f, symbol, quantity)
    decreases |ids|
  {
    hide Part;
    var first :| first in ids &&
      Total(orders, ids, f, symbol, quantity) ==
      Part(f, symbol, orders[first], quantity) + Total(orders, ids - {first}, f, symbol, quantity);
    if first != id {
      TotalSplits(orders, ids - {first}, f, symbol, quantity, id);
      TotalSplits(orders, ids - {id}, f, symbol, quantity, first);
      assert ids - {first} - {id} == ids - {id} - {first};
    }
  }

  lemma {:induction false} TotalAgrees(
    a: map<string, Order>, b: map<string, Order>, ids: set<string>, f: Filter, symbol: string, quantity: bool)
    requires ids <= a.Keys && ids <= b.Keys
    requires forall id :: id in ids ==> Part(f, symbol, a[id], quantity) == Part(f, symbol, b[id], quantity)
    ensures Total(a, ids, f, symbol, quantity) == Total(b, ids, f, symbol, quantity)
    decreases |ids|
  {
    hide Part;
    if ids != {} {
      var id :| id in ids;
      TotalSplits(a, ids, f, symbol, quantity, id);
      TotalSplits(b, ids, f, symbol, quantity, id);
      TotalAgrees(a, b, ids - {id}, f, symbol, quantity);
    }
  }

  ghost function NetOf(b: Book, f: Filter, symbol: string, quantity: bool): real {
    Total(b.orders, b.orders.Keys, f, symbol, quantity)
  }

  /** A placement adds exactly its own filled part. */
  lemma PlacementAdds(b: Book, r: Request, id: string, f: Filter, symbol: string, quantity: bool)
    requires id !in b.orders && Rejection(r).None?
    ensures NetOf(Placed(b, r, id).0, f, symbol, quantity) ==
            NetOf(b, f, symbol, quantity) + Part(f, symbol, NewOrder(r, id), quantity)
  {
    var c := Placed(b, r, id).0;
    TotalSplits(c.orders, c.orders.Keys, f, symbol, quantity, id);
    assert c.orders.Keys - {id} == b.orders.Keys;
    TotalAgrees(c.orders, b.orders, b.orders.Keys, f, symbol, quantity);
  }

  /** Exactly what a placement is refused for and what an accepted one stores: the request as it came, filled completely at its
      price if the simulated outcome is filled and not at all otherwise, under its id and, if it has one, its client id. */
  lemma PlacesExactly(b: Book, r: Request, id: string)
    ensures var (c, answer) := Placed(b, r, id);
            && (answer == Refused(NoSymbol) <==> Trim(r.symbol) == "")
            && (answer == Refused(NoQuantity) <==> Trim(r.symbol) != "" && r.quantity <= 0.0)
            && (answer == Refused(NoPrice) <==>
                  Trim(r.symbol) != "" && r.quantity > 0.0 && !r.market && r.price <= 0.0)
            && (answer.Refused? ==> c == b)
            && (answer.Taken? ==>
                  var o := answer.order;
                  && c.orders == b.orders[id := o] && o.id == id && o.clientId == r.clientId && o.symbol == r.symbol
                  && o.side == r.side && o.quantity == r.quantity && o.price == r.price && o.reduceOnly == r.reduceOnly
                  && o.status == r.status && o.exchange == r.exchange && o.account == r.account
                  && o.filled == (if r.status.Filled? then r.quantity else 0.0)
                  && o.average == (if r.status.Filled? then r.price else 0.0)
                  && c.clients == if r.clientId == "" then b.clients else b.clients[r.clientId := id])
  {
    hide Trim;
  }

  /** Exactly when an order is found: under its id, or else under its client id. */
  lemma FindsExactly(b: Book, id: string, clientId: string)
    requires BookFits(b)
    ensures var found := Find(b, id, clientId);
            && (id != "" && id in b.orders ==> found == Some(b.orders[id]))
            && (!(id != "" && id in b.orders) && clientId != "" && clientId in b.clients ==>
                  found == Some(b.orders[b.clients[clientId]]))
            && (found.None? <==> !(id != "" && id in b.orders) && !(clientId != "" && clientId in b.clients))
  {
  }

  /** Exactly which orders can be canceled, and what a cancel changes: the status of that order. */
  lemma CancelsExactly(b: Book, id: string, clientId: string)
    requires BookFits(b)
    ensures var found, r := Find(b, id, clientId), Canceled(b, id, clientId);
            && (r.1 == Refused(OrderNotFound) <==> found.None?)
            && (r.1 == Refused(AlreadyFinal) <==>
                  found.Some? && (found.value.status.Filled? || found.value.status.Canceled? || found.value.status.Failed?))
            && (r.1.Refused? ==> r.0 == b)
            && (r.1.Taken? ==>
                  && r.1.order == found.value.(status := Store.Canceled)
                  && r.0.orders == b.orders[found.value.id := r.1.order])
  {
    hide Find;
  }

  /** Exactly how a placement moves a net position: by its signed quantity, or its signed value, if it is filled, on that
      symbol, and of the exchange, the account and a symbol asked for; by nothing otherwise. */
  lemma PlacementMovesExactly(b: Book, r: Request, id: string, f: Filter, symbol: string, quantity: bool)
    requires id !in b.orders && Rejection(r).None?
    ensures NetOf(Placed(b, r, id).0, f, symbol, quantity) - NetOf(b, f, symbol, quantity) ==
            if r.status.Filled? && r.symbol == symbol && (f.exchange == "" || f.exchange == r.exchange)
               && (f.account == "" || f.account == r.account) && (f.symbols == {} || symbol in f.symbols)
            then Directed(r.side, if quantity then r.quantity else r.quantity * r.price) else 0.0
  {
    PlacementAdds(b, r, id, f, symbol, quantity);
    hide Placed, NetOf;
  }

  /** A cancel, successful or not, changes no position. */
  lemma CancelKeepsPositions(b: Book, id: string, clientId: string, f: Filter, symbol: string, quantity: bool)
    requires BookFits(b)
    ensures NetOf(Canceled(b, id, clientId).0, f, symbol, quantity) == NetOf(b, f, symbol, quantity)
  {
    var c := Canceled(b, id, clientId).0;
    assert c.orders.Keys == b.orders.Keys;
    TotalAgrees(c.orders, b.orders, b.orders.Keys, f, symbol, quantity);
  }

  // ---- Histories ------------------------------------------------------------------------------------------------

  datatype Event = Place(request: Request, id: string) | Cancel(id: string, clientId: string)

  function Step(b: Book, e: Event): Book {
    match e
    case Place(request, id) => Placed(b, request, id).0
    case Cancel(id, clientId) => Canceled(b, id, clientId).0
  }

  function Trace(b: Book, events: seq<Event>): Book
    decreases |events|
  {
    if events == [] then b else Step(Trace(b, events[..|events| - 1]), events[|events| - 1])
  }

  /** Every placement gets an order id not used before. */
  predicate FreshIds(b: Book, events: seq<Event>)
    decreases |events|
  {
    events == []
    || (FreshIds(b, events[..|events| - 1])
        && (events[|events| - 1].Place? ==> events[|events| - 1].id !in Trace(b, events[..|events| - 1]).orders))
  }

  /** The signed sum over the history itself: each accepted placement adds its filled part, cancels add nothing. */
  function HistorySum(events: seq<Event>, f: Filter, symbol: string, quantity: bool): real
    decreases |events|
  {
    if events == [] then 0.0
    else
      var e := events[|events| - 1];
      HistorySum(events[..|events| - 1], f, symbol, quantity)
      + (if e.Place? && Rejection(e.request).None? then Part(f, symbol, NewOrder(e.request, e.id), quantity) else 0.0)
  }

  const Empty := Book(map[], map[])

  /** After any history of placements and cancels, what the exchange nets per symbol and account is the signed sum of the
      filled placements, and the client index is sound. */
  lemma {:induction false} NetIsHistorySum(events: seq<Event>, f: Filter, symbol: string, quantity: bool)
    requires FreshIds(Empty, events)
    ensures BookFits(Trace(Empty, events))
    ensures NetOf(Trace(Empty, events), f, symbol, quantity) == HistorySum(events, f, symbol, quantity)
    decreases |events|
  {
    hide BookFits, Part, NewOrder, Canceled, Total, Rejection;
    if events == [] {
      EmptyBook(f, symbol, quantity);
    } else {
      var n := |events| - 1;
      NetIsHistorySum(events[..n], f, symbol, quantity);
      var b := Trace(Empty, events[..n]);
      match events[n]
      case Place(request, id) =>
        PlacedFits(b, request, id);
        if Rejection(request).None? {
          PlacementAdds(b, request, id, f, symbol, quantity);
        }
      case Cancel(id, clientId) =>
        CanceledFits(b, id, clientId);
        CancelKeepsPositions(b, id, clientId, f, symbol, quantity);
    }
  }

  lemma EmptyBook(f: Filter, symbol: string, quantity: bool)
    ensures BookFits(Empty) && NetOf(Empty, f, symbol, quantity) == 0.0
  {
  }

  // ---- The adapter ----------------------------------------------------------------------------------------------

  function Allowed(symbols: seq<string>): set<string> {
    set i | 0 <= i < |symbols| && Trim(symbols[i]) != "" :: Trim(symbols[i])
  }

  /** Some filled order on the symbol was executed at this price. */
  ghost predicate TradedAt(b: Book, f: Filter, symbol: string, price: real) {
    exists id :: id in b.orders && Counts(f, b.orders[id]) && b.orders[id].symbol == symbol && b.orders[id].average == price
  }

  /** A list of positions shows each symbol with a net quantity once, with its net quantity and notional, and no other. */
  ghost predicate Reports(positions: seq<RawPosition>, b: Book, f: Filter) {
    && (forall i, j :: 0 <= i < j < |positions| ==> positions[i].symbol != positions[j].symbol)
    && (forall i :: 0 <= i < |positions| ==>
          && positions[i].side == PositionSide.Net && positions[i].quantity != 0.0
          && positions[i].quantity == NetOf(b, f, positions[i].symbol, true)
          && positions[i].notional == NetOf(b, f, positions[i].symbol, false)
          && positions[i].entry == positions[i].notional / positions[i].quantity
          && TradedAt(b, f, positions[i].symbol, positions[i].mark))
    && (forall symbol :: NetOf(b, f, symbol, true) != 0.0 ==>
          exists i :: 0 <= i < |positions| && positions[i].symbol == symbol)
  }

  datatype Aggregate = Aggregate(quantity: real, notional: real, mark: real)

  function Sum(sums: map<string, Aggregate>, symbol: string, quantity: bool): real {
    if symbol !in sums then 0.0 else if quantity then sums[symbol].quantity else sums[symbol].notional
  }

  /** The running sums after the orders `done` were visited. */
  ghost predicate SumsOf(sums: map<string, Aggregate>, b: Book, done: set<string>, f: Filter)
    requires done <= b.orders.Keys
  {
    && (forall symbol, quantity :: Sum(sums, symbol, quantity) == Total(b.orders, done, f, symbol, quantity))
    && (forall symbol :: symbol in sums ==> TradedAt(b, f, symbol, sums[symbol].mark))
  }

  function Added(sums: map<string, Aggregate>, o: Order): map<string, Aggregate> {
    var current := if o.symbol in sums then sums[o.symbol] else Aggregate(0.0, 0.0, 0.0);
    sums[o.symbol := Aggregate(current.quantity + Directed(o.side, o.filled),
                               current.notional + Directed(o.side, o.filled * o.average), o.average)]
  }

  lemma VisitAdds(sums: map<string, Aggregate>, b: Book, done: set<string>, f: Filter, id: string)
    requires done <= b.orders.Keys && id in b.orders && id !in done && SumsOf(sums, b, done, f)
    ensures SumsOf(if Counts(f, b.orders[id]) then Added(sums, b.orders[id]) else sums, b, done + {id}, f)
  {
    var o := b.orders[id];
    var after := if Counts(f, o) then Added(sums, o) else sums;
    forall symbol, quantity
      ensures Sum(after, symbol, quantity) == Total(b.orders, done + {id}, f, symbol, quantity)
    {
      TotalSplits(b.orders, done + {id}, f, symbol, quantity, id);
      assert done + {id} - {id} == done;
      assert Sum(after, symbol, quantity) == Sum(sums, symbol, quantity) + Part(f, symbol, o, quantity);
    }
    assert Counts(f, o) ==> TradedAt(b, f, o.symbol, o.average);
    hide TradedAt, Counts;
  }

  class SimulatedAdapter {
    var orders: map<string, Order>
    var clientOrders: map<string, string>

    function View(): Book
      reads this
    {
      Book(orders, clientOrders)
    }

    constructor ()
      ensures View() == Empty
    {
      orders, clientOrders := map[], map[];
    }

    method PlaceOrder(r: Request, id: string) returns (answer: Answer)
      modifies this
      ensures (View(), answer) == Placed(old(View()), r, id)
      ensures old(BookFits(View())) && id !in old(orders) ==> BookFits(View())
    {
      var refusal := Rejection(r);
      if refusal.Some? {
        return Refused(refusal.value);
      }
      var o := NewOrder(r, id);
      orders := orders[o.id := o];
      if o.clientId != "" {
        clientOrders := clientOrders[o.clientId := o.id];
      }
      return Taken(o);
    }

    method FetchOrder(id: string, clientId: string) returns (answer: Answer)
      ensures answer == match Find(View(), id, clientId) case Some(o) => Taken(o) case None => Refused(OrderNotFound)
    {
      var found := Find(View(), id, clientId);
      return if found.Some? then Taken(found.value) else Refused(OrderNotFound);
    }

    method CancelOrder(id: string, clientId: string) returns (answer: Answer)
      modifies this
      ensures (View(), answer) == Canceled(old(View()), id, clientId)
      ensures old(BookFits(View())) ==> BookFits(View())
    {
      var found := Find(View(), id, clientId);
      if found.None? {
        return Refused(OrderNotFound);
      }
      if Final(found.value.status) {
        return Refused(AlreadyFinal);
      }
      var o := found.value.(status := Store.Canceled);
      orders := orders[o.id := o];
      if o.clientId != "" {
        clientOrders := clientOrders[o.clientId := o.id];
      }
      return Taken(o);
    }

    /** Both loops visit their map in an arbitrary order. */
    method FetchPositions(exchange: string, account: string, symbols: seq<string>, now: int)
      returns (positions: seq<RawPosition>)
      ensures Reports(positions, View(), Filter(exchange, account, Allowed(symbols)))
    {
      hide Total, Added, Counts, TradedAt;
      var f := Filter(exchange, account, Allowed(symbols));
      ghost var b := View();
      var sums: map<string, Aggregate> := map[];
      var rest := orders.Keys;
      NothingVisited(b, f);
      while rest != {}
        invariant rest <= orders.Keys && SumsOf(sums, b, orders.Keys - rest, f)
        decreases |rest|
      {
        var id :| id in rest;
        VisitAdds(sums, b, orders.Keys - rest, f, id);
        assert orders.Keys - rest + {id} == orders.Keys - (rest - {id});
        if Counts(f, orders[id]) {
          sums := Added(sums, orders[id]);
        }
        rest := rest - {id};
      }
      assert orders.Keys - rest == orders.Keys;
      assert forall symbol, quantity :: Sum(sums, symbol, quantity) == NetOf(b, f, symbol, quantity);
      positions := Listed(sums, now);
      assert forall symbol :: NetOf(b, f, symbol, true) != 0.0 ==> symbol in sums && sums[symbol].quantity != 0.0;
    }

    static method Listed(sums: map<string, Aggregate>, now: int) returns (positions: seq<RawPosition>)
      ensures forall i, j :: 0 <= i < j < |positions| ==> positions[i].symbol != positions[j].symbol
      ensures forall i :: 0 <= i < |positions| ==>
                && positions[i].symbol in sums && positions[i].quantity != 0.0 && positions[i].side == PositionSide.Net
                && positions[i].quantity == sums[positions[i].symbol].quantity
                && positions[i].notional == sums[positions[i].symbol].notional
                && positions[i].mark == sums[positions[i].symbol].mark
                && positions[i].entry == positions[i].notional / positions[i].quantity
      ensures forall symbol :: symbol in sums && sums[symbol].quantity != 0.0 ==>
                exists i :: 0 <= i < |positions| && positions[i].symbol == symbol
    {
      positions := [];
      var rest := sums.Keys;
      while rest != {}
        invariant rest <= sums.Keys
        invariant forall i :: 0 <= i < |positions| ==>
                    && positions[i].symbol in sums && positions[i].symbol !in rest && positions[i].quantity != 0.0
                    && positions[i].side == PositionSide.Net
                    && positions[i].quantity == sums[positions[i].symbol].quantity
                    && positions[i].notional == sums[positions[i].symbol].notional
                    && positions[i].mark == sums[positions[i].symbol].mark
                    && positions[i].entry == positions[i].notional / positions[i].quantity
        invariant forall i, j :: 0 <= i < j < |positions| ==> positions[i].symbol != positions[j].symbol
        invariant forall symbol :: symbol in sums.Keys - rest && sums[symbol].quantity != 0.0 ==>
                    exists i :: 0 <= i < |positions| && positions[i].symbol == symbol
        decreases |rest|
      {
        var symbol :| symbol in rest;
        rest := rest - {symbol};
        var item := sums[symbol];
        ghost var before := positions;
        if item.quantity != 0.0 {
          positions := positions + [RawPosition(symbol, PositionSide.Net, item.quantity, item.notional,
                                                item.notional / item.quantity, item.mark, now)];
          assert positions[|before|].symbol == symbol;
        }
        assert forall i :: 0 <= i < |before| ==> positions[i] == before[i];
      }
    }
  }

  lemma NothingVisited(b: Book, f: Filter)
    ensures SumsOf(map[], b, b.orders.Keys - b.orders.Keys, f)
  {
    assert b.orders.Keys - b.orders.Keys == {};
  }

  // ---- The hedge service on this exchange -----------------------------------------------------------------------

  /** What the service asks for: one account, one symbol. The adapter trims the symbols asked for and keeps those of its
      orders as they came, so what follows, and what SimulatedLoop builds on it, is about symbols without surrounding
      blanks. */
  function Own(r: Request): Filter {
    Filter(r.exchange, r.account, {r.symbol})
  }

  /** Asking for a symbol filters for exactly that symbol if and only if it is not empty and has no surrounding blanks. */
  lemma AskedAsStoredExactly(symbol: string)
    ensures Allowed([symbol]) == {symbol} <==> symbol != "" && Trim(symbol) == symbol
  {
    var asked := Trim(symbol);
    assert forall x :: x in Allowed([symbol]) <==> asked != "" && x == asked by {
      assert [symbol][0] == symbol;
      hide Trim;
    }
    assert Trim("") == "";
    hide Trim, Allowed;
  }

  /** A position fetch on the target symbol shows exactly the net quantity. */
  lemma FetchShowsNet(b: Book, f: Filter, symbol: string, positions: seq<RawPosition>, now: int)
    requires f.symbols == {symbol} && Reports(positions, b, f)
    ensures var live := Exit.LivePosition(symbol, Exit.Fetched(positions), now);
            if NetOf(b, f, symbol, true) == 0.0 then live.LiveFlat?
            else live.LiveOpen? && live.snapshot.quantity == NetOf(b, f, symbol, true)
  {
    OtherSymbolsAreFlat(b, f, symbol);
    hide NetOf;
    forall i | 0 <= i < |positions|
      ensures positions[i].symbol == symbol
    {
    }
    if NetOf(b, f, symbol, true) != 0.0 {
      var i :| 0 <= i < |positions| && positions[i].symbol == symbol;
      assert positions[i] in positions;
    }
  }

  lemma OtherSymbolsAreFlat(b: Book, f: Filter, symbol: string)
    requires f.symbols == {symbol}
    ensures forall other :: other != symbol ==> NetOf(b, f, other, true) == 0.0
  {
    forall other | other != symbol
      ensures NetOf(b, f, other, true) == 0.0
    {
      NoPartsNoTotal(b.orders, b.orders.Keys, f, other);
    }
  }

  lemma {:induction false} NoPartsNoTotal(orders: map<string, Order>, ids: set<string>, f: Filter, symbol: string)
    requires ids <= orders.Keys && f.symbols != {} && symbol !in f.symbols
    ensures Total(orders, ids, f, symbol, true) == 0.0
    decreases |ids|
  {
    if ids != {} {
      var id :| id in ids;
      TotalSplits(orders, ids, f, symbol, true, id);
      NoPartsNoTotal(orders, ids - {id}, f, symbol);
    }
  }

  /** After every filled live run the refresh stores exactly the exchange's signed sum, if the previous snapshot held the
      sum from before the order - whatever was traded on the account earlier. */
  lemma RefreshStoresTheSum(
    b: Book, r: Request, id: string, c: Config, previous: Option<Snapshot>, stored: Option<Snapshot>, e: Store.Execution,
    positions: seq<RawPosition>, now: int)
    requires id !in b.orders && Rejection(r).None? && r.status.Filled? && !c.dryRun && r.symbol == c.targetSymbol
    requires e.status.Filled? && e.filled == r.quantity
    requires (if previous.None? then 0.0 else previous.value.quantity) == NetOf(b, Own(r), r.symbol, true)
    requires Reports(positions, Placed(b, r, id).0, Own(r))
    ensures var after := Exit.RefreshedAfter(c, stored, previous, r.side, r.quantity, e, Exit.Fetched(positions), now);
            after.Some? && after.value.quantity == NetOf(Placed(b, r, id).0, Own(r), r.symbol, true)
  {
    PlacementAdds(b, r, id, Own(r), r.symbol, true);
    FetchShowsNet(Placed(b, r, id).0, Own(r), r.symbol, positions, now);
    OwnPart(r, id);
    hide NetOf, Exit.LivePosition, Exit.RefreshedAfter, Placed, Part;
    RefreshStores(c, stored, previous, r.side, r.quantity, e, Exit.Fetched(positions), now);
  }

  lemma OwnPart(r: Request, id: string)
    requires r.status.Filled?
    ensures Part(Own(r), r.symbol, NewOrder(r, id), true) == Directed(r.side, r.quantity)
  {
  }

  /** A live quantity that moved by exactly the order is stored. */
  lemma RefreshStores(
    c: Config, stored: Option<Snapshot>, previous: Option<Snapshot>, side: Side, quantity: real, e: Store.Execution,
    fetch: Exit.Fetch, now: int)
    requires !c.dryRun && e.status.Filled? && e.filled == quantity > 0.0
    requires var live := Exit.LivePosition(c.targetSymbol, fetch, now);
             !live.LiveError?
             && (if live.LiveOpen? then live.snapshot.quantity else 0.0) ==
                (if previous.None? then 0.0 else previous.value.quantity) + Directed(side, quantity)
    ensures var after := Exit.RefreshedAfter(c, stored, previous, side, quantity, e, fetch, now);
            after.Some? && after.value.quantity ==
                           (if previous.None? then 0.0 else previous.value.quantity) + Directed(side, quantity)
  {
    hide Exit.LivePosition;
  }
}
