/** Exchange positions, the stored snapshots made from them, and the close path that turns a snapshot into one exact
    closing order (internal/service/position_sync_service.go, hedge_service.go, hedge_monitor_service.go). */
module Positions {
  import opened Money
  import opened Calculator

  /** A position side after trimming and upper-casing; everything that is neither LONG nor SHORT is read as NET. */
  datatype PositionSide = Long | Short | Net

  /** A position as an exchange reports it. */
  datatype RawPosition = RawPosition(
    symbol: string, side: PositionSide, quantity: real, notional: real, entry: real, mark: real, updatedAt: int)

  datatype Snapshot = Snapshot(
    side: PositionSide, quantity: real, notional: real, entry: real, mark: real, observedAt: int)

  datatype ObservedExposure = ObservedExposure(notional: real, mark: real, observedAt: int)

  function SignedQuantity(p: RawPosition): real {
    match p.side
    case Short => -Abs(p.quantity)
    case Long => Abs(p.quantity)
    case Net => p.quantity
  }

  function SignedNotional(p: RawPosition): real {
    var quantity := SignedQuantity(p);
    var notional := if p.notional == 0.0 && p.mark > 0.0 then Abs(quantity) * p.mark else p.notional;
    if quantity < 0.0 then -Abs(notional) else if quantity > 0.0 then Abs(notional) else 0.0
  }

  /** The snapshot a live fetch stores for one reported position. */
  function Normalized(p: RawPosition, now: int): Snapshot {
    Snapshot(p.side, SignedQuantity(p), SignedNotional(p), p.entry, p.mark, now)
  }

  /** How the monitor reads the notional of a stored snapshot. */
  function ReadNotional(s: Snapshot): real {
    match s.side
    case Short => -Abs(s.notional)
    case Long => Abs(s.notional)
    case Net =>
      if s.quantity < 0.0 then -Abs(s.notional) else if s.quantity > 0.0 then Abs(s.notional) else s.notional
  }

  /** How the calculator reads a stored snapshot; no snapshot is a flat position. */
  function ToPosition(symbol: string, s: Option<Snapshot>): Position {
    if s.None? then Position(symbol, 0.0, 0.0, 0.0)
    else Position(symbol, s.value.quantity, s.value.notional, s.value.mark)
  }

  predicate Flat(p: RawPosition) {
    SignedQuantity(p) == 0.0 && SignedNotional(p) == 0.0
  }

  /** A reported position counts as flat exactly when the exchange reports a zero quantity. */
  lemma FlatMeansZeroQuantity(p: RawPosition)
    ensures Flat(p) <==> p.quantity == 0.0
  {
  }

  /** Whatever side, sign and notional an exchange reports, the monitor reads a normalised snapshot as the notional that
      was stored, both under the reported side and under the NET side the position sync writes. */
  lemma ReadBackIsStored(p: RawPosition, now: int)
    ensures ReadNotional(Normalized(p, now)) == Normalized(p, now).notional
    ensures ReadNotional(Normalized(p, now).(side := Net)) == Normalized(p, now).notional
  {
    SignedNotionalSign(p);
  }

  /** The monitor reads a snapshot as stored if and only if its notional does not contradict its side, or, on the NET side,
      the sign of its quantity. */
  lemma ReadsExactly(s: Snapshot)
    ensures ReadNotional(s) == s.notional <==>
            match s.side
            case Long => s.notional >= 0.0
            case Short => s.notional <= 0.0
            case Net => Sign(s.quantity) * Sign(s.notional) != -1
  {
    match s.side
    case Net =>
      if s.quantity < 0.0 {
        assert Sign(s.quantity) == -1;
      } else if s.quantity > 0.0 {
        assert Sign(s.quantity) == 1;
      }
    case _ =>
  }

  lemma SignedNotionalSign(p: RawPosition)
    ensures SignedQuantity(p) == 0.0 ==> SignedNotional(p) == 0.0
    ensures SignedQuantity(p) < 0.0 ==> SignedNotional(p) <= 0.0
    ensures SignedQuantity(p) > 0.0 ==> SignedNotional(p) >= 0.0
    ensures p.notional != 0.0 || p.mark > 0.0 ==> Sign(SignedQuantity(p)) == Sign(SignedNotional(p))
  {
    var units := Abs(SignedQuantity(p));
    if units != 0.0 && p.mark > 0.0 {
      assert units * p.mark > 0.0;
    }
  }

  /** Whatever side an exchange reports, the quantity keeps its size and takes the sign of the side; the notional of an open
      position keeps its reported size, and is the quantity at the mark when none is reported. */
  lemma SizeIsReported(p: RawPosition)
    ensures Abs(SignedQuantity(p)) == Abs(p.quantity)
    ensures match p.side
            case Long => SignedQuantity(p) >= 0.0
            case Short => SignedQuantity(p) <= 0.0
            case Net => SignedQuantity(p) == p.quantity
    ensures p.quantity != 0.0 ==>
              Abs(SignedNotional(p)) ==
              if p.notional != 0.0 then Abs(p.notional) else if p.mark > 0.0 then Abs(p.quantity) * p.mark else 0.0
  {
    if p.mark > 0.0 {
      assert Abs(p.quantity) * p.mark >= 0.0;
    }
  }

  // ---- Closing exactly ------------------------------------------------------------------------------------------

  datatype Ticker = TickerFailed | Ticker(mark: real, last: real)

  datatype MarkError = TickerUnavailable | TickerNotPositive

  datatype EnsureResult = MarkKnown(position: Snapshot) | MarkUnknown(error: MarkError)

  /** Gives a snapshot a usable mark price before it is closed: its own, the one its notional implies, or a ticker's. */
  function EnsureExitMark(s: Snapshot, ticker: Ticker): EnsureResult {
    if s.mark > 0.0 then MarkKnown(s)
    else if s.quantity != 0.0 && s.notional != 0.0 then MarkKnown(s.(mark := Abs(s.notional) / Abs(s.quantity)))
    else if ticker.TickerFailed? then MarkUnknown(TickerUnavailable)
    else
      var price := if ticker.mark > 0.0 then ticker.mark else ticker.last;
      if price > 0.0 then MarkKnown(s.(mark := price)) else MarkUnknown(TickerNotPositive)
  }

  /** What the service expects to hold after `filled` of an order on `side` executed; a zero report counts as the whole
      order. */
  function ExpectedQuantity(previous: Option<Snapshot>, side: Side, orderQuantity: real, filled: real): real {
    var quantity := if previous.None? then 0.0 else previous.value.quantity;
    var moved := if Abs(filled) == 0.0 then Abs(orderQuantity) else Abs(filled);
    if side.Buy? then quantity + moved else quantity - moved
  }

  lemma EnsuredMarkIsPositive(s: Snapshot, ticker: Ticker)
    requires EnsureExitMark(s, ticker).MarkKnown?
    ensures EnsureExitMark(s, ticker).position.mark > 0.0
    ensures EnsureExitMark(s, ticker).position == s.(mark := EnsureExitMark(s, ticker).position.mark)
  {
    if s.quantity != 0.0 && s.notional != 0.0 {
      DivPositive(Abs(s.notional), Abs(s.quantity));
    }
  }

  /** Exactly when a mark is known, and which: the snapshot's own if it is positive, otherwise the one at which its notional
      is worth its quantity, otherwise the ticker's mark, and its last price only without one. */
  lemma EnsuredMarkExactly(s: Snapshot, ticker: Ticker)
    ensures var r := EnsureExitMark(s, ticker);
            var implied := s.quantity != 0.0 && s.notional != 0.0;
            var quoted := ticker.Ticker? && (ticker.mark > 0.0 || ticker.last > 0.0);
            && (r.MarkKnown? <==> s.mark > 0.0 || implied || quoted)
            && (r.MarkUnknown? ==> r.error == if ticker.TickerFailed? then TickerUnavailable else TickerNotPositive)
            && (s.mark > 0.0 ==> r.position == s)
            && (s.mark <= 0.0 && implied ==> r.position.mark * Abs(s.quantity) == Abs(s.notional))
            && (s.mark <= 0.0 && !implied && quoted ==>
                  r.position.mark == if ticker.mark > 0.0 then ticker.mark else ticker.last)
  {
  }

  /** A fill is expected to move the quantity by its size in the order's direction; a fill reported as zero counts as the
      whole order. */
  lemma ExpectedMoves(previous: Option<Snapshot>, side: Side, orderQuantity: real, filled: real)
    ensures ExpectedQuantity(previous, side, orderQuantity, filled) ==
            (if previous.None? then 0.0 else previous.value.quantity)
            + Directed(side, if filled == 0.0 then Abs(orderQuantity) else Abs(filled))
  {
  }

  /** Once a mark is ensured, or there is no position at all, the close decision cannot fail: it is an error only when
      no symbol is known. */
  lemma CloseCannotFail(c: Config, symbol: string, s: Option<Snapshot>)
    requires symbol != ""
    requires s.Some? ==> s.value.mark > 0.0
    ensures ClosePosition(c, ToPosition(symbol, s)).Ok?
    ensures ClosePosition(c, ToPosition(symbol, s)).value.action ==
            (if s.None? || (s.value.quantity == 0.0 && s.value.notional == 0.0) then Hold else Exit)
  {
    hide LimitPrice;
    var p := ToPosition(symbol, s);
    if p.notional == 0.0 && p.quantity != 0.0 {
      MarkKeepsSign(p.quantity, p.mark);
    }
  }

  /** For every open position an exchange can report: normalise it, ensure a mark, close it and fill the order in full,
      and exactly nothing is left. */
  lemma CloseClosesExactly(c: Config, p: RawPosition, ticker: Ticker, now: int, filled: real)
    requires p.quantity != 0.0 && p.symbol != ""
    requires EnsureExitMark(Normalized(p, now), ticker).MarkKnown?
    ensures var s := EnsureExitMark(Normalized(p, now), ticker).position;
            var r := ClosePosition(c, ToPosition(p.symbol, Some(s)));
            && r.Ok? && r.value.action == Exit && r.value.reduceOnly && r.value.side.Some?
            && r.value.quantity == Abs(p.quantity)
            && (filled == 0.0 || filled == r.value.quantity ==>
                  ExpectedQuantity(Some(s), r.value.side.value, r.value.quantity, filled) == 0.0)
            && AfterFill(s.quantity, r.value.side.value, r.value.quantity, true) == 0.0
  {
    hide LimitPrice;
    var s := EnsureExitMark(Normalized(p, now), ticker).position;
    EnsuredMarkIsPositive(Normalized(p, now), ticker);
    SignedNotionalSign(p);
    MarkKeepsSign(s.quantity, s.mark);
    CloseCannotFail(c, p.symbol, Some(s));
    CloseSide(c, ToPosition(p.symbol, Some(s)));
  }

  /** The closing order is on the side opposite to the quantity, for the quantity itself. */
  lemma CloseSide(c: Config, p: Position)
    requires p.symbol != "" && p.mark > 0.0 && p.quantity != 0.0
    requires p.notional == 0.0 || Sign(p.notional) == Sign(p.quantity)
    ensures var r := ClosePosition(c, p);
            && r.Ok? && r.value.action == Exit && r.value.reduceOnly
            && r.value.quantity == Abs(p.quantity)
            && r.value.side == Some(if p.quantity < 0.0 then Buy else Sell)
  {
    hide LimitPrice;
    MarkKeepsSign(p.quantity, p.mark);
    if p.notional == 0.0 {
      // valued at the mark
    } else {
      // valued as stored
    }
  }
}
