/** The live position a hedge exit works on (fetchLivePositionSnapshot, loadExitPosition and refreshFilledPosition in
    internal/service/hedge_service.go), for any list of positions the exchange may report. */
module ExitPosition {
  import opened Money
  import opened Calculator
  import opened Positions
  import opened Symbols
  import Store = OrderStore

  datatype Fetch = FetchFailed | Fetched(positions: seq<RawPosition>)

  datatype Live = LiveError | LiveFlat | LiveOpen(snapshot: Snapshot)

  /** The first position on the target symbol that is not flat. */
  function FirstOpen(target: string, positions: seq<RawPosition>): (r: Option<RawPosition>)
    ensures r.Some? ==> r.value in positions && EqualFold(r.value.symbol, target) && r.value.quantity != 0.0
    ensures r.None? <==> forall p :: p in positions && EqualFold(p.symbol, target) ==> p.quantity == 0.0
  {
    if positions == [] then None
    else
      FlatMeansZeroQuantity(positions[0]);
      if EqualFold(positions[0].symbol, target) && !Flat(positions[0]) then Some(positions[0])
      else FirstOpen(target, positions[1..])
  }

  /** It is the first one in the list. */
  lemma {:induction false} FirstOpenIsFirst(target: string, positions: seq<RawPosition>)
    requires FirstOpen(target, positions).Some?
    ensures exists i :: 0 <= i < |positions| && positions[i] == FirstOpen(target, positions).value
                        && forall j :: 0 <= j < i && EqualFold(positions[j].symbol, target) ==> positions[j].quantity == 0.0
    decreases |positions|
  {
    hide EqualFold, Flat;
    FlatMeansZeroQuantity(positions[0]);
    if !(EqualFold(positions[0].symbol, target) && !Flat(positions[0])) {
      FirstOpenIsFirst(target, positions[1..]);
      var rest := positions[1..];
      var i :| 0 <= i < |rest| && rest[i] == FirstOpen(target, rest).value
               && forall j :: 0 <= j < i && EqualFold(rest[j].symbol, target) ==> rest[j].quantity == 0.0;
      assert positions[i + 1] == rest[i];
      forall j | 0 <= j < i + 1 && EqualFold(positions[j].symbol, target)
        ensures positions[j].quantity == 0.0
      {
        if j > 0 {
          assert positions[j] == rest[j - 1];
        }
      }
    } else {
      assert positions[0] == FirstOpen(target, positions).value;
    }
  }

  function LivePosition(target: string, fetch: Fetch, now: int): (r: Live)
    ensures r.LiveError? <==> fetch.FetchFailed?
    ensures r.LiveFlat? <==> ShowsFlat(target, fetch)
    ensures r.LiveOpen? ==> r.snapshot.quantity != 0.0 && r.snapshot.observedAt == now
    ensures r.LiveOpen? ==> var p := FirstOpen(target, fetch.positions).value;
                            r.snapshot.side == p.side && r.snapshot.entry == p.entry && r.snapshot.mark == p.mark
  {
    if fetch.FetchFailed? then LiveError
    else
      match FirstOpen(target, fetch.positions)
      case None => LiveFlat
      case Some(p) => LiveOpen(Normalized(p, now))
  }

  /** The fetch succeeded and every position on the target symbol has quantity zero. */
  predicate ShowsFlat(target: string, fetch: Fetch) {
    fetch.Fetched? && forall p :: p in fetch.positions && EqualFold(p.symbol, target) ==> p.quantity == 0.0
  }

  /** The live snapshot of every fetch with an open position: side, entry price and mark as reported for the first one,
      its quantity and notional in their reported size with the sign of the side, and the present as its stamp. */
  lemma LiveIsReported(target: string, fetch: Fetch, now: int)
    requires fetch.Fetched? && FirstOpen(target, fetch.positions).Some?
    ensures var p, live := FirstOpen(target, fetch.positions).value, LivePosition(target, fetch, now);
            && live.LiveOpen? && live.snapshot.side == p.side && live.snapshot.observedAt == now
            && live.snapshot.entry == p.entry && live.snapshot.mark == p.mark
            && Abs(live.snapshot.quantity) == Abs(p.quantity) && live.snapshot.quantity == SignedQuantity(p)
            && Abs(live.snapshot.notional) ==
               (if p.notional != 0.0 then Abs(p.notional) else if p.mark > 0.0 then Abs(p.quantity) * p.mark else 0.0)
            && (p.notional != 0.0 || p.mark > 0.0 ==> Sign(live.snapshot.notional) == Sign(live.snapshot.quantity))
  {
    var p := FirstOpen(target, fetch.positions).value;
    SizeIsReported(p);
    SignedNotionalSign(p);
    hide FirstOpen, SignedQuantity, SignedNotional;
  }

  /** What an exit closes, or the error that ends it: the live position if there is one, the stored one otherwise. */
  datatype Loaded = LoadFailed(stored: Option<Snapshot>) | Loaded(position: Option<Snapshot>, stored: Option<Snapshot>)

  /** `stored` in the result is the stored snapshot afterwards: a live position is written back, even when no mark price
      can be found for it. */
  function LoadExit(c: Config, fetch: Fetch, ticker: Ticker, stored: Option<Snapshot>, now: int): Loaded {
    if c.dryRun then Marked(stored, stored, ticker)
    else
      match LivePosition(c.targetSymbol, fetch, now)
      case LiveError => LoadFailed(stored)
      case LiveFlat => Marked(stored, stored, ticker)
      case LiveOpen(s) => Marked(Some(s), Some(s), ticker)
  }

  function Marked(position: Option<Snapshot>, stored: Option<Snapshot>, ticker: Ticker): Loaded {
    if position.None? then Loaded(None, stored)
    else
      match EnsureExitMark(position.value, ticker)
      case MarkUnknown(_) => LoadFailed(stored)
      case MarkKnown(s) => Loaded(Some(s), stored)
  }

  /** What an exit loads and what it leaves stored. Outside dry-run a failed fetch ends it with nothing stored; an open
      position is stored as it is reported and closed at an ensured mark; without one the stored snapshot is closed. */
  lemma LoadedExactly(c: Config, fetch: Fetch, ticker: Ticker, stored: Option<Snapshot>, now: int)
    ensures var r, live := LoadExit(c, fetch, ticker, stored, now), LivePosition(c.targetSymbol, fetch, now);
            var source := if !c.dryRun && live.LiveOpen? then Some(live.snapshot) else stored;
            if !c.dryRun && fetch.FetchFailed? then r == LoadFailed(stored)
            else
              && r.stored == source
              && (r.LoadFailed? <==> source.Some? && EnsureExitMark(source.value, ticker).MarkUnknown?)
              && (r.Loaded? ==>
                    r.position == if source.None? then None else Some(EnsureExitMark(source.value, ticker).position))
  {
    hide EnsureExitMark, FirstOpen;
  }

  /** An exit that finds an open position with a positive mark closes that position: the whole reported quantity, on the
      other side, reduce-only, at a limit exactly the allowed slippage off the reported mark. */
  lemma ClosesAtReportedMark(c: Config, fetch: Fetch, ticker: Ticker, stored: Option<Snapshot>, now: int)
    requires c.targetSymbol != "" && !c.dryRun && fetch.Fetched? && FirstOpen(c.targetSymbol, fetch.positions).Some?
    requires FirstOpen(c.targetSymbol, fetch.positions).value.mark > 0.0
    ensures var p, loaded := FirstOpen(c.targetSymbol, fetch.positions).value, LoadExit(c, fetch, ticker, stored, now);
            && loaded.Loaded? && loaded.stored.Some? && loaded.stored.value.mark == p.mark
            && loaded.stored.value.entry == p.entry
            && var r := ClosePosition(c, ToPosition(c.targetSymbol, loaded.position));
               && r.Ok? && r.value.action == Exit && r.value.reduceOnly && r.value.reason == ManualClose
               && r.value.symbol == c.targetSymbol && !r.value.dryRun && r.value.quantity == Abs(p.quantity)
               && r.value.side == Some(if SignedQuantity(p) < 0.0 then Buy else Sell)
               && OffBySlippage(c, r.value.side.value, r.value.limitPrice, p.mark)
  {
    hide FirstOpen, OffBySlippage, ClosePosition, SignedQuantity, SignedNotional;
    var p := FirstOpen(c.targetSymbol, fetch.positions).value;
    LiveIsReported(c.targetSymbol, fetch, now);
    var live := LivePosition(c.targetSymbol, fetch, now).snapshot;
    EnsuredMarkExactly(live, ticker);
    LoadedExactly(c, fetch, ticker, stored, now);
    hide LoadExit, EnsureExitMark, LivePosition;
    CloseSide(c, ToPosition(c.targetSymbol, Some(live)));
    ClosesExactly(c, ToPosition(c.targetSymbol, Some(live)));
    CloseCarriesTheLimit(c, ToPosition(c.targetSymbol, Some(live)));
  }

  /** Whatever the fetch and the ticker say, a loaded position can be closed, and the close decision is to hold only if
      the fetch showed no open position. */
  lemma LoadedCloses(c: Config, fetch: Fetch, ticker: Ticker, stored: Option<Snapshot>, now: int)
    requires c.targetSymbol != "" && LoadExit(c, fetch, ticker, stored, now).Loaded?
    ensures var d := ClosePosition(c, ToPosition(c.targetSymbol, LoadExit(c, fetch, ticker, stored, now).position));
            && d.Ok? && (d.value.action == Hold || (d.value.action == Exit && d.value.side.Some?))
            && (d.value.action == Hold && !c.dryRun ==> ShowsFlat(c.targetSymbol, fetch))
  {
    hide EnsureExitMark, LimitPrice, Flat;
    var from := match LivePosition(c.targetSymbol, fetch, now)
                case LiveOpen(s) => if c.dryRun then stored else Some(s)
                case _ => stored;
    if from.Some? {
      EnsuredMarkIsPositive(from.value, ticker);
    }
    CloseCannotFail(c, c.targetSymbol, LoadExit(c, fetch, ticker, stored, now).position);
  }

  /** The fetch shows the quantity held on the target symbol. */
  predicate ShowsHeld(target: string, fetch: Fetch, held: real) {
    fetch.Fetched? &&
    match FirstOpen(target, fetch.positions)
    case None => held == 0.0
    case Some(p) => SignedQuantity(p) == held
  }

  /** Exactly when a close order is for what is held: outside dry-run, with a fetch that shows the holding, a complete fill
      of the order leaves nothing if and only if something is held. When nothing is, an order can only come from a stored
      snapshot that is stale, and it asks for that snapshot's quantity. */
  lemma CloseMatchesHolding(
    c: Config, fetch: Fetch, ticker: Ticker, stored: Option<Snapshot>, now: int, held: real)
    requires c.targetSymbol != "" && !c.dryRun && ShowsHeld(c.targetSymbol, fetch, held)
    requires LoadExit(c, fetch, ticker, stored, now).Loaded?
    requires var r := ClosePosition(c, ToPosition(c.targetSymbol, LoadExit(c, fetch, ticker, stored, now).position));
             r.Ok? && r.value.IsOrder()
    ensures var position := LoadExit(c, fetch, ticker, stored, now).position;
            var d := ClosePosition(c, ToPosition(c.targetSymbol, position)).value;
            && d.side.Some? && (held + Directed(d.side.value, d.quantity) == 0.0 <==> held != 0.0)
            && (held == 0.0 ==> stored.Some? && position == Some(stored.value.(mark := position.value.mark)))
  {
    hide LimitPrice, EqualFold;
    match FirstOpen(c.targetSymbol, fetch.positions)
    case Some(p) =>
      EnsuredMarkIsPositive(Normalized(p, now), ticker);
      SignedNotionalSign(p);
      hide EnsureExitMark, SignedNotional, ClosePosition, FirstOpen;
      CloseSide(c, ToPosition(c.targetSymbol, LoadExit(c, fetch, ticker, stored, now).position));
    case None =>
      EnsuredMarkIsPositive(stored.value, ticker);
      hide EnsureExitMark, FirstOpen;
      CloseAsksForSome(c, ToPosition(c.targetSymbol, LoadExit(c, fetch, ticker, stored, now).position));
  }

  lemma CloseAsksForSome(c: Config, p: Position)
    requires ClosePosition(c, p).Ok? && ClosePosition(c, p).value.IsOrder()
    ensures ClosePosition(c, p).value.side.Some? && ClosePosition(c, p).value.quantity > 0.0
  {
    hide LimitPrice, Units;
    if p.quantity == 0.0 {
      UnitsTimesMark(p.notional, CloseMark(p));
    }
  }

  /** After a fill the live position is stored only if it is what the fill should have produced. */
  function RefreshedAfter(
    c: Config, stored: Option<Snapshot>, previous: Option<Snapshot>, side: Side, quantity: real, e: Store.Execution,
    fetch: Fetch, now: int): Option<Snapshot>
  {
    if c.dryRun || !e.status.Filled? then stored
    else
      var live := match LivePosition(c.targetSymbol, fetch, now)
                  case LiveError => None
                  case LiveFlat =>
                    Some(Snapshot(Net, 0.0, 0.0, 0.0, if previous.Some? then previous.value.mark else 0.0, now))
                  case LiveOpen(s) => Some(s);
      if live.Some? && live.value.quantity == ExpectedQuantity(previous, side, quantity, e.filled) then live else stored
  }

  /** Exactly when a fill is followed by a new snapshot, and which: outside dry-run, for a filled execution, when the fetch
      shows the quantity the fill should have left; then the position it shows is stored, and the stored one stays
      otherwise. */
  lemma RefreshStoresExactly(
    c: Config, stored: Option<Snapshot>, previous: Option<Snapshot>, side: Side, quantity: real, e: Store.Execution,
    fetch: Fetch, now: int)
    ensures var after := RefreshedAfter(c, stored, previous, side, quantity, e, fetch, now);
            var wanted := (if previous.None? then 0.0 else previous.value.quantity)
                          + Directed(side, if e.filled == 0.0 then Abs(quantity) else Abs(e.filled));
            if !c.dryRun && e.status.Filled? && ShowsHeld(c.targetSymbol, fetch, wanted) then
              && after.Some? && after.value.quantity == wanted && after.value.observedAt == now
              && match FirstOpen(c.targetSymbol, fetch.positions)
                 case None =>
                   && after.value.side == Net && after.value.notional == 0.0 && after.value.entry == 0.0
                   && after.value.mark == if previous.Some? then previous.value.mark else 0.0
                 case Some(p) => after.value.side == p.side && after.value.mark == p.mark && after.value.entry == p.entry
            else after == stored
  {
    ExpectedMoves(previous, side, quantity, e.filled);
    hide ExpectedQuantity, FirstOpen, SignedNotional;
    if fetch.Fetched? {
      if FirstOpen(c.targetSymbol, fetch.positions).Some? {
        LiveIsReported(c.targetSymbol, fetch, now);
      }
    }
  }
}
