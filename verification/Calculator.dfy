/** The hedge decision (internal/hedge/calculator.go): one exposure, one position and the thresholds of a configuration
    give at most one order. */
module Calculator {
  import opened Money

  datatype Action = Hold | Open | Rebalance | Exit | Skip

  datatype Side = Buy | Sell

  datatype Reason =
    | FirstTrigger
    | RebalanceDrift
    | ExitHedge
    | ManualClose
    | HedgeRatioAdjustment
    | PositionFlipClose
    | ConfigDisabled
    | BelowExitUnhedged
    | BelowFirstTrigger
    | MatchesTarget
    | BelowMinOrder
    | BelowRebalance
    | NothingToClose
    | GuardOrLifecycle

  datatype Error = SymbolRequired | MarkPriceNotPositive | NegativeRatio

  datatype Result<+T> = Ok(value: T) | Err(error: Error)

  datatype Config = Config(
    targetSymbol: string,
    ratio: real,
    firstTrigger: real,
    rebalance: real,
    exit: real,
    slippageBps: int,
    maxNotional: real,
    minOrder: real,
    enabled: bool,
    dryRun: bool)

  datatype Exposure = Exposure(notional: real, mark: real)

  datatype Position = Position(symbol: string, quantity: real, notional: real, mark: real)

  const NoPosition := Position("", 0.0, 0.0, 0.0)

  datatype Decision = Decision(
    action: Action,
    side: Option<Side>,
    symbol: string,
    target: real,
    current: real,
    adjustment: real,
    quantity: real,
    limitPrice: real,
    reduceOnly: bool,
    reason: Reason,
    dryRun: bool)
  {
    predicate IsOrder() {
      action.Open? || action.Rebalance? || action.Exit?
    }
  }

  /** The decision before any order field is filled in. */
  function Blank(action: Action, symbol: string, current: real, reason: Reason, dryRun: bool): Decision {
    Decision(action, None, symbol, 0.0, current, 0.0, 0.0, 0.0, false, reason, dryRun)
  }

  function SideOf(adjustment: real): Side {
    if adjustment > 0.0 then Buy else Sell
  }

  function LimitPrice(mark: real, side: Side, slippageBps: int): real {
    if slippageBps <= 0 then mark
    else
      var rate := slippageBps as real / 10000.0;
      if side.Buy? then mark * (1.0 + rate) else mark * (1.0 - rate)
  }

  /** The quantity worth `notional` at `mark`. */
  function Units(notional: real, mark: real): real
    requires mark > 0.0
  {
    Abs(notional) / mark
  }

  predicate ShouldReduceOnly(current: real, adjustment: real) {
    current != 0.0 && Sign(current) != Sign(adjustment) && Abs(adjustment) <= Abs(current)
  }

  predicate WouldFlip(current: real, adjustment: real) {
    current != 0.0 && Sign(current) != Sign(adjustment) && Abs(adjustment) > Abs(current)
  }

  /** The hedge wanted for an exposure, limited to the notional cap when there is one. */
  function CappedTarget(c: Config, notional: real): real {
    var target := (-notional) * c.ratio;
    if c.maxNotional > 0.0 && Abs(target) > c.maxNotional then Sign(target) as real * c.maxNotional else target
  }

  function Calculate(c: Config, e: Exposure, p: Position): Result<Decision> {
    if !c.enabled then Ok(Blank(Skip, c.targetSymbol, p.notional, ConfigDisabled, c.dryRun))
    else if c.targetSymbol == "" then Err(SymbolRequired)
    else if e.mark <= 0.0 then Err(MarkPriceNotPositive)
    else if c.ratio < 0.0 then Err(NegativeRatio)
    else
      var target := CappedTarget(c, e.notional);
      var hold := Blank(Hold, c.targetSymbol, p.notional, BelowExitUnhedged, c.dryRun);
      if Abs(e.notional) <= c.exit then
        if p.notional == 0.0 then Ok(hold)
        else Ok(Sized(c, e, p, 0.0, Exit, ExitHedge))
      else if p.notional == 0.0 then
        if Abs(e.notional) < c.firstTrigger then Ok(hold.(target := target, reason := BelowFirstTrigger))
        else Ok(Sized(c, e, p, target, Open, FirstTrigger))
      else
        Ok(Sized(c, e, p, target, Rebalance, RebalanceDrift))
  }

  /** What is left of the adjustment towards `target`: nothing when it is too small, the close leg when it would
      reverse the position, all of it otherwise. */
  datatype Leg = NoLeg(why: Reason) | CloseLeg | FullLeg(reduceOnly: bool)

  function ChooseLeg(c: Config, current: real, target: real, action: Action): Leg {
    var adjustment := target - current;
    if adjustment == 0.0 then NoLeg(MatchesTarget)
    else if Abs(adjustment) < c.minOrder then NoLeg(BelowMinOrder)
    else if action.Rebalance? && Abs(adjustment) < c.rebalance then NoLeg(BelowRebalance)
    else if WouldFlip(current, adjustment) then CloseLeg
    else FullLeg(ShouldReduceOnly(current, adjustment))
  }

  /** The second half of the calculation, which turns the leg into an order. */
  function Sized(c: Config, e: Exposure, p: Position, target: real, action: Action, reason: Reason): Decision
    requires e.mark > 0.0
  {
    var adjustment := target - p.notional;
    match ChooseLeg(c, p.notional, target, action)
    case NoLeg(why) =>
      Blank(Hold, c.targetSymbol, p.notional, why, c.dryRun).(target := target, adjustment := adjustment)
    case CloseLeg =>
      var close := -p.notional;
      var quantity := if p.quantity == 0.0 then Units(close, e.mark) else Abs(p.quantity);
      Decision(action, Some(SideOf(close)), c.targetSymbol, target, p.notional, close, quantity,
               LimitPrice(e.mark, SideOf(close), c.slippageBps), true, PositionFlipClose, c.dryRun)
    case FullLeg(reduceOnly) =>
      Decision(action, Some(SideOf(adjustment)), c.targetSymbol, target, p.notional, adjustment,
               Units(adjustment, e.mark), LimitPrice(e.mark, SideOf(adjustment), c.slippageBps),
               reduceOnly, reason, c.dryRun)
  }

  /** The mark a position is closed at: its own, or the one its notional implies. */
  function CloseMark(p: Position): real {
    if p.mark <= 0.0 && p.quantity != 0.0 && p.notional != 0.0 then Abs(p.notional) / Abs(p.quantity) else p.mark
  }

  function ClosePosition(c: Config, p: Position): Result<Decision> {
    var symbol := if c.targetSymbol == "" then p.symbol else c.targetSymbol;
    if symbol == "" then Err(SymbolRequired)
    else
      var mark := CloseMark(p);
      var current := if p.notional == 0.0 && p.quantity != 0.0 then p.quantity * mark else p.notional;
      if current == 0.0 && p.quantity == 0.0 then Ok(Blank(Hold, symbol, current, NothingToClose, c.dryRun))
      else if mark <= 0.0 then Err(MarkPriceNotPositive)
      else
        var side := SideOf(-current);
        var quantity := if p.quantity == 0.0 then Units(current, mark) else Abs(p.quantity);
        Ok(Decision(Exit, Some(side), symbol, 0.0, current, -current, quantity,
                    LimitPrice(mark, side, c.slippageBps), true, ManualClose, c.dryRun))
  }

  // ---- What an order does to a position -------------------------------------------------------------------------

  function Directed(side: Side, amount: real): real {
    if side.Buy? then amount else -amount
  }

  /** How much of a holding an order on `side` can close. */
  function Closable(held: real, side: Side): real {
    if side.Buy? && held < 0.0 then -held else if side.Sell? && held > 0.0 then held else 0.0
  }

  /** The holding after `amount` of an order executes on an exchange that never lets a reduce-only order pass zero. */
  function AfterFill(held: real, side: Side, amount: real, reduceOnly: bool): real {
    var executed := if reduceOnly && amount > Closable(held, side) then Closable(held, side) else amount;
    held + Directed(side, executed)
  }

  predicate SameSign(p: Position) {
    Sign(p.quantity) == Sign(p.notional)
  }

  /** A leg never carries the notional over zero, and is reduce-only exactly when it shrinks the notional. */
  lemma LegShape(c: Config, current: real, target: real, action: Action)
    ensures var leg := ChooseLeg(c, current, target, action);
            && (leg.CloseLeg? ==> current != 0.0)
            && (leg.FullLeg? ==> target != current && StaysOnSide(current, target))
            && (leg.FullLeg? ==> (leg.reduceOnly <==> Abs(target) < Abs(current)))
  {
    var adjustment := target - current;
    if WouldFlip(current, adjustment) {
      // the close leg
    } else {
      // the whole adjustment
    }
  }

  /** What the order fields of `Sized` say, for any target. */
  lemma SizedShape(c: Config, e: Exposure, p: Position, target: real, action: Action, reason: Reason)
    requires e.mark > 0.0 && reason != PositionFlipClose && Sized(c, e, p, target, action, reason).IsOrder()
    ensures var d := Sized(c, e, p, target, action, reason);
            && p.notional + d.adjustment == (if d.reason == PositionFlipClose then 0.0 else target)
            && (d.reduceOnly <==> Abs(p.notional + d.adjustment) < Abs(p.notional))
            && StaysOnSide(p.notional, p.notional + d.adjustment)
            && d.adjustment != 0.0 && d.side == Some(SideOf(d.adjustment))
            && d.quantity == OrderUnits(d, p, e.mark)
  {
    hide LimitPrice, Units, ChooseLeg;
    LegShape(c, p.notional, target, action);
    match ChooseLeg(c, p.notional, target, action)
    case NoLeg(_) =>
    case CloseLeg =>
    case FullLeg(_) =>
  }

  /** The close leg of a reversal asks for the quantity held; every other order for its adjustment at the exposure's
      mark. */
  function OrderUnits(d: Decision, p: Position, mark: real): real
    requires mark > 0.0
  {
    if d.reason == PositionFlipClose && p.quantity != 0.0 then Abs(p.quantity) else Units(d.adjustment, mark)
  }

  /** The notional a run works towards: nothing once the exposure is at or below the exit threshold. */
  function WantedNotional(c: Config, notional: real): real {
    if Abs(notional) <= c.exit then 0.0 else CappedTarget(c, notional)
  }

  /** Wanted is nothing within the exit threshold, and otherwise the hedge ratio of the exposure on its other side, but no
      more than the cap if there is one. */
  lemma WantedExactly(c: Config, notional: real)
    requires c.ratio >= 0.0
    ensures var wanted, full := WantedNotional(c, notional), Abs(notional) * c.ratio;
            && (Abs(notional) <= c.exit ==> wanted == 0.0)
            && (Abs(notional) > c.exit ==> Abs(wanted) == if c.maxNotional > 0.0 && full > c.maxNotional then c.maxNotional
                                                          else full)
            && (notional > 0.0 ==> wanted <= 0.0) && (notional < 0.0 ==> wanted >= 0.0)
  {
    assert Abs((-notional) * c.ratio) == Abs(notional) * c.ratio;
  }

  /** Each order moves the notional to the wanted one, or to zero as the close leg of a reversal, and reduce-only is set
      exactly when that makes the position smaller. */
  lemma OrderLandsOnZeroOrTarget(c: Config, e: Exposure, p: Position)
    requires Calculate(c, e, p).Ok? && Calculate(c, e, p).value.IsOrder()
    ensures var d := Calculate(c, e, p).value;
            && p.notional + d.adjustment == (if d.reason == PositionFlipClose then 0.0 else WantedNotional(c, e.notional))
            && (d.reduceOnly <==> Abs(p.notional + d.adjustment) < Abs(p.notional))
            && StaysOnSide(p.notional, p.notional + d.adjustment)
            && d.adjustment != 0.0 && d.side == Some(SideOf(d.adjustment))
            && e.mark > 0.0 && d.quantity == OrderUnits(d, p, e.mark)
  {
    hide Sized, CappedTarget, OrderUnits;
    var target := CappedTarget(c, e.notional);
    if Abs(e.notional) <= c.exit {
      SizedShape(c, e, p, 0.0, Exit, ExitHedge);
    } else if p.notional == 0.0 {
      SizedShape(c, e, p, target, Open, FirstTrigger);
    } else {
      SizedShape(c, e, p, target, Rebalance, RebalanceDrift);
    }
  }

  /** No order the calculator emits can reverse the position, whatever part of it executes and however far the
      position's own mark is from the exposure's mark. */
  lemma NoFlipInOneOrder(c: Config, e: Exposure, p: Position, amount: real)
    requires Calculate(c, e, p).Ok? && Calculate(c, e, p).value.IsOrder()
    requires SameSign(p)
    requires 0.0 <= amount
    ensures var d := Calculate(c, e, p).value;
            && d.side.Some?
            && d.quantity > 0.0
            && (d.reduceOnly || StaysOnSide(p.quantity, Directed(d.side.value, 1.0)))
            && StaysOnSide(p.quantity, AfterFill(p.quantity, d.side.value, amount, d.reduceOnly))
  {
    hide Calculate, Units, CappedTarget;
    OrderLandsOnZeroOrTarget(c, e, p);
    UnitsTimesMark(Calculate(c, e, p).value.adjustment, e.mark);
  }

  /** Exactly when the clamp is needed: a complete fill on an exchange without it carries the quantity over zero if and only
      if the order is reduce-only and asks for more than is held, that is, unless it is the close leg of a reversal, if
      and only if its adjustment is worth more than what is held at the exposure's mark. */
  lemma UnclampedFlipExactly(c: Config, e: Exposure, p: Position)
    requires Calculate(c, e, p).Ok? && Calculate(c, e, p).value.IsOrder() && SameSign(p)
    ensures var d := Calculate(c, e, p).value;
            && d.side.Some?
            && (!StaysOnSide(p.quantity, p.quantity + Directed(d.side.value, d.quantity)) <==>
                  d.reduceOnly && d.quantity > Abs(p.quantity))
            && (d.reduceOnly && d.quantity > Abs(p.quantity) <==>
                  d.reduceOnly && d.reason != PositionFlipClose && Abs(d.adjustment) > Abs(p.quantity) * e.mark)
  {
    hide Calculate, CappedTarget, WantedNotional, Units, OrderUnits;
    var d := Calculate(c, e, p).value;
    OrderLandsOnZeroOrTarget(c, e, p);
    NoFlipInOneOrder(c, e, p, 0.0);
    UnitsTimesMark(d.adjustment, e.mark);
    OrderUnitsAre(d, p, e.mark);
    MoreUnits(Units(d.adjustment, e.mark), Abs(p.quantity), e.mark);
  }

  lemma OrderUnitsAre(d: Decision, p: Position, mark: real)
    requires mark > 0.0
    ensures OrderUnits(d, p, mark) ==
            if d.reason == PositionFlipClose && p.quantity != 0.0 then Abs(p.quantity) else Units(d.adjustment, mark)
  {
  }

  lemma MoreUnits(x: real, y: real, mark: real)
    requires mark > 0.0
    ensures x > y <==> x * mark > y * mark
  {
    if x > y {
      assert (x - y) * mark > 0.0;
    } else if x < y {
      assert (y - x) * mark > 0.0;
    }
  }

  /** A stored notional that does not exceed the holding's value at the exposure's mark keeps every order from flipping,
      clamp or no clamp. */
  lemma NoFlipWithoutClamp(c: Config, e: Exposure, p: Position)
    requires Calculate(c, e, p).Ok? && Calculate(c, e, p).value.IsOrder() && SameSign(p)
    requires Abs(p.notional) <= Abs(p.quantity) * e.mark
    ensures var d := Calculate(c, e, p).value;
            d.side.Some? && StaysOnSide(p.quantity, p.quantity + Directed(d.side.value, d.quantity))
  {
    hide Calculate, CappedTarget, WantedNotional, Units, OrderUnits;
    OrderLandsOnZeroOrTarget(c, e, p);
    UnclampedFlipExactly(c, e, p);
  }

  /** The clamp is needed: when the position is marked above the exposure, a shrinking order for the exposure's mark
      asks for more than is held. */
  lemma UnclampedShrinkFlips() returns (c: Config, e: Exposure, p: Position)
    ensures Calculate(c, e, p).Ok? && Calculate(c, e, p).value.IsOrder() && SameSign(p)
    ensures var d := Calculate(c, e, p).value;
            d.reduceOnly && !StaysOnSide(p.quantity, p.quantity + Directed(d.side.value, d.quantity))
  {
    c := Config("BTC", 1.0, 5.0, 2.0, 1.0, 0, 0.0, 1.0, true, false);
    e := Exposure(-10.0, 50.0);
    p := Position("BTC", 1.0, 100.0, 100.0);
    assert CappedTarget(c, e.notional) == 10.0;
    assert Calculate(c, e, p).value.quantity == 90.0 / 50.0;
  }

  /** Exactly when a run orders, and what: the wanted notional differs from the current one by at least the minimum order,
      and above the exit threshold the first trigger, or the rebalance threshold, is reached. Exactly when it fails: an
      enabled configuration without a symbol, without a positive mark or with a negative ratio. */
  lemma OrdersExactly(c: Config, e: Exposure, p: Position)
    ensures var r, off := Calculate(c, e, p), WantedNotional(c, e.notional) - p.notional;
            && (r.Err? <==> c.enabled && (c.targetSymbol == "" || e.mark <= 0.0 || c.ratio < 0.0))
            && (r.Ok? ==>
                  (r.value.IsOrder() <==>
                     && c.enabled && off != 0.0 && Abs(off) >= c.minOrder
                     && (Abs(e.notional) > c.exit ==>
                           if p.notional == 0.0 then Abs(e.notional) >= c.firstTrigger else Abs(off) >= c.rebalance)))
            && (r.Ok? && r.value.IsOrder() ==>
                  r.value.action == if Abs(e.notional) <= c.exit then Exit else if p.notional == 0.0 then Open else Rebalance)
  {
    hide LimitPrice, Units, CappedTarget, WouldFlip, ShouldReduceOnly, SideOf;
  }

  /** Exactly which error, and exactly why a run does or does not order: the reason of every decision, the close leg of a
      reversal exactly when the wanted notional is on the other side of zero, and what the decision reports besides. */
  lemma ReasonsExactly(c: Config, e: Exposure, p: Position)
    ensures var r, off := Calculate(c, e, p), WantedNotional(c, e.notional) - p.notional;
            var hedged, small := Abs(e.notional) > c.exit, p.notional == 0.0 && Abs(e.notional) < c.firstTrigger;
            && (r == Err(SymbolRequired) <==> c.enabled && c.targetSymbol == "")
            && (r == Err(MarkPriceNotPositive) <==> c.enabled && c.targetSymbol != "" && e.mark <= 0.0)
            && (r == Err(NegativeRatio) <==> c.enabled && c.targetSymbol != "" && e.mark > 0.0 && c.ratio < 0.0)
            && (r.Ok? ==>
                  var d := r.value;
                  && (d.action.Skip? <==> !c.enabled)
                  && d.reason ==
                     (if !c.enabled then ConfigDisabled
                      else if !hedged && p.notional == 0.0 then BelowExitUnhedged
                      else if hedged && small then BelowFirstTrigger
                      else if off == 0.0 then MatchesTarget
                      else if Abs(off) < c.minOrder then BelowMinOrder
                      else if hedged && p.notional != 0.0 && Abs(off) < c.rebalance then BelowRebalance
                      else if !StaysOnSide(p.notional, WantedNotional(c, e.notional)) then PositionFlipClose
                      else if !hedged then ExitHedge else if p.notional == 0.0 then FirstTrigger else RebalanceDrift)
                  && (d.action.Hold? ==> d.reason != ConfigDisabled && d.side.None?)
                  && d.symbol == c.targetSymbol && d.current == p.notional && d.dryRun == c.dryRun
                  && d.target == (if c.enabled then WantedNotional(c, e.notional) else 0.0)
                  && d.adjustment == (if d.reason == PositionFlipClose then -p.notional
                                      else if !c.enabled || (p.notional == 0.0 && (!hedged || small)) then 0.0 else off))
  {
    hide LimitPrice, Units, CappedTarget, SideOf;
  }

  /** Exactly when a position can be closed and how: its own symbol stands in for a missing one, its notional is valued at the
      mark when none is stored, and what is closed is the quantity, or without one the notional's worth. */
  lemma ClosesExactly(c: Config, p: Position)
    ensures var r, symbol := ClosePosition(c, p), if c.targetSymbol == "" then p.symbol else c.targetSymbol;
            && (r == Err(SymbolRequired) <==> symbol == "")
            && (r == Err(MarkPriceNotPositive) <==>
                  symbol != "" && (p.quantity != 0.0 || p.notional != 0.0) && CloseMark(p) <= 0.0)
            && (p.mark > 0.0 ==> CloseMark(p) == p.mark)
            && (p.mark <= 0.0 && p.quantity != 0.0 && p.notional != 0.0 ==>
                  CloseMark(p) * Abs(p.quantity) == Abs(p.notional))
            && (r.Ok? ==>
                  var d := r.value;
                  && d.symbol == symbol && d.dryRun == c.dryRun && d.target == 0.0 && d.adjustment == -d.current
                  && d.current == (if p.notional == 0.0 then p.quantity * CloseMark(p) else p.notional)
                  && if p.quantity == 0.0 && p.notional == 0.0 then
                       d.action.Hold? && d.reason == NothingToClose && d.side.None? && d.quantity == 0.0
                     else
                       && d.action.Exit? && d.reason == ManualClose && d.reduceOnly
                       && d.side == Some(if d.current < 0.0 then Buy else Sell)
                       && if p.quantity != 0.0 then d.quantity == Abs(p.quantity)
                          else d.quantity * CloseMark(p) == Abs(p.notional))
  {
    hide LimitPrice;
    if p.mark > 0.0 && p.quantity != 0.0 {
      MarkKeepsSign(p.quantity, p.mark);
    }
  }

  /** A limit price is off the mark, in the direction of the order, by exactly the slippage allowed. */
  lemma LimitIsSlippageAway(mark: real, side: Side, slippageBps: int)
    ensures Directed(side, LimitPrice(mark, side, slippageBps) - mark) * 10000.0 ==
            mark * (if slippageBps <= 0 then 0 else slippageBps) as real
  {
    if slippageBps > 0 {
      var rate := slippageBps as real / 10000.0;
      assert rate * 10000.0 == slippageBps as real;
      assert mark * (1.0 + rate) - mark == mark * rate && mark - mark * (1.0 - rate) == mark * rate;
      assert mark * rate * 10000.0 == mark * (rate * 10000.0);
    }
  }

  /** The limit of an order lies the allowed slippage away from its mark, in the order's direction. */
  predicate OffBySlippage(c: Config, side: Side, limit: real, mark: real) {
    Directed(side, limit - mark) * 10000.0 == mark * (if c.slippageBps <= 0 then 0 else c.slippageBps) as real
  }

  lemma RunCarriesTheLimit(c: Config, e: Exposure, p: Position)
    ensures var r := Calculate(c, e, p);
            r.Ok? && r.value.IsOrder() ==>
              && r.value.symbol == c.targetSymbol && r.value.current == p.notional && r.value.dryRun == c.dryRun
              && r.value.side.Some? && OffBySlippage(c, r.value.side.value, r.value.limitPrice, e.mark)
  {
    LimitIsSlippageAway(e.mark, Buy, c.slippageBps);
    LimitIsSlippageAway(e.mark, Sell, c.slippageBps);
    hide LimitPrice, Units, CappedTarget, Directed, Abs, ChooseLeg;
  }

  lemma CloseCarriesTheLimit(c: Config, p: Position)
    ensures var r := ClosePosition(c, p);
            r.Ok? && r.value.IsOrder() ==>
              && CloseMark(p) > 0.0
              && r.value.symbol == (if c.targetSymbol == "" then p.symbol else c.targetSymbol)
              && r.value.adjustment == -r.value.current && r.value.target == 0.0 && r.value.side.Some?
              && OffBySlippage(c, r.value.side.value, r.value.limitPrice, CloseMark(p))
  {
    LimitIsSlippageAway(CloseMark(p), Buy, c.slippageBps);
    LimitIsSlippageAway(CloseMark(p), Sell, c.slippageBps);
    hide LimitPrice, CloseMark, Units, Directed, Abs;
  }

  /** Every order of a run and every close is for the right symbol, from the notional it was decided on, with a limit
      exactly the allowed slippage away from the mark. */
  lemma OrdersCarryTheLimit(c: Config, e: Exposure, p: Position)
    ensures var r := Calculate(c, e, p);
            r.Ok? && r.value.IsOrder() ==>
              && r.value.symbol == c.targetSymbol && r.value.current == p.notional && r.value.dryRun == c.dryRun
              && r.value.side.Some? && OffBySlippage(c, r.value.side.value, r.value.limitPrice, e.mark)
    ensures var r := ClosePosition(c, p);
            r.Ok? && r.value.IsOrder() ==>
              && CloseMark(p) > 0.0
              && r.value.symbol == (if c.targetSymbol == "" then p.symbol else c.targetSymbol)
              && r.value.adjustment == -r.value.current && r.value.target == 0.0 && r.value.side.Some?
              && OffBySlippage(c, r.value.side.value, r.value.limitPrice, CloseMark(p))
  {
    hide Calculate, ClosePosition, OffBySlippage, CloseMark;
    RunCarriesTheLimit(c, e, p);
    CloseCarriesTheLimit(c, p);
  }

  lemma TargetWithinCap(c: Config, notional: real)
    requires c.maxNotional > 0.0
    ensures Abs(CappedTarget(c, notional)) <= c.maxNotional
  {
  }

  lemma CapIsKept(c: Config, e: Exposure, p: Position)
    requires c.maxNotional > 0.0
    requires Calculate(c, e, p).Ok? && Calculate(c, e, p).value.IsOrder()
    requires Abs(p.notional) <= c.maxNotional
    ensures Abs(p.notional + Calculate(c, e, p).value.adjustment) <= c.maxNotional
  {
    hide CappedTarget;
    OrderLandsOnZeroOrTarget(c, e, p);
    TargetWithinCap(c, e.notional);
  }

  // ---- Convergence ----------------------------------------------------------------------------------------------

  /** A position of `quantity` valued at `mark`. */
  function Valued(c: Config, quantity: real, mark: real): Position {
    Position(c.targetSymbol, quantity, quantity * mark, mark)
  }

  /** The quantity held after one run whose order, if any, fills completely at a fixed exposure. */
  function Settle(c: Config, e: Exposure, quantity: real): real {
    match Calculate(c, e, Valued(c, quantity, e.mark))
    case Err(_) => quantity
    case Ok(d) =>
      if d.IsOrder() && d.side.Some? then AfterFill(quantity, d.side.value, d.quantity, d.reduceOnly) else quantity
  }

  predicate Quiet(c: Config, e: Exposure, quantity: real) {
    var r := Calculate(c, e, Valued(c, quantity, e.mark));
    r.Err? || !r.value.IsOrder()
  }

  function Settled(c: Config, e: Exposure, quantity: real, runs: nat): real
    decreases runs
  {
    if runs == 0 then quantity else Settled(c, e, Settle(c, e, quantity), runs - 1)
  }

  lemma ValuedSign(c: Config, quantity: real, mark: real)
    requires mark > 0.0
    ensures SameSign(Valued(c, quantity, mark))
    ensures Units(quantity * mark, mark) == Abs(quantity)
  {
    MarkKeepsSign(quantity, mark);
    var value := quantity * mark;
    assert value / mark == quantity;
    assert (-value) / mark == -quantity;
  }

  lemma UnitsTimesMark(notional: real, mark: real)
    requires mark > 0.0
    ensures Units(notional, mark) * mark == Abs(notional)
    ensures notional != 0.0 ==> Units(notional, mark) > 0.0
    ensures Units(-notional, mark) == Units(notional, mark)
  {
    var units := Units(notional, mark);
    assert units * mark == Abs(notional);
  }

  /** A complete fill moves the notional by exactly the adjustment. */
  lemma FillMovesByAdjustment(c: Config, e: Exposure, quantity: real)
    requires Calculate(c, e, Valued(c, quantity, e.mark)).Ok?
    requires Calculate(c, e, Valued(c, quantity, e.mark)).value.IsOrder()
    ensures Settle(c, e, quantity) * e.mark ==
            quantity * e.mark + Calculate(c, e, Valued(c, quantity, e.mark)).value.adjustment
  {
    hide Calculate, Units, AfterFill, WantedNotional, OrderUnits, StaysOnSide, Abs, SideOf;
    var d := Calculate(c, e, Valued(c, quantity, e.mark)).value;
    OrderLandsOnZeroOrTarget(c, e, Valued(c, quantity, e.mark));
    OrderQuantityIsAdjustmentInUnits(c, e, quantity);
    UnitsTimesMark(d.adjustment, e.mark);
    assert Settle(c, e, quantity) == AfterFill(quantity, d.side.value, d.quantity, d.reduceOnly);
    FillScales(quantity, d, e.mark);
  }

  lemma OrderQuantityIsAdjustmentInUnits(c: Config, e: Exposure, quantity: real)
    requires Calculate(c, e, Valued(c, quantity, e.mark)).Ok?
    requires Calculate(c, e, Valued(c, quantity, e.mark)).value.IsOrder()
    ensures var d := Calculate(c, e, Valued(c, quantity, e.mark)).value;
            d.quantity == Units(d.adjustment, e.mark)
  {
    hide Sized, CappedTarget, Units;
    ValuedSign(c, quantity, e.mark);
    UnitsTimesMark(quantity * e.mark, e.mark);
    OrderLandsOnZeroOrTarget(c, e, Valued(c, quantity, e.mark));
  }

  lemma FillScales(quantity: real, d: Decision, mark: real)
    requires mark > 0.0 && d.quantity * mark == Abs(d.adjustment) && d.side == Some(SideOf(d.adjustment))
    requires d.reduceOnly ==> StaysOnSide(quantity * mark, quantity * mark + d.adjustment)
    requires d.reduceOnly ==> Abs(quantity * mark + d.adjustment) < Abs(quantity * mark)
    ensures AfterFill(quantity, d.side.value, d.quantity, d.reduceOnly) * mark == quantity * mark + d.adjustment
  {
    var after := quantity + Directed(d.side.value, d.quantity);
    assert after * mark == quantity * mark + d.adjustment;
    if d.reduceOnly && d.quantity > Closable(quantity, d.side.value) {
      MarkKeepsSign(quantity, mark);
      MarkKeepsSign(after, mark);
    }
  }

  lemma MarkKeepsSign(quantity: real, mark: real)
    requires mark > 0.0
    ensures Sign(quantity * mark) == Sign(quantity)
  {
    if quantity > 0.0 {
      assert quantity * mark > 0.0;
    } else if quantity < 0.0 {
      assert (-quantity) * mark > 0.0;
    }
  }

  /** With a fixed exposure and complete fills at most two orders are placed, and then none ever again. */
  lemma ConvergesInTwoOrders(c: Config, e: Exposure, quantity: real)
    ensures Quiet(c, e, Settle(c, e, Settle(c, e, quantity)))
  {
    var q1 := Settle(c, e, quantity);
    if !Quiet(c, e, quantity) {
      AfterOneOrder(c, e, quantity);
      if !Quiet(c, e, q1) {
        AfterOneOrder(c, e, q1);
        FirstOrderOfTwoIsAFlipClose(c, e, quantity);
      }
    }
  }

  lemma AfterOneOrder(c: Config, e: Exposure, quantity: real)
    requires !Quiet(c, e, quantity)
    ensures var n := Settle(c, e, quantity) * e.mark;
            n == 0.0 || (n == CappedTarget(c, e.notional) && Quiet(c, e, Settle(c, e, quantity)))
  {
    hide Settle, Sized, CappedTarget;
    FillMovesByAdjustment(c, e, quantity);
    OrderLandsOnZeroOrTarget(c, e, Valued(c, quantity, e.mark));
    if Settle(c, e, quantity) * e.mark != 0.0 {
      QuietAtTarget(c, e, Settle(c, e, quantity));
    }
  }

  lemma QuietAtTarget(c: Config, e: Exposure, quantity: real)
    requires Abs(e.notional) > c.exit
    requires quantity * e.mark != 0.0 && quantity * e.mark == CappedTarget(c, e.notional)
    ensures Quiet(c, e, quantity)
  {
    hide CappedTarget, Units, LimitPrice, WouldFlip, ShouldReduceOnly, SideOf, Abs;
    assert ChooseLeg(c, quantity * e.mark, quantity * e.mark, Rebalance) == NoLeg(MatchesTarget);
  }

  /** From zero only an opening order is possible, and it goes to a target that is not zero. */
  lemma OrderFromZeroOpens(c: Config, e: Exposure)
    requires !Quiet(c, e, 0.0)
    ensures Abs(e.notional) > c.exit && CappedTarget(c, e.notional) != 0.0
    ensures var d := Calculate(c, e, Valued(c, 0.0, e.mark)).value;
            d.action == Open && d.adjustment == CappedTarget(c, e.notional)
  {
    hide CappedTarget, LimitPrice, Units;
  }

  /** A second order follows only the close leg of a reversal, and then it opens the other side. */
  lemma FirstOrderOfTwoIsAFlipClose(c: Config, e: Exposure, quantity: real)
    requires !Quiet(c, e, quantity) && !Quiet(c, e, Settle(c, e, quantity))
    ensures var q1 := Settle(c, e, quantity);
            && Calculate(c, e, Valued(c, quantity, e.mark)).value.reason == PositionFlipClose
            && q1 == 0.0
            && Calculate(c, e, Valued(c, q1, e.mark)).value.action == Open
            && Settle(c, e, q1) * e.mark == CappedTarget(c, e.notional)
            && Quiet(c, e, Settle(c, e, q1))
  {
    hide Settle, Sized, CappedTarget;
    var q1 := Settle(c, e, quantity);
    AfterOneOrder(c, e, quantity);
    MarkKeepsSign(q1, e.mark);
    FillMovesByAdjustment(c, e, quantity);
    OrderLandsOnZeroOrTarget(c, e, Valued(c, quantity, e.mark));
    OrderFromZeroOpens(c, e);
    FillMovesByAdjustment(c, e, q1);
    AfterOneOrder(c, e, q1);
  }

  /** From the second run on the position never moves. */
  lemma {:induction false} StaysSettled(c: Config, e: Exposure, quantity: real, runs: nat)
    requires runs >= 2
    ensures Settled(c, e, quantity, runs) == Settle(c, e, Settle(c, e, quantity))
  {
    ConvergesInTwoOrders(c, e, quantity);
    var q2 := Settle(c, e, Settle(c, e, quantity));
    assert Settled(c, e, quantity, runs) == Settled(c, e, q2, runs - 2);
    QuietForever(c, e, q2, runs - 2);
  }

  lemma {:induction false} QuietForever(c: Config, e: Exposure, quantity: real, runs: nat)
    requires Quiet(c, e, quantity)
    ensures Settled(c, e, quantity, runs) == quantity
    decreases runs
  {
    if runs > 0 {
      QuietForever(c, e, quantity, runs - 1);
    }
  }
}
