/** The monitoring read model (internal/service/hedge_monitor_service.go), which recomputes what the calculator would do,
    and the exact extent to which the two agree. */
module Monitor {
  import opened Money
  import opened Calculator
  import opened Positions

  datatype SwitchStatus = SwitchOn | GlobalOff | SymbolOff

  datatype Health = Healthy | AccountUnavailable | Observing | ExecutionFailed

  datatype Required = Balanced | OpenRequired | RebalanceRequired | ExitRequired

  /** The single status shown for a configuration. */
  datatype Status = OfSwitch(switch: SwitchStatus) | OfHealth(health: Health) | OfAction(required: Required)

  datatype MonitorConfig = MonitorConfig(config: Config, globalEnabled: bool, accountUsable: bool)

  datatype Row = Row(
    target: real, actual: real, adjustment: real,
    switch: SwitchStatus, health: Health, required: Required, status: Status)

  /** The target as the monitor computes it. */
  function MonitorTarget(c: Config, notional: real): real {
    var target := (-notional) * c.ratio;
    var capped := if c.maxNotional > 0.0 && Abs(target) > c.maxNotional
                  then Sign(target) as real * c.maxNotional else target;
    if Abs(notional) <= c.exit then 0.0 else capped
  }

  function MonitorAction(c: Config, notional: real, actual: real, adjustment: real): Required {
    if Abs(notional) <= c.exit then
      if actual != 0.0 && Abs(actual) >= c.minOrder then ExitRequired else Balanced
    else if actual == 0.0 then
      if Abs(notional) >= c.firstTrigger && Abs(adjustment) >= c.minOrder then OpenRequired else Balanced
    else if Abs(adjustment) >= c.rebalance && Abs(adjustment) >= c.minOrder then RebalanceRequired
    else Balanced
  }

  function MergeStatus(switch: SwitchStatus, health: Health, required: Required): Status {
    if !switch.SwitchOn? then OfSwitch(switch)
    else if health.AccountUnavailable? || health.ExecutionFailed? then OfHealth(health)
    else if !required.Balanced? then OfAction(required)
    else if health.Observing? then OfHealth(health)
    else OfAction(required)
  }

  function MonitorRow(
    m: MonitorConfig, exposure: Option<ObservedExposure>, position: Option<Snapshot>, lastExecutionFailed: bool,
    now: int, exposureStale: int, positionStale: int): Row
  {
    var notional := if exposure.Some? then exposure.value.notional else 0.0;
    var target := if exposure.Some? then MonitorTarget(m.config, notional) else 0.0;
    var actual := if position.Some? then ReadNotional(position.value) else 0.0;
    var switch := if !m.globalEnabled then GlobalOff else if !m.config.enabled then SymbolOff else SwitchOn;
    var health :=
      if !m.accountUsable then AccountUnavailable
      else if lastExecutionFailed then ExecutionFailed
      else if exposure.None? || now - exposure.value.observedAt > exposureStale
              || position.None? || now - position.value.observedAt > positionStale then Observing
      else Healthy;
    var required := MonitorAction(m.config, notional, actual, target - actual);
    Row(target, actual, target - actual, switch, health, required, MergeStatus(switch, health, required))
  }

  /** What the monitor shows besides the decision, in its order of precedence: a switch that is off, an account that cannot be
      used, a failed execution, an order that is due, an exposure or a position that is missing or too old. */
  lemma ShownExactly(
    m: MonitorConfig, exposure: Option<ObservedExposure>, position: Option<Snapshot>, failed: bool, now: int,
    exposureStale: int, positionStale: int)
    ensures var row := MonitorRow(m, exposure, position, failed, now, exposureStale, positionStale);
            var stale := || exposure.None? || now - exposure.value.observedAt > exposureStale
                         || position.None? || now - position.value.observedAt > positionStale;
            && (row.switch.SwitchOn? <==> m.globalEnabled && m.config.enabled)
            && (row.switch.GlobalOff? <==> !m.globalEnabled)
            && (row.health.AccountUnavailable? <==> !m.accountUsable)
            && (row.health.ExecutionFailed? <==> m.accountUsable && failed)
            && (row.health.Observing? <==> m.accountUsable && !failed && stale)
            && (row.health.Healthy? <==> m.accountUsable && !failed && !stale)
            && row.adjustment == row.target - row.actual
            && (exposure.None? ==> row.target == 0.0) && (position.None? ==> row.actual == 0.0)
            && (row.status.OfSwitch? <==> !(m.globalEnabled && m.config.enabled))
            && (row.status == OfHealth(AccountUnavailable) <==> m.globalEnabled && m.config.enabled && !m.accountUsable)
            && (row.status == OfHealth(ExecutionFailed) <==>
                  m.globalEnabled && m.config.enabled && m.accountUsable && failed)
            && (row.status == OfHealth(Observing) <==>
                  m.globalEnabled && m.config.enabled && m.accountUsable && !failed && row.required.Balanced? && stale)
            && (row.status.OfSwitch? ==> row.status.switch == row.switch)
  {
    hide MonitorAction, MonitorTarget, ReadNotional;
  }

  /** The monitor's word for an order of the calculator. */
  function RequiredBy(d: Decision): Required {
    match d.action
    case Open => OpenRequired
    case Rebalance => RebalanceRequired
    case Exit => ExitRequired
    case Hold => Balanced
    case Skip => Balanced
  }

  predicate Calculable(c: Config, mark: real) {
    c.enabled && c.targetSymbol != "" && mark > 0.0 && c.ratio >= 0.0
  }

  /** The only situations in which the two decisions differ: there is nothing to adjust, no minimum order keeps such an
      adjustment out, and every other threshold is passed. */
  predicate ZeroAdjustmentPasses(c: Config, notional: real, current: real) {
    && WantedNotional(c, notional) == current
    && c.minOrder <= 0.0
    && Abs(notional) > c.exit
    && (if current == 0.0 then Abs(notional) >= c.firstTrigger else c.rebalance <= 0.0)
  }

  lemma CalculatedAction(c: Config, e: Exposure, p: Position)
    requires Calculable(c, e.mark)
    ensures Calculate(c, e, p).Ok?
    ensures RequiredBy(Calculate(c, e, p).value) ==
            (if WantedNotional(c, e.notional) == p.notional then Balanced
             else MonitorAction(c, e.notional, p.notional, WantedNotional(c, e.notional) - p.notional))
  {
    hide LimitPrice, Units, CappedTarget;
    if Abs(e.notional) <= c.exit {
      LegShape(c, p.notional, 0.0, Exit);
    } else if p.notional == 0.0 {
      LegShape(c, p.notional, CappedTarget(c, e.notional), Open);
    } else {
      LegShape(c, p.notional, CappedTarget(c, e.notional), Rebalance);
    }
  }

  lemma CalculatedTarget(c: Config, e: Exposure, p: Position)
    requires Calculable(c, e.mark)
    ensures Calculate(c, e, p).value.target == MonitorTarget(c, e.notional)
  {
    hide LimitPrice, Units;
    if Abs(e.notional) <= c.exit {
      LegShape(c, p.notional, 0.0, Exit);
    } else if p.notional == 0.0 {
      LegShape(c, p.notional, CappedTarget(c, e.notional), Open);
    } else {
      LegShape(c, p.notional, CappedTarget(c, e.notional), Rebalance);
    }
  }

  /** For every enabled configuration and every snapshot the monitor reads as stored: the targets are equal, and the
      monitor asks for the action the calculator takes unless a zero adjustment passes all thresholds, in which case it
      never does. */
  lemma MonitorAgreesWithCalculator(
    m: MonitorConfig, e: ObservedExposure, s: Option<Snapshot>, failed: bool,
    now: int, exposureStale: int, positionStale: int)
    requires Calculable(m.config, e.mark)
    requires s.Some? ==> ReadNotional(s.value) == s.value.notional
    ensures var r := Calculate(m.config, Exposure(e.notional, e.mark), ToPosition(m.config.targetSymbol, s));
            var row := MonitorRow(m, Some(e), s, failed, now, exposureStale, positionStale);
            && r.Ok?
            && row.target == r.value.target
            && (row.required == RequiredBy(r.value) <==>
                !ZeroAdjustmentPasses(m.config, e.notional, ToPosition(m.config.targetSymbol, s).notional))
  {
    hide Calculate, CappedTarget;
    var c, p := m.config, ToPosition(m.config.targetSymbol, s);
    CalculatedAction(c, Exposure(e.notional, e.mark), p);
    CalculatedTarget(c, Exposure(e.notional, e.mark), p);
    assert MonitorTarget(c, e.notional) == WantedNotional(c, e.notional) by { SameTarget(c, e.notional); }
  }

  /** For every enabled configuration and every snapshot at all, mixed legs included: the monitor asks for exactly what the
      calculator would do with the position as the monitor reads it, unless a zero adjustment passes all thresholds. So it
      differs from the run exactly where the reading changes the calculator's action. */
  lemma MonitorFollowsItsReading(
    m: MonitorConfig, e: ObservedExposure, s: Snapshot, failed: bool, now: int, exposureStale: int, positionStale: int)
    requires Calculable(m.config, e.mark)
    ensures var p := ToPosition(m.config.targetSymbol, Some(s));
            var r := Calculate(m.config, Exposure(e.notional, e.mark), p.(notional := ReadNotional(s)));
            var row := MonitorRow(m, Some(e), Some(s), failed, now, exposureStale, positionStale);
            && r.Ok? && row.target == r.value.target
            && (row.required == RequiredBy(r.value) <==>
                !ZeroAdjustmentPasses(m.config, e.notional, ReadNotional(s)))
  {
    hide Calculate, CappedTarget, ReadNotional;
    var c, p := m.config, ToPosition(m.config.targetSymbol, Some(s)).(notional := ReadNotional(s));
    CalculatedAction(c, Exposure(e.notional, e.mark), p);
    CalculatedTarget(c, Exposure(e.notional, e.mark), p);
    SameTarget(c, e.notional);
  }

  lemma SameTarget(c: Config, notional: real)
    ensures MonitorTarget(c, notional) == WantedNotional(c, notional)
  {
  }

  /** With a positive minimum order the agreement is complete. */
  lemma PositiveMinimumAlwaysAgrees(c: Config, notional: real, current: real)
    requires c.minOrder > 0.0
    ensures !ZeroAdjustmentPasses(c, notional, current)
  {
  }

  /** The status shown asks for an order exactly when execution is switched on, the account is usable, the last
      execution did not fail, and the calculator would place that order now. */
  lemma StatusPredictsTheRun(
    m: MonitorConfig, e: ObservedExposure, s: Option<Snapshot>, failed: bool,
    now: int, exposureStale: int, positionStale: int)
    requires m.config.targetSymbol != "" && e.mark > 0.0 && m.config.ratio >= 0.0 && m.config.minOrder > 0.0
    requires s.Some? ==> ReadNotional(s.value) == s.value.notional
    ensures var r := Calculate(m.config, Exposure(e.notional, e.mark), ToPosition(m.config.targetSymbol, s));
            var status := MonitorRow(m, Some(e), s, failed, now, exposureStale, positionStale).status;
            && r.Ok?
            && (status.OfAction? && !status.required.Balanced? <==>
                m.globalEnabled && m.accountUsable && !failed && r.value.IsOrder())
            && (status.OfAction? && !status.required.Balanced? ==> status.required == RequiredBy(r.value))
  {
    if m.config.enabled {
      hide Calculate;
      MonitorAgreesWithCalculator(m, e, s, failed, now, exposureStale, positionStale);
    }
  }

  /** A snapshot summed over a long and a short leg with different marks can carry a notional of the other sign; the
      monitor then sees a position the calculator does not. */
  lemma MixedLegsAreReadDifferently() returns (s: Snapshot, c: Config, e: Exposure)
    ensures s.quantity == 1.0 - 2.0 && s.notional == 100.0 - 80.0 && s.side == Net
    ensures Calculable(c, e.mark) && c.minOrder > 0.0
    ensures var actual := ReadNotional(s);
            MonitorAction(c, e.notional, actual, MonitorTarget(c, e.notional) - actual)
            != RequiredBy(Calculate(c, e, ToPosition("BTC", Some(s))).value)
  {
    s := Snapshot(Net, -1.0, 20.0, 0.0, 40.0, 0);
    c := Config("BTC", 1.0, 5.0, 10.0, 1.0, 0, 0.0, 1.0, true, false);
    e := Exposure(-20.0, 50.0);
    assert CappedTarget(c, e.notional) == 20.0;
    assert MonitorTarget(c, e.notional) == 20.0;
  }
}
