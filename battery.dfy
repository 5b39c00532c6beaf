/** The greedy dispatch rule of `SolarBatterySimulator`: how one reading moves energy
    between the panels, the battery, the house and the grid, the run of that rule over
    a series, and the battery-less baseline it is compared with. */
module Battery {
  import opened Series

  /** The constructor arguments of `SolarBatterySimulator`. */
  datatype SimulatorConfig = SimulatorConfig(
    batteryCapacity: real,       // kWh
    batteryEfficiency: real,     // applied once on the way in and once on the way out
    maxChargeRate: real,
    maxDischargeRate: real,
    gridBuyPricePeak: real,
    gridBuyPriceOffpeak: real,
    peakStartHour: int,
    peakEndHour: int,
    gridSellPrice: real,
    batteryCost: real,
    batteryLifeYears: int)

  /** The defaults of the constructor. */
  const DefaultConfig := SimulatorConfig(10.0, 0.95, 5.0, 5.0, 0.26, 0.09, 7, 21, 0.08, 8000.0, 10)

  // ---------------------------------------------------------------------------
  // Grid price

  /** `get_grid_buy_price`: the peak price inside `[peakStartHour, peakEndHour)`, the
      off-peak price otherwise. */
  function GridBuyPrice(cfg: SimulatorConfig, t: Timestamp): real
  {
    if cfg.peakStartHour <= Hour(t) < cfg.peakEndHour then cfg.gridBuyPricePeak else cfg.gridBuyPriceOffpeak
  }

  /** With distinct prices, a reading is billed at the peak price exactly when its hour
      lies in the window, and at the off-peak price exactly when it does not. */
  lemma PeakPriceIffInWindow(cfg: SimulatorConfig, t: Timestamp)
    requires cfg.gridBuyPricePeak != cfg.gridBuyPriceOffpeak
    ensures GridBuyPrice(cfg, t) == cfg.gridBuyPricePeak <==> cfg.peakStartHour <= Hour(t) < cfg.peakEndHour
    ensures GridBuyPrice(cfg, t) == cfg.gridBuyPriceOffpeak <==> !(cfg.peakStartHour <= Hour(t) < cfg.peakEndHour)
  {
  }

  /** The peak window does not wrap past midnight: a window whose start is not before
      its end is empty, so every reading is billed off-peak. */
  lemma PeakWindowDoesNotWrap(cfg: SimulatorConfig, t: Timestamp)
    requires cfg.peakStartHour >= cfg.peakEndHour
    ensures GridBuyPrice(cfg, t) == cfg.gridBuyPriceOffpeak
  {
  }

  /** Under the defaults the peak runs from 07:00 up to, not including, 21:00. */
  lemma DefaultPeakWindow()
    ensures GridBuyPrice(DefaultConfig, Timestamp(0, 7 * 3600 - 1)) == 0.09
    ensures GridBuyPrice(DefaultConfig, Timestamp(0, 7 * 3600)) == 0.26
    ensures GridBuyPrice(DefaultConfig, Timestamp(0, 21 * 3600 - 1)) == 0.26
    ensures GridBuyPrice(DefaultConfig, Timestamp(0, 21 * 3600)) == 0.09
  {
    assert Hour(Timestamp(0, 7 * 3600 - 1)) == 6;
    assert Hour(Timestamp(0, 21 * 3600 - 1)) == 20;
  }

  // ---------------------------------------------------------------------------
  // One step of dispatch

  /** The energy flows of one step and the battery level after it. */
  datatype Dispatch = Dispatch(charge: real, discharge: real, purchase: real, sale: real, level: real)

  /** The efficiency divides the headroom or the stored energy only on a step that
      moves energy; a zero efficiency there is a `ZeroDivisionError`. */
  predicate CanDispatch(cfg: SimulatorConfig, netPower: real)
  {
    netPower == 0.0 || cfg.batteryEfficiency != 0.0
  }

  /** The limits under which the battery behaves physically: a positive efficiency,
      non-negative rates and a level within the capacity. */
  predicate Physical(cfg: SimulatorConfig, level: real)
  {
    cfg.batteryEfficiency > 0.0 && cfg.maxChargeRate >= 0.0 && cfg.maxDischargeRate >= 0.0
    && 0.0 <= level <= cfg.batteryCapacity
  }

  /** The body of the `simulate` loop for one reading of net power: a surplus charges
      the battery as far as rate and headroom allow and sells the rest; a deficit
      discharges the battery as far as rate and stored energy allow and buys the rest. */
  function DispatchStep(cfg: SimulatorConfig, level: real, netPower: real): (d: Dispatch)
    requires CanDispatch(cfg, netPower)
    ensures d.purchase >= 0.0 && d.sale >= 0.0
    ensures d.charge - d.discharge + d.sale - d.purchase == netPower
    ensures netPower > 0.0 ==>
              && d.discharge == 0.0 && d.purchase == 0.0
              && d.charge <= netPower && d.charge <= cfg.maxChargeRate
              && d.charge <= (cfg.batteryCapacity - level) / cfg.batteryEfficiency
              && (d.charge == netPower || d.charge == cfg.maxChargeRate
                  || d.charge == (cfg.batteryCapacity - level) / cfg.batteryEfficiency)
    ensures netPower < 0.0 ==>
              && d.charge == 0.0 && d.sale == 0.0
              && d.discharge <= -netPower && d.discharge <= cfg.maxDischargeRate
              && d.discharge <= level * cfg.batteryEfficiency
              && (d.discharge == -netPower || d.discharge == cfg.maxDischargeRate
                  || d.discharge == level * cfg.batteryEfficiency)
    ensures netPower == 0.0 ==> d == Dispatch(0.0, 0.0, 0.0, 0.0, level)
  {
    if netPower > 0.0 then
      var charge := Min(Min(netPower, cfg.maxChargeRate), (cfg.batteryCapacity - level) / cfg.batteryEfficiency);
      var newLevel := Min(cfg.batteryCapacity, level + charge * cfg.batteryEfficiency);
      var remainingExcess := netPower - charge;
      Dispatch(charge, 0.0, 0.0, if remainingExcess > 0.0 then remainingExcess else 0.0, newLevel)
    else if netPower < 0.0 then
      var powerNeeded := -netPower;
      var discharge := Min(Min(powerNeeded, cfg.maxDischargeRate), level * cfg.batteryEfficiency);
      var newLevel := Max(0.0, level - discharge / cfg.batteryEfficiency);
      var remainingDeficit := powerNeeded - discharge;
      Dispatch(0.0, discharge, if remainingDeficit > 0.0 then remainingDeficit else 0.0, 0.0, newLevel)
    else
      Dispatch(0.0, 0.0, 0.0, 0.0, level)
  }

  /** `x <= y / e` and `x * e <= y` agree for a positive `e`. */
  lemma MulBelowDiv(x: real, y: real, e: real)
    requires e > 0.0 && x <= y / e
    ensures x * e <= y
  {
    assert (y / e) * e == y;
    assert x * e <= (y / e) * e;
  }

  /** `x <= y * e` and `x / e <= y` agree for a positive `e`. */
  lemma DivBelowMul(x: real, y: real, e: real)
    requires e > 0.0 && x <= y * e
    ensures x / e <= y
  {
    assert (y * e) / e == y;
    assert x / e <= (y * e) / e;
  }

  /** Within physical limits the clamps never bite: the flows are non-negative, the
      level stays within the capacity, and it moves by the charge times the efficiency
      minus the discharge divided by the efficiency. */
  lemma PhysicalStep(cfg: SimulatorConfig, level: real, netPower: real)
    requires Physical(cfg, level)
    ensures var d := DispatchStep(cfg, level, netPower);
            && d.charge >= 0.0 && d.discharge >= 0.0
            && 0.0 <= d.level <= cfg.batteryCapacity
            && d.level == level + d.charge * cfg.batteryEfficiency - d.discharge / cfg.batteryEfficiency
  {
    var e := cfg.batteryEfficiency;
    var d := DispatchStep(cfg, level, netPower);
    if netPower > 0.0 {
      assert (cfg.batteryCapacity - level) / e >= 0.0;
      MulBelowDiv(d.charge, cfg.batteryCapacity - level, e);
      assert d.charge * e >= 0.0;
    } else if netPower < 0.0 {
      assert level * e >= 0.0;
      DivBelowMul(d.discharge, level, e);
      assert d.discharge / e >= 0.0;
    }
  }

  /** The accounting of one step taken from level `before` to level `level`: the energy
      taken out is the efficiency times the drop in level plus the efficiency squared times
      the energy put in. */
  predicate Accounted(e: real, before: real, level: real, charge: real, discharge: real)
  {
    discharge == e * before - e * level + e * e * charge
  }

  /** Within physical limits every dispatch keeps the accounting, which is its level
      update multiplied through by the efficiency. */
  lemma DispatchAccounting(cfg: SimulatorConfig, level: real, netPower: real)
    requires Physical(cfg, level)
    ensures var d := DispatchStep(cfg, level, netPower);
            Accounted(cfg.batteryEfficiency, level, d.level, d.charge, d.discharge)
  {
    PhysicalStep(cfg, level, netPower);
    var d := DispatchStep(cfg, level, netPower);
    MultiplyThrough(cfg.batteryEfficiency, level, d.level, d.charge, d.discharge);
  }

  lemma MultiplyThrough(e: real, l0: real, l1: real, c: real, d: real)
    requires e > 0.0 && l1 == l0 + c * e - d / e
    ensures Accounted(e, l0, l1, c, d)
  {
    assert (d / e) * e == d;
  }

  /** A step that neither draws nor delivers power leaves everything as it was and
      costs nothing. */
  lemma IdleStep(cfg: SimulatorConfig, level: real, price: real)
    ensures var d := DispatchStep(cfg, level, 0.0);
            && d.level == level && d.charge == 0.0 && d.discharge == 0.0
            && d.purchase * price - d.sale * cfg.gridSellPrice == 0.0
  {
  }

  // ---------------------------------------------------------------------------
  // The series with and without the battery

  function NetPower(r: Reading): real { r.pvPower - r.consumedPower }

  /** One row of `results_df`. */
  datatype BatteryStep = BatteryStep(
    timestamp: Timestamp,
    pvPower: real,
    consumedPower: real,
    netPower: real,
    batteryLevel: real,
    batterySoc: real,
    batteryCharge: real,
    batteryDischarge: real,
    gridPurchase: real,
    gridSale: real,
    gridBuyPrice: real,
    cost: real)

  function Level(s: BatteryStep): real { s.batteryLevel }
  function Charge(s: BatteryStep): real { s.batteryCharge }
  function Discharge(s: BatteryStep): real { s.batteryDischarge }
  function Purchase(s: BatteryStep): real { s.gridPurchase }
  function Sale(s: BatteryStep): real { s.gridSale }
  function Net(s: BatteryStep): real { s.netPower }
  function Cost(s: BatteryStep): real { s.cost }
  function BuyPrice(s: BatteryStep): real { s.gridBuyPrice }
  /** Energy put into the battery net of energy taken out, both at the terminals. */
  function Stored(s: BatteryStep): real { s.batteryCharge - s.batteryDischarge }
  /** The grid energy a discharge displaced, valued at the price it would have cost. */
  function DischargeValue(s: BatteryStep): real { s.batteryDischarge * s.gridBuyPrice }

  /** A whole series can be replayed: every step that moves energy has a non-zero
      efficiency to divide by, and a non-empty series has a non-zero capacity for the
      state of charge. */
  predicate CanSimulate(cfg: SimulatorConfig, rows: seq<Reading>)
  {
    && (forall i :: 0 <= i < |rows| ==> CanDispatch(cfg, NetPower(rows[i])))
    && (|rows| == 0 || cfg.batteryCapacity != 0.0)
  }

  /** One iteration of `simulate`: dispatch, price and cost of the reading. */
  function StepRow(cfg: SimulatorConfig, r: Reading, level: real): (s: BatteryStep)
    requires CanDispatch(cfg, NetPower(r)) && cfg.batteryCapacity != 0.0
    ensures s.batterySoc * cfg.batteryCapacity == s.batteryLevel
    ensures s.cost == s.gridPurchase * s.gridBuyPrice - s.gridSale * cfg.gridSellPrice
  {
    var netPower := NetPower(r);
    var d := DispatchStep(cfg, level, netPower);
    var price := GridBuyPrice(cfg, r.timestamp);
    BatteryStep(r.timestamp, r.pvPower, r.consumedPower, netPower, d.level, d.level / cfg.batteryCapacity,
                d.charge, d.discharge, d.purchase, d.sale, price, d.purchase * price - d.sale * cfg.gridSellPrice)
  }

  /** The accounting of one row of `results_df` taken from level `before`. */
  predicate RowAccounted(e: real, before: real, s: BatteryStep)
  {
    Accounted(e, before, s.batteryLevel, s.batteryCharge, s.batteryDischarge)
  }

  /** Within physical limits every row of `results_df` keeps the accounting. */
  lemma StepAccounting(cfg: SimulatorConfig, r: Reading, level: real)
    requires Physical(cfg, level) && cfg.batteryCapacity != 0.0
    ensures RowAccounted(cfg.batteryEfficiency, level, StepRow(cfg, r, level))
  {
    DispatchAccounting(cfg, level, NetPower(r));
  }

  /** The rows `simulate` produces and the level it ends with. */
  datatype Run = Run(steps: seq<BatteryStep>, level: real)

  /** `simulate` from a given starting level: the level each row leaves behind is the
      level the next row starts from. */
  function SimulateRun(cfg: SimulatorConfig, rows: seq<Reading>, initialLevel: real): (r: Run)
    requires CanSimulate(cfg, rows)
    ensures |r.steps| == |rows|
    decreases |rows|
  {
    if |rows| == 0 then Run([], initialLevel)
    else
      var prev := SimulateRun(cfg, rows[..|rows| - 1], initialLevel);
      var step := StepRow(cfg, rows[|rows| - 1], prev.level);
      Run(prev.steps + [step], step.batteryLevel)
  }

  /** Level invariant: starting within physical limits, every row has non-negative
      flows and a level within the capacity, and so does the end of the run. */
  lemma {:induction false} LevelWithinCapacity(cfg: SimulatorConfig, rows: seq<Reading>, initialLevel: real)
    requires CanSimulate(cfg, rows) && Physical(cfg, initialLevel)
    ensures var r := SimulateRun(cfg, rows, initialLevel);
            && 0.0 <= r.level <= cfg.batteryCapacity
            && forall i :: 0 <= i < |rows| ==>
                 && 0.0 <= r.steps[i].batteryLevel <= cfg.batteryCapacity
                 && r.steps[i].batteryCharge >= 0.0 && r.steps[i].batteryDischarge >= 0.0
                 && r.steps[i].gridPurchase >= 0.0 && r.steps[i].gridSale >= 0.0
  {
    if |rows| > 0 {
      var prefix := rows[..|rows| - 1];
      LevelWithinCapacity(cfg, prefix, initialLevel);
      var prev := SimulateRun(cfg, prefix, initialLevel);
      PhysicalStep(cfg, prev.level, NetPower(rows[|rows| - 1]));
    }
  }

  /** The level after a sequence of rows that started at `start`. */
  function EndLevel(steps: seq<BatteryStep>, start: real): real
  {
    if |steps| == 0 then start else steps[|steps| - 1].batteryLevel
  }

  /** Every row keeps the accounting from the level the row before it left. */
  predicate Chained(steps: seq<BatteryStep>, start: real, e: real)
  {
    |steps| == 0 || (RowAccounted(e, start, steps[0]) && Chained(steps[1..], steps[0].batteryLevel, e))
  }

  /** A chain extended by a row that keeps the accounting from its end is a chain. */
  lemma {:induction false} ChainedAppend(steps: seq<BatteryStep>, start: real, e: real, before: real, s: BatteryStep)
    requires Chained(steps, start, e) && before == EndLevel(steps, start) && RowAccounted(e, before, s)
    ensures Chained(steps + [s], start, e)
  {
    if |steps| > 0 {
      assert (steps + [s])[1..] == steps[1..] + [s];
      ChainedAppend(steps[1..], steps[0].batteryLevel, e, before, s);
    }
  }

  /** A physical run is a chain that ends at the level `simulate` ends with. */
  lemma {:induction false} RunIsChained(cfg: SimulatorConfig, rows: seq<Reading>, initialLevel: real)
    requires CanSimulate(cfg, rows) && Physical(cfg, initialLevel)
    ensures var r := SimulateRun(cfg, rows, initialLevel);
            Chained(r.steps, initialLevel, cfg.batteryEfficiency) && EndLevel(r.steps, initialLevel) == r.level
  {
    if |rows| > 0 {
      var prefix := rows[..|rows| - 1];
      var prev := SimulateRun(cfg, prefix, initialLevel);
      var step := StepRow(cfg, rows[|rows| - 1], prev.level);
      RunIsChained(cfg, prefix, initialLevel);
      LevelWithinCapacity(cfg, prefix, initialLevel);
      StepAccounting(cfg, rows[|rows| - 1], prev.level);
      ChainedAppend(prev.steps, initialLevel, cfg.batteryEfficiency, prev.level, step);
    }
  }

  /** The accounting of a whole series of rows from level `start` to level `final`: the
      total taken out is the efficiency times the overall drop in level plus the efficiency
      squared times the total put in. */
  predicate TotalsAccounted(steps: seq<BatteryStep>, e: real, start: real, final: real)
  {
    Sum(steps, Discharge) == e * (start - final) + e * e * Sum(steps, Charge)
  }

  /** Summing the accounting along a chain. */
  lemma {:induction false} ChainedTotals(steps: seq<BatteryStep>, start: real, e: real, final: real)
    requires Chained(steps, start, e) && final == EndLevel(steps, start)
    ensures TotalsAccounted(steps, e, start, final)
  {
    if |steps| > 0 {
      ChainedTotals(steps[1..], steps[0].batteryLevel, e, final);
      AccountingStep(e, start, steps[0], final, Sum(steps[1..], Discharge), Sum(steps[1..], Charge),
                     Sum(steps, Discharge), Sum(steps, Charge));
    } else {
      NoAccounting(e, start, final, Sum(steps, Discharge), Sum(steps, Charge));
    }
  }

  /** The totals of an empty chain. */
  lemma NoAccounting(e: real, start: real, final: real, d: real, c: real)
    requires start == final && d == 0.0 && c == 0.0
    ensures d == e * (start - final) + e * e * c
  {
  }

  /** Adding one row in front of a chain's totals. */
  lemma AccountingStep(e: real, before: real, s: BatteryStep, final: real, dRest: real, cRest: real,
                       dAll: real, cAll: real)
    requires RowAccounted(e, before, s)
    requires dRest == e * (s.batteryLevel - final) + e * e * cRest
    requires dAll == Discharge(s) + dRest && cAll == Charge(s) + cRest
    ensures dAll == e * (before - final) + e * e * cAll
  {
  }

  /** Energy accounting of `simulate`: the energy delivered by the battery equals the
      efficiency times the drop in level plus the efficiency squared times the energy
      put in. */
  lemma EnergyAccounting(cfg: SimulatorConfig, rows: seq<Reading>, initialLevel: real)
    requires CanSimulate(cfg, rows) && Physical(cfg, initialLevel)
    ensures var r := SimulateRun(cfg, rows, initialLevel);
            TotalsAccounted(r.steps, cfg.batteryEfficiency, initialLevel, r.level)
  {
    var r := SimulateRun(cfg, rows, initialLevel);
    RunIsChained(cfg, rows, initialLevel);
    ChainedTotals(r.steps, initialLevel, cfg.batteryEfficiency, r.level);
  }

  /** Over the rows, the battery delivered the efficiency squared times what it took in. */
  predicate SquaredEfficiencyRoundTrip(steps: seq<BatteryStep>, e: real)
  {
    Sum(steps, Discharge) == e * e * Sum(steps, Charge)
  }

  /** Round trip over a closed cycle: when the run ends at the level it started from,
      the battery has delivered the efficiency squared times what it took in, not the
      efficiency times it. */
  lemma ClosedCycleRoundTrip(cfg: SimulatorConfig, rows: seq<Reading>, initialLevel: real)
    requires CanSimulate(cfg, rows) && Physical(cfg, initialLevel)
    requires SimulateRun(cfg, rows, initialLevel).level == initialLevel
    ensures SquaredEfficiencyRoundTrip(SimulateRun(cfg, rows, initialLevel).steps, cfg.batteryEfficiency)
  {
    var r := SimulateRun(cfg, rows, initialLevel);
    EnergyAccounting(cfg, rows, initialLevel);
    ClosedTotals(r.steps, cfg.batteryEfficiency, initialLevel, r.level);
  }

  /** Totals that start and end at the same level. */
  lemma ClosedTotals(steps: seq<BatteryStep>, e: real, start: real, final: real)
    requires TotalsAccounted(steps, e, start, final) && final == start
    ensures SquaredEfficiencyRoundTrip(steps, e)
  {
  }

  /** Grid balance of the run: energy sold minus energy bought is the net generation
      minus what the battery kept. */
  lemma GridBalance(cfg: SimulatorConfig, rows: seq<Reading>, initialLevel: real)
    requires CanSimulate(cfg, rows)
    ensures var r := SimulateRun(cfg, rows, initialLevel);
            Sum(r.steps, Sale) - Sum(r.steps, Purchase) == Sum(r.steps, Net) - Sum(r.steps, Stored)
  {
    var r := SimulateRun(cfg, rows, initialLevel);
    forall i | 0 <= i < |r.steps|
      ensures Sale(r.steps[i]) - Purchase(r.steps[i]) == Net(r.steps[i]) - Stored(r.steps[i])
    {
      StepsAreDispatches(cfg, rows, initialLevel, i);
    }
    SumBalance(r.steps, Sale, Purchase, Net, Stored);
  }

  /** Each row of the run is the step of its own reading, taken from the level the
      previous row left. */
  lemma {:induction false} StepsAreDispatches(cfg: SimulatorConfig, rows: seq<Reading>, initialLevel: real, i: int)
    requires CanSimulate(cfg, rows) && 0 <= i < |rows|
    ensures var r := SimulateRun(cfg, rows, initialLevel);
            var before := if i == 0 then initialLevel else r.steps[i - 1].batteryLevel;
            r.steps[i] == StepRow(cfg, rows[i], before)
  {
    if i < |rows| - 1 {
      var prefix := rows[..|rows| - 1];
      StepsAreDispatches(cfg, prefix, initialLevel, i);
    } else if i > 0 {
      var prefix := rows[..|rows| - 1];
      LastStepLevel(cfg, prefix, initialLevel);
    }
  }

  /** The level a non-empty run ends with is the level of its last row. */
  lemma LastStepLevel(cfg: SimulatorConfig, rows: seq<Reading>, initialLevel: real)
    requires CanSimulate(cfg, rows) && |rows| > 0
    ensures var r := SimulateRun(cfg, rows, initialLevel);
            r.level == r.steps[|rows| - 1].batteryLevel
  {
  }

  /** One row of `results_no_battery_df`. */
  datatype BaselineStep = BaselineStep(
    timestamp: Timestamp,
    pvPower: real,
    consumedPower: real,
    netPower: real,
    gridPurchase: real,
    gridSale: real,
    gridBuyPrice: real,
    cost: real)

  function BaselinePurchase(s: BaselineStep): real { s.gridPurchase }
  function BaselineCost(s: BaselineStep): real { s.cost }
  function BaselineBuyPrice(s: BaselineStep): real { s.gridBuyPrice }

  /** One iteration of `simulate_without_battery`: every deficit is bought and every
      surplus sold. */
  function BaselineRow(cfg: SimulatorConfig, r: Reading): (s: BaselineStep)
    ensures s.gridPurchase >= 0.0 && s.gridSale >= 0.0
    ensures s.gridPurchase == 0.0 || s.gridSale == 0.0
    ensures s.gridSale - s.gridPurchase == NetPower(r)
    ensures s.cost == s.gridPurchase * s.gridBuyPrice - s.gridSale * cfg.gridSellPrice
  {
    var netPower := NetPower(r);
    var purchase := Max(0.0, -netPower);
    var sale := Max(0.0, netPower);
    var price := GridBuyPrice(cfg, r.timestamp);
    BaselineStep(r.timestamp, r.pvPower, r.consumedPower, netPower, purchase, sale, price,
                 purchase * price - sale * cfg.gridSellPrice)
  }

  /** `simulate_without_battery` over a series. */
  function BaselineRun(cfg: SimulatorConfig, rows: seq<Reading>): (s: seq<BaselineStep>)
    ensures |s| == |rows|
  {
    if |rows| == 0 then [] else BaselineRun(cfg, rows[..|rows| - 1]) + [BaselineRow(cfg, rows[|rows| - 1])]
  }

  /** Each row of the baseline is the baseline step of its own reading. */
  lemma {:induction false} BaselinePointwise(cfg: SimulatorConfig, rows: seq<Reading>, i: int)
    requires 0 <= i < |rows|
    ensures BaselineRun(cfg, rows)[i] == BaselineRow(cfg, rows[i])
  {
    if i < |rows| - 1 {
      BaselinePointwise(cfg, rows[..|rows| - 1], i);
    }
  }

  /** Within physical limits a battery row never buys more than the baseline row of the
      same reading: a deficit is first met from the battery. */
  lemma StepBuysNoMore(cfg: SimulatorConfig, r: Reading, level: real)
    requires Physical(cfg, level) && cfg.batteryCapacity != 0.0
    ensures StepRow(cfg, r, level).gridPurchase <= BaselineRow(cfg, r).gridPurchase
  {
    PhysicalStep(cfg, level, NetPower(r));
  }

  /** Over a physical run the battery buys no more energy from the grid than the baseline. */
  lemma RunBuysNoMore(cfg: SimulatorConfig, rows: seq<Reading>, initialLevel: real)
    requires CanSimulate(cfg, rows) && Physical(cfg, initialLevel)
    ensures Sum(SimulateRun(cfg, rows, initialLevel).steps, Purchase) <= Sum(BaselineRun(cfg, rows), BaselinePurchase)
  {
    var r := SimulateRun(cfg, rows, initialLevel);
    var base := BaselineRun(cfg, rows);
    LevelWithinCapacity(cfg, rows, initialLevel);
    forall i | 0 <= i < |rows|
      ensures Purchase(r.steps[i]) <= BaselinePurchase(base[i])
    {
      StepsAreDispatches(cfg, rows, initialLevel, i);
      BaselinePointwise(cfg, rows, i);
      var before := if i == 0 then initialLevel else r.steps[i - 1].batteryLevel;
      StepBuysNoMore(cfg, rows[i], before);
    }
    SumMonotone(r.steps, base, Purchase, BaselinePurchase);
  }

  /** The baseline is the battery rule with an empty battery of no capacity: it never
      charges or discharges, so it trades exactly what the baseline trades. */
  lemma BaselineIsZeroCapacity(cfg: SimulatorConfig, r: Reading)
    requires cfg.batteryEfficiency > 0.0 && cfg.maxChargeRate >= 0.0 && cfg.maxDischargeRate >= 0.0
    ensures var d := DispatchStep(cfg.(batteryCapacity := 0.0), 0.0, NetPower(r));
            var b := BaselineRow(cfg, r);
            d.charge == 0.0 && d.discharge == 0.0 && d.level == 0.0
            && d.purchase == b.gridPurchase && d.sale == b.gridSale
  {
  }

  /** The baseline row costs more than the battery row by the value of the discharge at
      the buy price, less the feed-in revenue given up on the charge. */
  predicate StepSaved(b: BaselineStep, s: BatteryStep, sellPrice: real)
  {
    b.cost - s.cost == s.batteryDischarge * s.gridBuyPrice - s.batteryCharge * sellPrice
  }

  /** Per reading, the saving of the battery decomposes as `StepSaved` says. */
  lemma StepSaving(cfg: SimulatorConfig, r: Reading, level: real)
    requires CanDispatch(cfg, NetPower(r)) && cfg.batteryCapacity != 0.0
    ensures StepSaved(BaselineRow(cfg, r), StepRow(cfg, r, level), cfg.gridSellPrice)
  {
  }

  /** Over whole series, the baseline costs more than the battery run by what the
      discharged energy would have cost from the grid, less the feed-in revenue given up
      to charge. */
  predicate SavingsSplit(base: seq<BaselineStep>, steps: seq<BatteryStep>, sellPrice: real)
  {
    Sum(base, BaselineCost) - Sum(steps, Cost) == Sum(steps, DischargeValue) - sellPrice * Sum(steps, Charge)
  }

  /** Extending both series by one pair of rows that keeps `StepSaved`. */
  lemma SavingsSplitAppend(base: seq<BaselineStep>, steps: seq<BatteryStep>, b: BaselineStep, s: BatteryStep,
                           sellPrice: real)
    requires SavingsSplit(base, steps, sellPrice) && StepSaved(b, s, sellPrice)
    ensures SavingsSplit(base + [b], steps + [s], sellPrice)
  {
    SumAppend(base, [b], BaselineCost);
    SumAppend(steps, [s], Cost);
    SumAppend(steps, [s], DischargeValue);
    SumAppend(steps, [s], Charge);
    SumSingleton(b, BaselineCost);
    SumSingleton(s, Cost);
    SumSingleton(s, DischargeValue);
    SumSingleton(s, Charge);
    SavingsArithmetic(Sum(base, BaselineCost), Sum(steps, Cost), Sum(steps, DischargeValue), Sum(steps, Charge),
                      b.cost, s.cost, DischargeValue(s), s.batteryCharge, sellPrice,
                      Sum(base + [b], BaselineCost), Sum(steps + [s], Cost), Sum(steps + [s], DischargeValue),
                      Sum(steps + [s], Charge));
  }

  lemma SavingsArithmetic(base: real, cost: real, value: real, charge: real,
                          b: real, c: real, v: real, ch: real, sellPrice: real,
                          base2: real, cost2: real, value2: real, charge2: real)
    requires base - cost == value - sellPrice * charge
    requires b - c == v - ch * sellPrice
    requires base2 == base + b && cost2 == cost + c && value2 == value + v && charge2 == charge + ch
    ensures base2 - cost2 == value2 - sellPrice * charge2
  {
  }

  /** Savings decomposition of the whole run: `daily_savings` is what the discharged
      energy would have cost from the grid minus the feed-in revenue given up to charge. */
  lemma {:induction false} SavingsDecomposition(cfg: SimulatorConfig, rows: seq<Reading>, initialLevel: real)
    requires CanSimulate(cfg, rows)
    ensures SavingsSplit(BaselineRun(cfg, rows), SimulateRun(cfg, rows, initialLevel).steps, cfg.gridSellPrice)
  {
    if |rows| > 0 {
      var prefix := rows[..|rows| - 1];
      var last := rows[|rows| - 1];
      SavingsDecomposition(cfg, prefix, initialLevel);
      var prev := SimulateRun(cfg, prefix, initialLevel);
      StepSaving(cfg, last, prev.level);
      SavingsSplitAppend(BaselineRun(cfg, prefix), prev.steps, BaselineRow(cfg, last), StepRow(cfg, last, prev.level),
                         cfg.gridSellPrice);
    }
  }
}
