/** `SolarBatterySimulator`: the two simulation loops over the loaded series and the
    economics derived from their results. */
module Solar {
  import opened Wrappers
  import opened Series
  import opened Battery

  /** Days per year in the annual projection. */
  const DaysPerYear := 365.0

  /** `calculate_economics` before both simulations have stored their results raises;
      so does reading the `cost` column of a stored table that has no rows, as a frame
      built from an empty list of rows has no columns. */
  datatype SimulationError = RunSimulationsFirst | EmptyResults

  /** The dictionary `calculate_economics` returns; an infinite payback period is `None`. */
  datatype Economics = Economics(
    dailyCostWithBattery: real,
    dailyCostWithoutBattery: real,
    dailySavings: real,
    annualSavings: real,
    batteryCost: real,
    paybackPeriodYears: Option<real>,
    totalEnergyCharged: real,
    totalEnergyDischarged: real,
    actualRoundTripEfficiency: real,
    batteryUtilizationCycles: real,
    peakPurchasesWithBattery: real,
    offpeakPurchasesWithBattery: real,
    peakPurchasesWithoutBattery: real,
    offpeakPurchasesWithoutBattery: real,
    peakPurchaseReduction: real,
    offpeakPurchaseIncrease: real)

  // ---------------------------------------------------------------------------
  // Purchases filtered by the price they were billed at

  /** `df[df['grid_buy_price'] == price]['grid_purchase'].sum()`, for either results
      table given its price and purchase columns. */
  function PurchasesAt<T>(steps: seq<T>, priceOf: T -> real, purchaseOf: T -> real, price: real): real
  {
    if |steps| == 0 then 0.0
    else (if priceOf(steps[0]) == price then purchaseOf(steps[0]) else 0.0) + PurchasesAt(steps[1..], priceOf, purchaseOf, price)
  }

  /** Every row was billed at one of two distinct prices. */
  predicate TwoTier<T>(steps: seq<T>, priceOf: T -> real, peak: real, offpeak: real)
  {
    peak != offpeak && forall i :: 0 <= i < |steps| ==> priceOf(steps[i]) == peak || priceOf(steps[i]) == offpeak
  }

  /** With two distinct tiers the peak and off-peak filters split the purchases: every
      purchase is counted in exactly one of them. */
  lemma {:induction false} PurchasesSplit<T>(steps: seq<T>, priceOf: T -> real, purchaseOf: T -> real, peak: real, offpeak: real)
    requires TwoTier(steps, priceOf, peak, offpeak)
    ensures PurchasesAt(steps, priceOf, purchaseOf, peak) + PurchasesAt(steps, priceOf, purchaseOf, offpeak) == Sum(steps, purchaseOf)
  {
    if |steps| > 0 {
      assert TwoTier(steps[1..], priceOf, peak, offpeak) by {
        forall i | 0 <= i < |steps[1..]|
          ensures priceOf(steps[1..][i]) == peak || priceOf(steps[1..][i]) == offpeak
        {
          assert steps[1..][i] == steps[i + 1];
        }
      }
      PurchasesSplit(steps[1..], priceOf, purchaseOf, peak, offpeak);
    }
  }

  // ---------------------------------------------------------------------------
  // Economics

  /** `calculate_economics` on the two stored result tables. */
  function EconomicsOf(cfg: SimulatorConfig, withBattery: seq<BatteryStep>, withoutBattery: seq<BaselineStep>): (e: Economics)
    ensures e.dailyCostWithBattery == Sum(withBattery, Cost) && e.dailyCostWithoutBattery == Sum(withoutBattery, BaselineCost)
    ensures e.dailySavings == e.dailyCostWithoutBattery - e.dailyCostWithBattery
    ensures e.annualSavings == e.dailySavings * DaysPerYear && e.batteryCost == cfg.batteryCost
    ensures e.totalEnergyCharged == Sum(withBattery, Charge) && e.totalEnergyDischarged == Sum(withBattery, Discharge)
    ensures && e.peakPurchasesWithBattery == PurchasesAt(withBattery, BuyPrice, Purchase, cfg.gridBuyPricePeak)
            && e.offpeakPurchasesWithBattery == PurchasesAt(withBattery, BuyPrice, Purchase, cfg.gridBuyPriceOffpeak)
            && e.peakPurchasesWithoutBattery == PurchasesAt(withoutBattery, BaselineBuyPrice, BaselinePurchase, cfg.gridBuyPricePeak)
            && e.offpeakPurchasesWithoutBattery == PurchasesAt(withoutBattery, BaselineBuyPrice, BaselinePurchase, cfg.gridBuyPriceOffpeak)
    ensures e.peakPurchaseReduction == e.peakPurchasesWithoutBattery - e.peakPurchasesWithBattery
    ensures e.offpeakPurchaseIncrease == e.offpeakPurchasesWithBattery - e.offpeakPurchasesWithoutBattery
    ensures e.paybackPeriodYears.Some? <==> e.annualSavings > 0.0
    ensures e.paybackPeriodYears.Some? ==> e.paybackPeriodYears.value * e.annualSavings == cfg.batteryCost
    ensures e.totalEnergyCharged > 0.0 ==> e.actualRoundTripEfficiency * e.totalEnergyCharged == e.totalEnergyDischarged
    ensures e.totalEnergyCharged <= 0.0 ==> e.actualRoundTripEfficiency == 0.0
    ensures cfg.batteryCapacity > 0.0 ==> e.batteryUtilizationCycles * cfg.batteryCapacity == e.totalEnergyDischarged
    ensures cfg.batteryCapacity <= 0.0 ==> e.batteryUtilizationCycles == 0.0
  {
    var withCost := Sum(withBattery, Cost);
    var withoutCost := Sum(withoutBattery, BaselineCost);
    var dailySavings := withoutCost - withCost;
    var annualSavings := dailySavings * DaysPerYear;
    var payback := if annualSavings > 0.0 then Some(cfg.batteryCost / annualSavings) else None;
    var charged := Sum(withBattery, Charge);
    var discharged := Sum(withBattery, Discharge);
    var roundTrip := if charged > 0.0 then discharged / charged else 0.0;
    var peakWith := PurchasesAt(withBattery, BuyPrice, Purchase, cfg.gridBuyPricePeak);
    var offpeakWith := PurchasesAt(withBattery, BuyPrice, Purchase, cfg.gridBuyPriceOffpeak);
    var peakWithout := PurchasesAt(withoutBattery, BaselineBuyPrice, BaselinePurchase, cfg.gridBuyPricePeak);
    var offpeakWithout := PurchasesAt(withoutBattery, BaselineBuyPrice, BaselinePurchase, cfg.gridBuyPriceOffpeak);
    Economics(withCost, withoutCost, dailySavings, annualSavings, cfg.batteryCost, payback, charged, discharged,
              roundTrip, if cfg.batteryCapacity > 0.0 then discharged / cfg.batteryCapacity else 0.0,
              peakWith, offpeakWith, peakWithout, offpeakWithout, peakWithout - peakWith, offpeakWith - offpeakWithout)
  }

  /** `daily_savings` is what the discharged energy would have cost from the grid, less
      the feed-in revenue given up on the energy charged. */
  predicate SavingsExplained(e: Economics, steps: seq<BatteryStep>, sellPrice: real)
  {
    e.dailySavings == Sum(steps, DischargeValue) - sellPrice * e.totalEnergyCharged
  }

  /** The economics of a simulated run and the baseline of the same series: the savings
      come only from discharging at the buy price and from giving up feed-in on charging. */
  lemma EconomicsExplainSavings(cfg: SimulatorConfig, rows: seq<Reading>, initialLevel: real)
    requires CanSimulate(cfg, rows)
    ensures var steps := SimulateRun(cfg, rows, initialLevel).steps;
            SavingsExplained(EconomicsOf(cfg, steps, BaselineRun(cfg, rows)), steps, cfg.gridSellPrice)
  {
    var steps := SimulateRun(cfg, rows, initialLevel).steps;
    SavingsDecomposition(cfg, rows, initialLevel);
    SplitExplained(cfg, steps, BaselineRun(cfg, rows));
  }

  lemma SplitExplained(cfg: SimulatorConfig, steps: seq<BatteryStep>, base: seq<BaselineStep>)
    requires SavingsSplit(base, steps, cfg.gridSellPrice)
    ensures SavingsExplained(EconomicsOf(cfg, steps, base), steps, cfg.gridSellPrice)
  {
  }

  /** Over a closed cycle that charged anything, the measured round-trip ratio is the
      efficiency squared. */
  lemma ClosedCycleRatio(cfg: SimulatorConfig, rows: seq<Reading>, initialLevel: real)
    requires CanSimulate(cfg, rows) && Physical(cfg, initialLevel)
    requires SimulateRun(cfg, rows, initialLevel).level == initialLevel
    requires Sum(SimulateRun(cfg, rows, initialLevel).steps, Charge) > 0.0
    ensures EconomicsOf(cfg, SimulateRun(cfg, rows, initialLevel).steps, BaselineRun(cfg, rows)).actualRoundTripEfficiency
            == cfg.batteryEfficiency * cfg.batteryEfficiency
  {
    var steps := SimulateRun(cfg, rows, initialLevel).steps;
    ClosedCycleRoundTrip(cfg, rows, initialLevel);
    RatioOfRoundTrip(cfg, steps, BaselineRun(cfg, rows));
  }

  lemma RatioOfRoundTrip(cfg: SimulatorConfig, steps: seq<BatteryStep>, base: seq<BaselineStep>)
    requires SquaredEfficiencyRoundTrip(steps, cfg.batteryEfficiency) && Sum(steps, Charge) > 0.0
    ensures EconomicsOf(cfg, steps, base).actualRoundTripEfficiency == cfg.batteryEfficiency * cfg.batteryEfficiency
  {
    var e := EconomicsOf(cfg, steps, base);
    RatioOfMultiple(e.totalEnergyDischarged, e.totalEnergyCharged, cfg.batteryEfficiency * cfg.batteryEfficiency,
                    e.actualRoundTripEfficiency);
  }

  lemma RatioOfMultiple(d: real, c: real, k: real, ratio: real)
    requires c > 0.0 && d == k * c && ratio * c == d
    ensures ratio == k
  {
    assert (ratio - k) * c == 0.0;
  }

  /** Under two distinct prices both tables of a run hold only the two tiers of
      `get_grid_buy_price`. */
  lemma RunPricesTwoTier(cfg: SimulatorConfig, rows: seq<Reading>, initialLevel: real)
    requires CanSimulate(cfg, rows) && cfg.gridBuyPricePeak != cfg.gridBuyPriceOffpeak
    ensures TwoTier(SimulateRun(cfg, rows, initialLevel).steps, BuyPrice, cfg.gridBuyPricePeak, cfg.gridBuyPriceOffpeak)
    ensures TwoTier(BaselineRun(cfg, rows), BaselineBuyPrice, cfg.gridBuyPricePeak, cfg.gridBuyPriceOffpeak)
  {
    var steps := SimulateRun(cfg, rows, initialLevel).steps;
    forall i | 0 <= i < |rows|
      ensures steps[i].gridBuyPrice == GridBuyPrice(cfg, rows[i].timestamp)
    {
      StepsAreDispatches(cfg, rows, initialLevel, i);
    }
    forall i | 0 <= i < |rows|
      ensures BaselineRun(cfg, rows)[i].gridBuyPrice == GridBuyPrice(cfg, rows[i].timestamp)
    {
      BaselinePointwise(cfg, rows, i);
    }
  }

  /** Peak versus off-peak: with distinct prices, the peak reduction less the off-peak
      increase is the overall reduction in purchases, which a physical battery keeps
      non-negative. */
  lemma PurchaseShift(cfg: SimulatorConfig, rows: seq<Reading>, initialLevel: real)
    requires CanSimulate(cfg, rows) && cfg.gridBuyPricePeak != cfg.gridBuyPriceOffpeak
    ensures var steps := SimulateRun(cfg, rows, initialLevel).steps;
            var base := BaselineRun(cfg, rows);
            var e := EconomicsOf(cfg, steps, base);
            e.peakPurchaseReduction - e.offpeakPurchaseIncrease == Sum(base, BaselinePurchase) - Sum(steps, Purchase)
    ensures Physical(cfg, initialLevel) ==>
              var e := EconomicsOf(cfg, SimulateRun(cfg, rows, initialLevel).steps, BaselineRun(cfg, rows));
              e.peakPurchaseReduction - e.offpeakPurchaseIncrease >= 0.0
  {
    var steps := SimulateRun(cfg, rows, initialLevel).steps;
    var base := BaselineRun(cfg, rows);
    RunPricesTwoTier(cfg, rows, initialLevel);
    PurchasesSplit(steps, BuyPrice, Purchase, cfg.gridBuyPricePeak, cfg.gridBuyPriceOffpeak);
    PurchasesSplit(base, BaselineBuyPrice, BaselinePurchase, cfg.gridBuyPricePeak, cfg.gridBuyPriceOffpeak);
    if Physical(cfg, initialLevel) {
      RunBuysNoMore(cfg, rows, initialLevel);
    }
  }

  // ---------------------------------------------------------------------------
  // The simulator

  class SolarBatterySimulator {
    const config: SimulatorConfig
    /** The series after loading and column identification. */
    var data: seq<Reading>
    /** `self.results_df`; None until `simulate` has run. */
    var resultsDf: Option<seq<BatteryStep>>
    /** `self.results_no_battery_df`; None until `simulate_without_battery` has run. */
    var resultsNoBatteryDf: Option<seq<BaselineStep>>

    constructor (config: SimulatorConfig, data: seq<Reading>)
      ensures this.config == config && this.data == data
      ensures resultsDf == None && resultsNoBatteryDf == None
    {
      this.config := config;
      this.data := data;
      resultsDf := None;
      resultsNoBatteryDf := None;
    }

    /** `simulate`: replays the series from `initial_soc` of the capacity, carrying the
        battery level from row to row, and stores the rows as `results_df`. */
    method Simulate(initialSoc: real) returns (rows: seq<BatteryStep>)
      requires CanSimulate(config, data)
      modifies this`resultsDf
      ensures rows == SimulateRun(config, data, config.batteryCapacity * initialSoc).steps
      ensures resultsDf == Some(rows)
    {
      var results: seq<BatteryStep> := [];
      var batteryLevel := config.batteryCapacity * initialSoc;
      for i := 0 to |data|
        invariant Run(results, batteryLevel) == SimulateRun(config, data[..i], config.batteryCapacity * initialSoc)
      {
        assert data[..i + 1][..i] == data[..i];
        var result := Step(data[i], batteryLevel);
        results := results + [result];
        batteryLevel := result.batteryLevel;
      }
      assert data[..|data|] == data;
      resultsDf := Some(results);
      rows := results;
    }

    /** The body of the `simulate` loop for one row. */
    method Step(row: Reading, level: real) returns (result: BatteryStep)
      requires CanDispatch(config, NetPower(row)) && config.batteryCapacity != 0.0
      ensures result == StepRow(config, row, level)
    {
      var pvPower := row.pvPower;
      var consumedPower := row.consumedPower;
      var netPower := pvPower - consumedPower;
      var currentBuyPrice := GridBuyPrice(config, row.timestamp);
      var d := Move(level, netPower);
      var timestepCost := d.purchase * currentBuyPrice - d.sale * config.gridSellPrice;
      result := BatteryStep(row.timestamp, pvPower, consumedPower, netPower, d.level,
                            d.level / config.batteryCapacity, d.charge, d.discharge,
                            d.purchase, d.sale, currentBuyPrice, timestepCost);
    }

    /** The branches of the `simulate` loop body: charge then sell on a surplus,
        discharge then buy on a deficit. */
    method Move(level: real, netPower: real) returns (d: Dispatch)
      requires CanDispatch(config, netPower)
      ensures d == DispatchStep(config, level, netPower)
    {
      var gridPurchase, gridSale, batteryCharge, batteryDischarge := 0.0, 0.0, 0.0, 0.0;
      var batteryLevel := level;
      if netPower > 0.0 {
        var maxCharge := Min(Min(netPower, config.maxChargeRate),
                             (config.batteryCapacity - batteryLevel) / config.batteryEfficiency);
        batteryCharge := maxCharge;
        batteryLevel := Min(config.batteryCapacity, batteryLevel + batteryCharge * config.batteryEfficiency);
        var remainingExcess := netPower - batteryCharge;
        if remainingExcess > 0.0 {
          gridSale := remainingExcess;
        }
      } else if netPower < 0.0 {
        var powerNeeded := -netPower;
        var maxDischarge := Min(Min(powerNeeded, config.maxDischargeRate), batteryLevel * config.batteryEfficiency);
        batteryDischarge := maxDischarge;
        batteryLevel := Max(0.0, batteryLevel - batteryDischarge / config.batteryEfficiency);
        var remainingDeficit := powerNeeded - batteryDischarge;
        if remainingDeficit > 0.0 {
          gridPurchase := remainingDeficit;
        }
      }
      d := Dispatch(batteryCharge, batteryDischarge, gridPurchase, gridSale, batteryLevel);
    }

    /** `simulate_without_battery`: buys every deficit and sells every surplus, and stores
        the rows as `results_no_battery_df`. */
    method SimulateWithoutBattery() returns (rows: seq<BaselineStep>)
      modifies this`resultsNoBatteryDf
      ensures rows == BaselineRun(config, data)
      ensures resultsNoBatteryDf == Some(rows)
    {
      var resultsNoBattery: seq<BaselineStep> := [];
      for i := 0 to |data|
        invariant resultsNoBattery == BaselineRun(config, data[..i])
      {
        assert data[..i + 1][..i] == data[..i];
        var row := data[i];
        var netPower := row.pvPower - row.consumedPower;
        var currentBuyPrice := GridBuyPrice(config, row.timestamp);
        var gridPurchase := Max(0.0, -netPower);
        var gridSale := Max(0.0, netPower);
        var cost := gridPurchase * currentBuyPrice - gridSale * config.gridSellPrice;
        var result := BaselineStep(row.timestamp, row.pvPower, row.consumedPower, netPower,
                                   gridPurchase, gridSale, currentBuyPrice, cost);
        assert result == BaselineRow(config, row);
        resultsNoBattery := resultsNoBattery + [result];
      }
      assert data[..|data|] == data;
      resultsNoBatteryDf := Some(resultsNoBattery);
      rows := resultsNoBattery;
    }

    /** `calculate_economics`: fails until both simulations have stored their results,
        and on a stored table without rows. */
    function CalculateEconomics(): (r: Result<Economics, SimulationError>)
      reads this
      ensures r == Err(RunSimulationsFirst) <==> resultsDf.None? || resultsNoBatteryDf.None?
      ensures r == Err(EmptyResults) <==>
                resultsDf.Some? && resultsNoBatteryDf.Some? && (|resultsDf.value| == 0 || |resultsNoBatteryDf.value| == 0)
      ensures r.Ok? ==> r.value == EconomicsOf(config, resultsDf.value, resultsNoBatteryDf.value)
    {
      if resultsDf.None? || resultsNoBatteryDf.None? then Err(RunSimulationsFirst)
      else if |resultsDf.value| == 0 || |resultsNoBatteryDf.value| == 0 then Err(EmptyResults)
      else Ok(EconomicsOf(config, resultsDf.value, resultsNoBatteryDf.value))
    }
  }
}
