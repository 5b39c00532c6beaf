/** Grid settlement and aggregation of `EnergyProviderComparison`: each reading is
    turned into a priced grid exchange, readings are grouped by calendar date with
    one daily charge per date, and provider summaries are ranked by total cost. */
module Settlement {
  import opened Wrappers
  import opened Series
  import opened Tariff

  /** One row of the table `simulate_provider` builds, before the daily merge. */
  datatype StepResult = StepResult(
    timestamp: Timestamp,
    intervalMinutes: real,
    pvPower: real,
    consumedPower: real,
    pvEnergy: real,
    consumedEnergy: real,
    netEnergy: real,
    gridPurchase: real,
    gridSale: real,
    buyPrice: real,
    buybackPrice: real,
    periodName: string,
    energyCost: real)

  /** A step row after the per-date totals are merged back onto it. */
  datatype ResultRow = ResultRow(step: StepResult, dailyCharge: real, totalDailyCost: real)

  /** The GST multiplier applied to purchases when GST is on. */
  function PurchaseTax(gstApplicable: bool): real {
    if gstApplicable then GstFactor else 1.0
  }

  /** The body of the `simulate_provider` loop for one reading once its tariff period
      is known: power becomes energy over the detected interval, the net energy is
      split into a purchase and a sale, and the step is priced with GST on the
      purchase only. */
  function SettleAt(pricing: Pricing, gstApplicable: bool, reading: Reading, intervalMinutes: real): (r: StepResult)
    ensures r.pvEnergy == reading.pvPower * (intervalMinutes / 60.0)
    ensures r.consumedEnergy == reading.consumedPower * (intervalMinutes / 60.0)
    ensures r.gridPurchase >= 0.0 && r.gridSale >= 0.0
    ensures r.gridPurchase == 0.0 || r.gridSale == 0.0
    ensures r.gridPurchase - r.gridSale == r.consumedEnergy - r.pvEnergy
    ensures Pricing(r.buyPrice, r.buybackPrice, r.periodName) == pricing
    ensures r.energyCost == r.gridPurchase * r.buyPrice * PurchaseTax(gstApplicable) - r.gridSale * r.buybackPrice
  {
    var pvEnergy := reading.pvPower * (intervalMinutes / 60.0);
    var consumedEnergy := reading.consumedPower * (intervalMinutes / 60.0);
    var netEnergy := pvEnergy - consumedEnergy;
    var gridPurchase := Max(0.0, -netEnergy);
    var gridSale := Max(0.0, netEnergy);
    var purchaseCost := gridPurchase * pricing.buy;
    var purchaseCost := if gstApplicable then purchaseCost * GstFactor else purchaseCost;
    StepResult(reading.timestamp, intervalMinutes, reading.pvPower, reading.consumedPower,
               pvEnergy, consumedEnergy, netEnergy, gridPurchase, gridSale,
               pricing.buy, pricing.buyback, pricing.periodName,
               purchaseCost - gridSale * pricing.buyback)
  }

  /** One reading settled under a provider: the tariff period in force at the
      reading's timestamp prices it, with the provider's GST setting. */
  function SettleStep(provider: EnergyProvider, reading: Reading, intervalMinutes: real): (r: StepResult)
    ensures Pricing(r.buyPrice, r.buybackPrice, r.periodName) == GetPricing(provider, reading.timestamp)
    ensures r.energyCost == r.gridPurchase * r.buyPrice * PurchaseTax(provider.gstApplicable) - r.gridSale * r.buybackPrice
  {
    SettleAt(GetPricing(provider, reading.timestamp), provider.gstApplicable, reading, intervalMinutes)
  }

  /** Of two settlements of the same reading, the taxed one costs 15% of the untaxed
      purchase cost more, and nothing more when nothing was bought. */
  predicate GstOnPurchasesOnly(taxed: StepResult, untaxed: StepResult)
  {
    && taxed.energyCost - untaxed.energyCost == 0.15 * (untaxed.gridPurchase * untaxed.buyPrice)
    && (untaxed.gridPurchase == 0.0 ==> taxed.energyCost == untaxed.energyCost)
  }

  /** GST asymmetry: under the same tariff period, switching GST on raises a step's
      cost by 15% of its purchase cost and leaves sale revenue untouched, so a step
      that only sells costs the same either way. */
  lemma GstScalesPurchasesOnly(pricing: Pricing, reading: Reading, intervalMinutes: real)
    ensures GstOnPurchasesOnly(SettleAt(pricing, true, reading, intervalMinutes),
                               SettleAt(pricing, false, reading, intervalMinutes))
  {
    TaxDifference(SettleAt(pricing, true, reading, intervalMinutes), PurchaseTax(true),
                  SettleAt(pricing, false, reading, intervalMinutes), PurchaseTax(false));
  }

  lemma TaxDifference(taxed: StepResult, taxedRate: real, untaxed: StepResult, untaxedRate: real)
    requires taxedRate == GstFactor && untaxedRate == 1.0
    requires taxed.energyCost == taxed.gridPurchase * taxed.buyPrice * taxedRate - taxed.gridSale * taxed.buybackPrice
    requires untaxed.energyCost == untaxed.gridPurchase * untaxed.buyPrice * untaxedRate - untaxed.gridSale * untaxed.buybackPrice
    requires taxed.gridPurchase == untaxed.gridPurchase && taxed.buyPrice == untaxed.buyPrice
    requires taxed.gridSale == untaxed.gridSale && taxed.buybackPrice == untaxed.buybackPrice
    ensures GstOnPurchasesOnly(taxed, untaxed)
  {
  }

  // ---------------------------------------------------------------------------
  // Grouping by calendar date (`groupby('date')`)

  function StepDate(s: StepResult): int { s.timestamp.day }
  function StepEnergyCost(s: StepResult): real { s.energyCost }
  function RowDate(r: ResultRow): int { r.step.timestamp.day }
  function RowEnergyCost(r: ResultRow): real { r.step.energyCost }
  function RowConsumedEnergy(r: ResultRow): real { r.step.consumedEnergy }
  function RowPvEnergy(r: ResultRow): real { r.step.pvEnergy }
  function RowGridPurchase(r: ResultRow): real { r.step.gridPurchase }
  function RowGridSale(r: ResultRow): real { r.step.gridSale }

  predicate Distinct(ds: seq<int>)
  {
    forall i, j :: 0 <= i < j < |ds| ==> ds[i] != ds[j]
  }

  /** The group keys: each date that occurs among the rows, once, in order of first
      appearance (ascending for a series sorted by timestamp). */
  function Dates<T>(rows: seq<T>, dateOf: T -> int): (ds: seq<int>)
    ensures Distinct(ds)
    ensures |ds| <= |rows| && (|ds| == 0 <==> |rows| == 0)
    ensures forall d :: d in ds <==> exists i :: 0 <= i < |rows| && dateOf(rows[i]) == d
  {
    if |rows| == 0 then []
    else
      var ds := Dates(rows[..|rows| - 1], dateOf);
      var last := rows[|rows| - 1];
      assert forall i :: 0 <= i < |rows| - 1 ==> rows[..|rows| - 1][i] == rows[i];
      if dateOf(last) in ds then ds else ds + [dateOf(last)]
  }

  /** The sum of one column over the rows of date `d`. */
  function DaySum<T>(rows: seq<T>, dateOf: T -> int, value: T -> real, d: int): real
  {
    if |rows| == 0 then 0.0
    else
      DaySum(rows[..|rows| - 1], dateOf, value, d)
        + (if dateOf(rows[|rows| - 1]) == d then value(rows[|rows| - 1]) else 0.0)
  }

  /** The sum of the per-date sums over a list of dates. */
  function SumOverDates<T>(ds: seq<int>, rows: seq<T>, dateOf: T -> int, value: T -> real): real
  {
    if |ds| == 0 then 0.0
    else SumOverDates(ds[..|ds| - 1], rows, dateOf, value) + DaySum(rows, dateOf, value, ds[|ds| - 1])
  }

  lemma {:induction false} DaySumOfAbsentDate<T>(rows: seq<T>, dateOf: T -> int, value: T -> real, d: int)
    requires forall i :: 0 <= i < |rows| ==> dateOf(rows[i]) != d
    ensures DaySum(rows, dateOf, value, d) == 0.0
  {
    if |rows| > 0 {
      DaySumOfAbsentDate(rows[..|rows| - 1], dateOf, value, d);
    }
  }

  /** One more row adds its value to the per-date sums exactly once when its date is
      listed, and not at all otherwise. */
  lemma {:induction false} SumOverDatesAddRow<T>(ds: seq<int>, rows: seq<T>, x: T, dateOf: T -> int, value: T -> real)
    requires Distinct(ds)
    ensures SumOverDates(ds, rows + [x], dateOf, value)
         == SumOverDates(ds, rows, dateOf, value) + (if dateOf(x) in ds then value(x) else 0.0)
  {
    if |ds| > 0 {
      var init := ds[..|ds| - 1];
      assert Distinct(init);
      SumOverDatesAddRow(init, rows, x, dateOf, value);
      assert (rows + [x])[..|rows + [x]| - 1] == rows;
      assert dateOf(x) in ds <==> dateOf(x) in init || dateOf(x) == ds[|ds| - 1] by {
        assert ds == init + [ds[|ds| - 1]];
      }
      assert dateOf(x) in init ==> dateOf(x) != ds[|ds| - 1];
    }
  }

  /** Grouping loses nothing and counts nothing twice: the per-date sums add up to
      the column's total. */
  lemma {:induction false} GroupingPreservesTotal<T>(rows: seq<T>, dateOf: T -> int, value: T -> real)
    ensures SumOverDates(Dates(rows, dateOf), rows, dateOf, value) == Sum(rows, value)
  {
    if |rows| > 0 {
      var init := rows[..|rows| - 1];
      var x := rows[|rows| - 1];
      assert rows == init + [x];
      var ds := Dates(init, dateOf);
      GroupingPreservesTotal(init, dateOf, value);
      SumOverDatesAddRow(ds, init, x, dateOf, value);
      SumAppend(init, [x], value);
      assert Sum([x], value) == value(x);
      if dateOf(x) !in ds {
        DaySumOfAbsentDate(init, dateOf, value, dateOf(x));
        assert DaySum(rows, dateOf, value, dateOf(x)) == value(x);
        assert (ds + [dateOf(x)])[..|ds|] == ds;
      }
    }
  }

  lemma {:induction false} DistinctCardinality(ds: seq<int>)
    requires Distinct(ds)
    ensures |set d | d in ds| == |ds|
  {
    if |ds| > 0 {
      var init := ds[..|ds| - 1];
      assert Distinct(init);
      DistinctCardinality(init);
      assert (set d | d in ds) == (set d | d in init) + {ds[|ds| - 1]} by {
        assert ds == init + [ds[|ds| - 1]];
      }
      assert ds[|ds| - 1] !in (set d | d in init);
    }
  }

  /** The set of dates that occur among the rows. */
  function DateSet<T>(rows: seq<T>, dateOf: T -> int): set<int>
  {
    set i | 0 <= i < |rows| :: dateOf(rows[i])
  }

  /** One daily group per calendar date: the number of groups is the number of
      distinct dates among the rows. */
  lemma GroupCountIsDistinctDates<T>(rows: seq<T>, dateOf: T -> int)
    ensures |Dates(rows, dateOf)| == |DateSet(rows, dateOf)|
  {
    var ds := Dates(rows, dateOf);
    DistinctCardinality(ds);
    assert (set d | d in ds) == DateSet(rows, dateOf);
  }

  // ---------------------------------------------------------------------------
  // The daily merge of `simulate_provider`

  /** `results_df.merge(daily_summary, on='date')`: every step row carries its date's
      daily charge and that date's summed energy cost plus the charge. */
  function MergeDailyTotals(steps: seq<StepResult>, provider: EnergyProvider): (rows: seq<ResultRow>)
    ensures |rows| == |steps|
    ensures forall i :: 0 <= i < |rows| ==>
              rows[i].step == steps[i] && rows[i].dailyCharge == GetDailyCharge(provider, steps[i].timestamp)
    ensures forall i :: 0 <= i < |rows| ==>
              rows[i].totalDailyCost == DaySum(steps, StepDate, StepEnergyCost, StepDate(steps[i])) + rows[i].dailyCharge
  {
    seq(|steps|, i requires 0 <= i < |steps| =>
      var charge := GetDailyCharge(provider, steps[i].timestamp);
      ResultRow(steps[i], charge, DaySum(steps, StepDate, StepEnergyCost, StepDate(steps[i])) + charge))
  }

  // ---------------------------------------------------------------------------
  // The date range of `calculate_summary_stats`

  /** Optional first and last calendar day of the analysis (days since 1970-01-01). */
  datatype DateWindow = DateWindow(startDate: Option<int>, endDate: Option<int>)

  function EpochSeconds(t: Timestamp): int { t.day * 86400 + t.secondOfDay }

  /** The filter as the source writes it: a timestamp is compared with the date
      string, which stands for midnight at the start of that day. */
  predicate InWindowAsWritten(t: Timestamp, w: DateWindow)
  {
    && (w.startDate.None? || EpochSeconds(t) >= w.startDate.value * 86400)
    && (w.endDate.None? || EpochSeconds(t) <= w.endDate.value * 86400)
  }

  /** The inclusive date range: every reading of the first through the last day. */
  predicate InWindow(t: Timestamp, w: DateWindow)
  {
    && (w.startDate.None? || t.day >= w.startDate.value)
    && (w.endDate.None? || t.day <= w.endDate.value)
  }

  /** As written, the end bound keeps only the reading at 00:00 of the end day: a
      reading at noon that day is dropped, while the same day's midnight reading is
      kept, so the end day enters the summary with one daily charge and a single
      step of energy. */
  lemma AsWrittenSplitsEndDay()
    ensures var w := DateWindow(None, Some(19723));
            && InWindowAsWritten(Timestamp(19723, 0), w)
            && !InWindowAsWritten(Timestamp(19723, 43200), w)
            && InWindow(Timestamp(19723, 43200), w)
  {
  }

  /** The inclusive range keeps or drops whole days: two readings of the same date
      are both in or both out, and it agrees with the source on every reading
      before the end day. */
  lemma {:induction false} WindowKeepsWholeDays(t1: Timestamp, t2: Timestamp, w: DateWindow)
    requires t1.day == t2.day
    ensures InWindow(t1, w) <==> InWindow(t2, w)
    ensures w.endDate.None? || t1.day < w.endDate.value ==> (InWindow(t1, w) <==> InWindowAsWritten(t1, w))
  {
    if w.startDate.Some? {
      var s := w.startDate.value;
      assert t1.day >= s <==> EpochSeconds(t1) >= s * 86400 by {
        if t1.day >= s {
          assert t1.day * 86400 >= s * 86400;
        } else {
          assert t1.day * 86400 <= s * 86400 - 86400;
        }
      }
    }
    if w.endDate.Some? && t1.day < w.endDate.value {
      var e := w.endDate.value;
      assert t1.day * 86400 <= e * 86400 - 86400;
    }
  }

  /** `filtered_df`: the rows inside the range, in their original order. */
  function FilterRows(rows: seq<ResultRow>, w: DateWindow): (kept: seq<ResultRow>)
    ensures forall r :: r in kept <==> r in rows && InWindow(r.step.timestamp, w)
  {
    if |rows| == 0 then []
    else if InWindow(rows[0].step.timestamp, w) then [rows[0]] + FilterRows(rows[1..], w)
    else FilterRows(rows[1..], w)
  }

  /** The filter keeps order and multiplicity: filtering a concatenation filters
      each part, and a single row is kept exactly when it lies in the window. */
  lemma {:induction false} FilterRowsAppend(a: seq<ResultRow>, b: seq<ResultRow>, w: DateWindow)
    ensures FilterRows(a + b, w) == FilterRows(a, w) + FilterRows(b, w)
  {
    if |a| > 0 {
      assert (a + b)[1..] == a[1..] + b;
      FilterRowsAppend(a[1..], b, w);
    } else {
      assert a + b == b;
    }
  }

  lemma FilterRowsSingleton(r: ResultRow, w: DateWindow)
    ensures FilterRows([r], w) == if InWindow(r.step.timestamp, w) then [r] else []
  {
    assert [r][1..] == [];
  }

  // ---------------------------------------------------------------------------
  // Provider summaries

  /** Purchased and sold energy and the listed prices of one declared period. */
  datatype PeriodSummary = PeriodSummary(
    name: string,
    purchasesKwh: real,
    salesKwh: real,
    buyPrice: real,
    buybackPrice: real)

  /** One row of the summary table. */
  datatype ProviderSummary = ProviderSummary(
    provider: string,
    analysisDays: nat,
    totalCost: real,
    totalEnergyCost: real,
    totalDailyCharges: real,
    avgDailyCost: real,
    avgCostPerKwh: real,
    totalConsumption: real,
    totalGeneration: real,
    totalGridPurchase: real,
    totalGridSale: real,
    dailyCharge: real,
    totalTimesteps: nat,
    timestepsPerDay: real,
    periods: seq<PeriodSummary>)

  /** `'daily_charge': 'first'`: the daily charge of the first row of date `d`. */
  function FirstDailyCharge(rows: seq<ResultRow>, d: int): real
  {
    if |rows| == 0 then 0.0
    else if RowDate(rows[0]) == d then rows[0].dailyCharge
    else FirstDailyCharge(rows[1..], d)
  }

  function SumFirstDailyCharges(ds: seq<int>, rows: seq<ResultRow>): real
  {
    if |ds| == 0 then 0.0 else SumFirstDailyCharges(ds[..|ds| - 1], rows) + FirstDailyCharge(rows, ds[|ds| - 1])
  }

  /** Purchased (`purchases`) or sold energy of the rows priced under `name`. */
  function PeriodEnergy(rows: seq<ResultRow>, name: string, purchases: bool): real
  {
    if |rows| == 0 then 0.0
    else
      (if rows[0].step.periodName == name
       then (if purchases then rows[0].step.gridPurchase else rows[0].step.gridSale)
       else 0.0)
      + PeriodEnergy(rows[1..], name, purchases)
  }

  /** Purchased (`purchases`) or sold energy of the rows whose period is none of
      `names`, such as the fallback label "unknown". */
  function UnlistedEnergy(rows: seq<ResultRow>, names: seq<string>, purchases: bool): real
  {
    if |rows| == 0 then 0.0
    else
      (if rows[0].step.periodName !in names
       then (if purchases then rows[0].step.gridPurchase else rows[0].step.gridSale)
       else 0.0)
      + UnlistedEnergy(rows[1..], names, purchases)
  }

  /** The purchased or sold energy over all entries of a breakdown. */
  function BreakdownEnergy(b: seq<PeriodSummary>, purchases: bool): real
  {
    if |b| == 0 then 0.0 else (if purchases then b[0].purchasesKwh else b[0].salesKwh) + BreakdownEnergy(b[1..], purchases)
  }

  function PeriodNames(periods: seq<TimeOfUsePeriod>): (names: seq<string>)
    ensures |names| == |periods| && forall i :: 0 <= i < |periods| ==> names[i] == periods[i].name
  {
    if |periods| == 0 then [] else [periods[0].name] + PeriodNames(periods[1..])
  }

  predicate DistinctNames(periods: seq<TimeOfUsePeriod>)
  {
    forall i, j :: 0 <= i < j < |periods| ==> periods[i].name != periods[j].name
  }

  /** The total of the grid purchases (`purchases`) or sales of the rows. */
  function Traded(rows: seq<ResultRow>, purchases: bool): real
  {
    if purchases then Sum(rows, RowGridPurchase) else Sum(rows, RowGridSale)
  }

  /** With no names listed, every row is unlisted. */
  lemma {:induction false} NothingListed(rows: seq<ResultRow>, purchases: bool)
    ensures UnlistedEnergy(rows, [], purchases) == Traded(rows, purchases)
  {
    if |rows| > 0 {
      NothingListed(rows[1..], purchases);
    }
  }

  /** Listing one more name moves that period's energy out of the unlisted rows. */
  lemma {:induction false} ListOneMore(rows: seq<ResultRow>, n: string, names: seq<string>, purchases: bool)
    requires n !in names
    ensures UnlistedEnergy(rows, names, purchases) == PeriodEnergy(rows, n, purchases) + UnlistedEnergy(rows, [n] + names, purchases)
  {
    if |rows| > 0 {
      ListOneMore(rows[1..], n, names, purchases);
    }
  }

  /** The per-period energies of the breakdown, together with the energy of rows
      priced under no declared name, add up to the rows' total purchases (or sales):
      with distinct period names, every row is counted exactly once. */
  lemma {:induction false} BreakdownCoversRows(periods: seq<TimeOfUsePeriod>, rows: seq<ResultRow>, purchases: bool)
    requires DistinctNames(periods)
    ensures BreakdownEnergy(PeriodBreakdown(periods, rows), purchases)
            + UnlistedEnergy(rows, PeriodNames(periods), purchases) == Traded(rows, purchases)
  {
    if |periods| == 0 {
      NothingListed(rows, purchases);
    } else {
      var b := PeriodBreakdown(periods, rows);
      assert b[1..] == PeriodBreakdown(periods[1..], rows);
      assert DistinctNames(periods[1..]);
      BreakdownCoversRows(periods[1..], rows, purchases);
      assert PeriodNames(periods) == [periods[0].name] + PeriodNames(periods[1..]);
      var rest := PeriodNames(periods[1..]);
      assert forall k :: 0 <= k < |rest| ==> rest[k] == periods[k + 1].name;
      assert periods[0].name !in rest;
      ListOneMore(rows, periods[0].name, PeriodNames(periods[1..]), purchases);
    }
  }

  /** The per-period purchases and sales of the summary, one entry per declared period
      in declaration order. */
  function PeriodBreakdown(periods: seq<TimeOfUsePeriod>, rows: seq<ResultRow>): (b: seq<PeriodSummary>)
    ensures |b| == |periods|
    ensures forall i :: 0 <= i < |b| ==>
              b[i] == PeriodSummary(periods[i].name, PeriodEnergy(rows, periods[i].name, true),
                                    PeriodEnergy(rows, periods[i].name, false),
                                    periods[i].buyPrice, periods[i].buybackPrice)
  {
    seq(|periods|, i requires 0 <= i < |periods| =>
      PeriodSummary(periods[i].name, PeriodEnergy(rows, periods[i].name, true),
                    PeriodEnergy(rows, periods[i].name, false),
                    periods[i].buyPrice, periods[i].buybackPrice))
  }

  /** `q` is `x` spread over `days` days: `q * days == x`, or zero without days. */
  predicate PerDay(q: real, x: real, days: nat)
  {
    if days > 0 then q * days as real == x else q == 0.0
  }

  /** `len(filtered_df) / total_days`, zero when there are no days. */
  function TimestepsPerDay(steps: nat, days: nat): (t: real)
    ensures PerDay(t, steps as real, days)
  {
    if days > 0 then
      var t := steps as real / days as real;
      DivThenMul(steps as real, days as real, t);
      t
    else 0.0
  }

  /** The statistics of one provider over its (filtered) rows (the body of the
      `calculate_summary_stats` loop): totals from the daily groups, averages that
      are zero when there are no days or no consumption. */
  function Summarize(provider: EnergyProvider, name: string, rows: seq<ResultRow>): (s: ProviderSummary)
    ensures s.provider == name && s.totalTimesteps == |rows| && s.dailyCharge == provider.dailyCharge
    ensures s.analysisDays == |Dates(rows, RowDate)|
    ensures && s.totalConsumption == Sum(rows, RowConsumedEnergy) && s.totalGeneration == Sum(rows, RowPvEnergy)
            && s.totalGridPurchase == Sum(rows, RowGridPurchase) && s.totalGridSale == Sum(rows, RowGridSale)
    ensures PerDay(s.timestepsPerDay, |rows| as real, s.analysisDays)
    ensures s.periods == PeriodBreakdown(provider.timePeriods, rows)
  {
    var ds := Dates(rows, RowDate);
    var totalDays := |ds|;
    var totalEnergyCost := SumOverDates(ds, rows, RowDate, RowEnergyCost);
    var totalDailyCharges := SumFirstDailyCharges(ds, rows);
    var totalCost := totalEnergyCost + totalDailyCharges;
    var totalConsumption := Sum(rows, RowConsumedEnergy);
    ProviderSummary(
      name, totalDays, totalCost, totalEnergyCost, totalDailyCharges,
      if totalDays > 0 then totalCost / totalDays as real else 0.0,
      if totalConsumption > 0.0 then totalCost / totalConsumption else 0.0,
      totalConsumption, Sum(rows, RowPvEnergy), Sum(rows, RowGridPurchase), Sum(rows, RowGridSale),
      provider.dailyCharge, |rows|,
      TimestepsPerDay(|rows|, totalDays),
      PeriodBreakdown(provider.timePeriods, rows))
  }

  /** The totals of a summary: the energy cost summed by date equals the summed step
      costs, the total adds the daily charges to it, and there is a day exactly when
      there is a row. */
  lemma SummaryTotals(provider: EnergyProvider, name: string, rows: seq<ResultRow>)
    ensures var s := Summarize(provider, name, rows);
            && s.totalCost == s.totalEnergyCost + s.totalDailyCharges
            && s.totalEnergyCost == Sum(rows, RowEnergyCost)
            && (s.analysisDays == 0 <==> |rows| == 0)
  {
    GroupingPreservesTotal(rows, RowDate, RowEnergyCost);
  }

  /** The averages of a summary divide its total by the number of days and by the
      consumed energy, and are zero when there are no days or no positive
      consumption. */
  lemma SummaryAverages(provider: EnergyProvider, name: string, rows: seq<ResultRow>)
    ensures var s := Summarize(provider, name, rows);
            && (s.analysisDays > 0 ==> s.avgDailyCost * (s.analysisDays as real) == s.totalCost)
            && (s.analysisDays == 0 ==> s.avgDailyCost == 0.0)
            && (s.totalConsumption > 0.0 ==> s.avgCostPerKwh * s.totalConsumption == s.totalCost)
            && (s.totalConsumption <= 0.0 ==> s.avgCostPerKwh == 0.0)
  {
    var s := Summarize(provider, name, rows);
    if s.analysisDays > 0 {
      var days := s.analysisDays as real;
      assert s.avgDailyCost == s.totalCost / days;
      DivThenMul(s.totalCost, days, s.avgDailyCost);
    }
    if s.totalConsumption > 0.0 {
      assert s.avgCostPerKwh == s.totalCost / s.totalConsumption;
      DivThenMul(s.totalCost, s.totalConsumption, s.avgCostPerKwh);
    }
  }

  lemma {:induction false} FirstDailyChargeOfUniformRows(rows: seq<ResultRow>, d: int, c: real)
    requires forall i :: 0 <= i < |rows| ==> rows[i].dailyCharge == c
    requires exists i :: 0 <= i < |rows| && RowDate(rows[i]) == d
    ensures FirstDailyCharge(rows, d) == c
  {
    if RowDate(rows[0]) != d {
      var i :| 0 <= i < |rows| && RowDate(rows[i]) == d;
      assert RowDate(rows[1..][i - 1]) == d;
      FirstDailyChargeOfUniformRows(rows[1..], d, c);
    }
  }

  lemma {:induction false} SumFirstDailyChargesOfUniformRows(ds: seq<int>, rows: seq<ResultRow>, c: real)
    requires forall i :: 0 <= i < |rows| ==> rows[i].dailyCharge == c
    requires forall d :: d in ds ==> exists i :: 0 <= i < |rows| && RowDate(rows[i]) == d
    ensures SumFirstDailyCharges(ds, rows) == |ds| as real * c
  {
    if |ds| > 0 {
      var init := ds[..|ds| - 1];
      assert forall d :: d in init ==> d in ds;
      SumFirstDailyChargesOfUniformRows(init, rows, c);
      assert ds[|ds| - 1] in ds;
      FirstDailyChargeOfUniformRows(rows, ds[|ds| - 1], c);
    }
  }

  /** A summary counts one day per distinct calendar date among its rows. */
  lemma SummaryDaysAreDistinctDates(provider: EnergyProvider, name: string, rows: seq<ResultRow>)
    ensures Summarize(provider, name, rows).analysisDays == |DateSet(rows, RowDate)|
  {
    GroupCountIsDistinctDates(rows, RowDate);
  }

  lemma SummaryDailyChargesOfUniformRows(provider: EnergyProvider, name: string, rows: seq<ResultRow>, c: real)
    requires forall i :: 0 <= i < |rows| ==> rows[i].dailyCharge == c
    ensures Summarize(provider, name, rows).totalDailyCharges == Summarize(provider, name, rows).analysisDays as real * c
  {
    SumFirstDailyChargesOfUniformRows(Dates(rows, RowDate), rows, c);
  }

  /** The daily charge enters a summary exactly once per day: when every row carries
      the provider's charge `c`, the charges total `c` times the number of days, and
      the total cost is the summed step costs plus that. */
  lemma SummaryChargesOncePerDate(provider: EnergyProvider, name: string, rows: seq<ResultRow>, c: real)
    requires forall i :: 0 <= i < |rows| ==> rows[i].dailyCharge == c
    ensures var s := Summarize(provider, name, rows);
            && s.totalDailyCharges == s.analysisDays as real * c
            && s.totalCost == Sum(rows, RowEnergyCost) + s.analysisDays as real * c
  {
    SummaryTotals(provider, name, rows);
    SummaryDailyChargesOfUniformRows(provider, name, rows, c);
  }

  /** The per-period purchases and sales of a summary, with those of rows priced under
      no declared period, add up to its total purchases and sales. */
  lemma SummaryPeriodsCoverTotals(provider: EnergyProvider, name: string, rows: seq<ResultRow>)
    requires DistinctNames(provider.timePeriods)
    ensures var s := Summarize(provider, name, rows);
            var names := PeriodNames(provider.timePeriods);
            && BreakdownEnergy(s.periods, true) + UnlistedEnergy(rows, names, true) == s.totalGridPurchase
            && BreakdownEnergy(s.periods, false) + UnlistedEnergy(rows, names, false) == s.totalGridSale
  {
    BreakdownCoversRows(provider.timePeriods, rows, true);
    BreakdownCoversRows(provider.timePeriods, rows, false);
  }

  /** When every row is a settled step, the summary's purchases less its sales equal
      its consumption less its generation. */
  lemma SummaryGridBalance(provider: EnergyProvider, name: string, rows: seq<ResultRow>)
    requires forall i :: 0 <= i < |rows| ==>
               rows[i].step.gridPurchase - rows[i].step.gridSale == rows[i].step.consumedEnergy - rows[i].step.pvEnergy
    ensures var s := Summarize(provider, name, rows);
            s.totalGridPurchase - s.totalGridSale == s.totalConsumption - s.totalGeneration
  {
    SumBalance(rows, RowGridPurchase, RowGridSale, RowConsumedEnergy, RowPvEnergy);
  }

  // ---------------------------------------------------------------------------
  // Ranking and savings

  predicate SortedByCost(s: seq<ProviderSummary>)
  {
    forall i, j :: 0 <= i < j < |s| ==> s[i].totalCost <= s[j].totalCost
  }

  function InsertByCost(x: ProviderSummary, s: seq<ProviderSummary>): (r: seq<ProviderSummary>)
    requires SortedByCost(s)
    ensures SortedByCost(r)
    ensures multiset(r) == multiset(s) + multiset{x}
    ensures |r| > 0 && (r[0] == x || (|s| > 0 && r[0] == s[0]))
  {
    if |s| == 0 then [x]
    else if x.totalCost <= s[0].totalCost then [x] + s
    else
      var rest := InsertByCost(x, s[1..]);
      assert s == [s[0]] + s[1..];
      ConsSorted(s[0], rest);
      [s[0]] + rest
  }

  lemma ConsSorted(a: ProviderSummary, s: seq<ProviderSummary>)
    requires SortedByCost(s) && |s| > 0 && a.totalCost <= s[0].totalCost
    ensures SortedByCost([a] + s)
  {
  }

  /** `sort_values('total_cost')`: the summaries, ascending by total cost. */
  function SortByTotalCost(s: seq<ProviderSummary>): (r: seq<ProviderSummary>)
    ensures SortedByCost(r)
    ensures multiset(r) == multiset(s)
  {
    if |s| == 0 then []
    else
      assert s == [s[0]] + s[1..];
      InsertByCost(s[0], SortByTotalCost(s[1..]))
  }

  /** `summary_df['total_cost'].max()`. */
  function MostExpensive(s: seq<ProviderSummary>): (m: real)
    requires |s| > 0
    ensures forall i :: 0 <= i < |s| ==> s[i].totalCost <= m
    ensures exists i :: 0 <= i < |s| && s[i].totalCost == m
  {
    if |s| == 1 then s[0].totalCost
    else
      var rest := MostExpensive(s[1..]);
      assert forall i :: 1 <= i < |s| ==> s[i] == s[1..][i - 1];
      if s[0].totalCost >= rest then s[0].totalCost else rest
  }

  /** One row of the savings table; the percentage is None where pandas would divide
      by a zero maximum. */
  datatype Saving = Saving(provider: string, totalCost: real, savingsVsMostExpensive: real, savingsPercent: Option<real>)

  /** One provider's saving against the most expensive total `most`. */
  function SavingRow(x: ProviderSummary, most: real): (r: Saving)
    ensures r.provider == x.provider && r.totalCost == x.totalCost
    ensures r.totalCost + r.savingsVsMostExpensive == most
    ensures r.savingsPercent.Some? <==> most != 0.0
    ensures r.savingsPercent.Some? ==> r.savingsPercent.value * most == r.savingsVsMostExpensive * 100.0
  {
    var saving := most - x.totalCost;
    if most != 0.0 then
      var percent := saving / most * 100.0;
      PercentOf(saving, most, percent);
      Saving(x.provider, x.totalCost, saving, Some(percent))
    else Saving(x.provider, x.totalCost, saving, None)
  }

  lemma PercentOf(part: real, whole: real, p: real)
    requires whole != 0.0 && p == part / whole * 100.0
    ensures p * whole == part * 100.0
  {
    assert (part / whole) * whole == part;
  }

  /** The savings columns of `main`: each provider's distance below the most expensive
      total, and that as a percentage of it; only computed for more than one provider. */
  function Savings(s: seq<ProviderSummary>): (r: Option<seq<Saving>>)
    ensures r.Some? <==> |s| > 1
    ensures r.Some? ==> |r.value| == |s|
    ensures r.Some? ==> forall i :: 0 <= i < |s| ==>
              && r.value[i] == SavingRow(s[i], MostExpensive(s))
              && r.value[i].savingsVsMostExpensive >= 0.0
    ensures r.Some? ==> exists i :: 0 <= i < |s| && r.value[i].savingsVsMostExpensive == 0.0
  {
    if |s| <= 1 then None
    else
      var most := MostExpensive(s);
      var table := seq(|s|, i requires 0 <= i < |s| => SavingRow(s[i], most));
      var k :| 0 <= k < |s| && s[k].totalCost == most;
      assert table[k].savingsVsMostExpensive == 0.0;
      Some(table)
  }

  /** In the ranked table the most expensive provider comes last, and its saving is
      zero. */
  lemma {:induction false} LastRankedSavesNothing(summaries: seq<ProviderSummary>)
    requires |summaries| > 1
    ensures var ranked := SortByTotalCost(summaries);
            && ranked[|ranked| - 1].totalCost == MostExpensive(ranked)
            && Savings(ranked).value[|ranked| - 1].savingsVsMostExpensive == 0.0
  {
    var ranked := SortByTotalCost(summaries);
    assert |ranked| == |summaries| by {
      assert |multiset(ranked)| == |multiset(summaries)|;
    }
    var k :| 0 <= k < |ranked| && ranked[k].totalCost == MostExpensive(ranked);
    if k < |ranked| - 1 {
      assert ranked[k].totalCost <= ranked[|ranked| - 1].totalCost;
    }
  }
}
