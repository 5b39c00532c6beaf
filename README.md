# Energy provider comparison and solar battery simulation, in Dafny

This project models the two calculation engines of a home-energy toolkit:

* **Provider comparison** (`EnergyProviderComparison`). Each electricity provider has
  time-of-use periods, a fixed daily charge and an optional 15% GST.
  * The tariff resolver picks the period in force at a timestamp: the first declared
    period with a matching range wins, ranges may wrap past midnight, and there is a
    fallback labelled "unknown".
  * Every reading of a shared power series is settled against that tariff. Power becomes
    energy over the detected interval. The net energy is split into a grid purchase and a
    grid sale, and GST is applied to the purchase only.
  * The rows are grouped by calendar date, and the daily charge is added once per date.
  * The providers are summarised over an optional date window, ranked by total cost and
    compared with the most expensive one.
* **Solar battery simulator** (`SolarBatterySimulator`). A greedy battery dispatch rule
  is replayed over the series.
  * On a surplus the battery charges first and the rest is sold. On a deficit the battery
    discharges first and the rest is bought.
  * Charging and discharging are capped by rate, headroom and stored energy, with the
    efficiency applied on the way in and again on the way out.
  * A battery-less baseline is computed over the same series.
  * The economics compare the two runs: savings, payback, round-trip ratio, cycles and
    the peak/off-peak purchase shift.

The two engines are independent.

| file | module | contents |
|---|---|---|
| `wrappers.dfy` | `Wrappers` | `Option`, `Result` |
| `series.dfy` | `Series` | timestamps as (day, second of day), readings, column sums |
| `tariff.dfy` | `Tariff` | providers, periods, `get_pricing`, `_hour_in_range`, `get_daily_charge` |
| `settlement.dfy` | `Settlement` | per-reading settlement, grouping by date, date window, summaries, ranking, savings |
| `comparison.dfy` | `Comparison` | the `EnergyProviderComparison` class and its loops |
| `battery.dfy` | `Battery` | the dispatch rule, the run over a series, the baseline, and the run-level theorems |
| `solar.dfy` | `Solar` | the `SolarBatterySimulator` class and `calculate_economics` |

**How the source maps to Dafny.**
* Money and energy are `real`.
* A timestamp counts days since 1970-01-01 plus seconds since midnight. The hour is
  `second / 3600` and the weekday is `(day + 3) % 7`, with Monday as 0.
* A DataFrame becomes a `seq` of row records.
* The classes keep the source's mutable state as fields (`providers`, `results`, the
  cached `interval_minutes`, `results_df`, and so on), and their methods carry the
  source's loops with invariants.
* Each loop is proved against a recursive specification function, such as `SettleAll`,
  `SimulateAll`, `SimulateRun` or `BaselineRun`. The theorems are stated about those
  functions.

**Where the code and its own documentation disagree, the model follows the code.**
* The `gst_applicable` field is documented as applying GST "to all costs". The settlement
  loop applies it only to purchases, never to sale revenue, and separately to the daily
  charge.
* The simulator's `battery_efficiency` is documented as a round-trip efficiency, but it is
  applied on both charge and discharge. Over a closed cycle the battery therefore returns
  the efficiency squared of what it took in (`Battery.ClosedCycleRoundTrip`).

## Model

Source paths are relative to the repository root.

| member | source | states |
|---|---|---|
| Series.Hour | energy_provider_comparison/energy_provider_comparison.py:36 | the hour of a timestamp lies in 0..23 and is the whole hour containing its time of day |
| Series.Weekday | energy_provider_comparison/energy_provider_comparison.py:37 | the weekday lies in 0..6 |
| Tariff.HourInRangeIsClockArc | energy_provider_comparison/energy_provider_comparison.py:53-59 | `_hour_in_range` holds exactly when the hour's forward distance from the start is within the arc to the end; a range whose end is not after its start wraps past midnight, and start == end covers the whole day |
| Tariff.MidnightCrossover | energy_provider_comparison/energy_provider_comparison.py:53-59 | a 23-7 range holds 23:00 and 03:00 but not noon; a range with equal start and end holds every hour |
| Tariff.FirstMatchingPeriod | energy_provider_comparison/energy_provider_comparison.py:40-45 | the index found is a matching period with no matching period before it; none is found exactly when no period matches |
| Tariff.GetPricing | energy_provider_comparison/energy_provider_comparison.py:34-51 | the prices and name of the first period in declaration order whose range holds the weekday and hour; with no match, the first period's prices labelled "unknown"; with no periods, zero prices and "unknown" |
| Tariff.PricingComesFromDeclaredPeriod | energy_provider_comparison/energy_provider_comparison.py:34-51 | the resolved prices always belong to a declared period (or are zero when none is declared), and a name other than "unknown" belongs to a period that matches the timestamp |
| Tariff.GetDailyCharge | energy_provider_comparison/energy_provider_comparison.py:71-76 | the daily charge times 1.15 with GST, the plain daily charge without |
| Tariff.DailyChargeIgnoresDate | energy_provider_comparison/energy_provider_comparison.py:71-76 | the daily charge is the same on every date |
| Settlement.SettleAt | energy_provider_comparison/energy_provider_comparison.py:244-282 | energy is power times interval/60; purchase and sale are non-negative, at most one is positive, and purchase minus sale is consumption minus generation; the row carries the given prices; cost is purchase × buy price × the GST factor minus sale × buyback price |
| Settlement.SettleStep | energy_provider_comparison/energy_provider_comparison.py:250-265 | a reading is priced at the tariff period `get_pricing` resolves for its timestamp, with GST on the purchase term only |
| Settlement.GstScalesPurchasesOnly | energy_provider_comparison/energy_provider_comparison.py:258-265 | under the same prices, switching GST on raises the step cost by exactly 15% of the purchase cost; a step that buys nothing costs the same either way |
| Settlement.Dates | energy_provider_comparison/energy_provider_comparison.py:285-291 | the group keys are distinct, one per date occurring among the rows, and there are none exactly when there are no rows |
| Settlement.GroupingPreservesTotal | energy_provider_comparison/energy_provider_comparison.py:288-291 | the per-date sums of a column add up to the column's total: grouping loses nothing and counts nothing twice |
| Settlement.GroupCountIsDistinctDates | energy_provider_comparison/energy_provider_comparison.py:347-353 | the number of daily groups is the number of distinct dates among the rows |
| Settlement.MergeDailyTotals | energy_provider_comparison/energy_provider_comparison.py:285-302 | every step row keeps its step, carries its date's daily charge, and carries that date's summed energy cost plus the charge |
| Settlement.AsWrittenSplitsEndDay | energy_provider_comparison/energy_provider_comparison.py:334-339 | with the comparison as written, the end day keeps its 00:00 reading and drops its noon reading, which the inclusive day window keeps |
| Settlement.WindowKeepsWholeDays | energy_provider_comparison/energy_provider_comparison.py:334-339 | the corrected window keeps or drops whole days, and agrees with the source on every reading before the end day |
| Settlement.FilterRows | energy_provider_comparison/energy_provider_comparison.py:334-341 | a row is kept exactly when it is one of the rows and lies in the (whole-day) window |
| Settlement.FilterRowsAppend | energy_provider_comparison/energy_provider_comparison.py:334-341 | filtering keeps order and multiplicity: the filter of a concatenation is the concatenation of the filters |
| Settlement.FilterRowsSingleton | energy_provider_comparison/energy_provider_comparison.py:334-341 | a single row is kept exactly when its timestamp lies in the window |
| Settlement.TimestepsPerDay | energy_provider_comparison/energy_provider_comparison.py:402 | timesteps per day times the days is the number of rows, and 0 when there are no days |
| Settlement.PeriodNames | energy_provider_comparison/energy_provider_comparison.py:365-366 | the names of the declared periods, one per period, in order |
| Settlement.NothingListed | energy_provider_comparison/energy_provider_comparison.py:358-368 | with no period names listed, the energy of the unlisted rows is the column's total |
| Settlement.ListOneMore | energy_provider_comparison/energy_provider_comparison.py:365-368 | a period's purchases (or sales) are exactly what leaves the unlisted rows when its name is listed |
| Settlement.BreakdownCoversRows | energy_provider_comparison/energy_provider_comparison.py:358-368 | with distinct period names, the per-period purchases (or sales) of the breakdown plus those of rows priced under no declared name (the "unknown" fallback) equal the total grid purchase (or sale): every row is counted exactly once |
| Settlement.SummaryPeriodsCoverTotals | energy_provider_comparison/energy_provider_comparison.py:358-368 | in a summary, the breakdown's purchases and sales plus those of unlisted rows are the summary's total grid purchase and sale |
| Settlement.Summarize | energy_provider_comparison/energy_provider_comparison.py:346-403 | the summary names the provider, counts one analysis day per group key and one timestep per row, and reports the provider's daily charge; consumption, generation, grid purchase and grid sale are the column sums; timesteps per day times days is the row count (0 with no days); the periods are the per-period breakdown |
| Settlement.SummaryTotals | energy_provider_comparison/energy_provider_comparison.py:347-356 | total cost is energy cost plus daily charges; the energy cost summed by date equals the summed step costs; there is a day exactly when there is a row |
| Settlement.SummaryAverages | energy_provider_comparison/energy_provider_comparison.py:377-379 | the average daily cost times the days is the total (0 with no days); the average cost per kWh times the consumption is the total (0 unless consumption is positive) |
| Settlement.SummaryDaysAreDistinctDates | energy_provider_comparison/energy_provider_comparison.py:353 | the analysis days are the distinct calendar dates of the filtered rows |
| Settlement.SummaryDailyChargesOfUniformRows | energy_provider_comparison/energy_provider_comparison.py:349-355 | when every row carries the same charge c, the daily charges total c times the days |
| Settlement.SummaryChargesOncePerDate | energy_provider_comparison/energy_provider_comparison.py:347-356 | the daily charge enters the total exactly once per date: total = summed step costs + days × charge |
| Comparison.SimulatedSummaryChargesOncePerDate | energy_provider_comparison/energy_provider_comparison.py:347-356 | the summary of any window of a simulated table totals the provider's one daily charge once per distinct date: daily charges = days × charge, total = summed step costs + days × charge |
| Comparison.FilteredChargesUniform | energy_provider_comparison/energy_provider_comparison.py:293-301 | every row that a window keeps from a simulated table carries the provider's daily charge |
| Settlement.SummaryGridBalance | energy_provider_comparison/energy_provider_comparison.py:358-361 | over settled rows, total purchase minus total sale equals total consumption minus total generation |
| Settlement.SortByTotalCost | energy_provider_comparison/energy_provider_comparison.py:416 | the summaries ascending by total cost, and a permutation of them |
| Settlement.MostExpensive | energy_provider_comparison/energy_provider_comparison.py:688 | the largest total cost: no summary exceeds it and one attains it |
| Settlement.SavingRow | energy_provider_comparison/energy_provider_comparison.py:689-690 | the saving plus the provider's total is the maximum; the percentage times the maximum is 100 × the saving, and it is absent when the maximum is zero |
| Settlement.Savings | energy_provider_comparison/energy_provider_comparison.py:687-690 | computed exactly when there is more than one provider; one row per provider, every saving non-negative, and some provider (the most expensive) saves zero |
| Settlement.LastRankedSavesNothing | energy_provider_comparison/energy_provider_comparison.py:688-692 | in the ranked table the last provider is the most expensive and its saving is zero |
| Comparison.AppendNew | energy_provider_comparison/energy_provider_comparison.py:317-319 | assigning names into a dict keeps existing keys in place, appends new ones once, and keeps the keys duplicate-free |
| Comparison.SettleAllPointwise | energy_provider_comparison/energy_provider_comparison.py:240-282 | the i-th settled row is the settlement of the i-th reading |
| Comparison.SimulateAll | energy_provider_comparison/energy_provider_comparison.py:317-319 | the results table after the run has the old keys plus every simulated name |
| Comparison.SimulateAllTables | energy_provider_comparison/energy_provider_comparison.py:317-321 | every simulated provider holds its own table and every other old entry is kept |
| Comparison.SettleSeries | energy_provider_comparison/energy_provider_comparison.py:240-282 | the settlement loop yields the settlement of every reading, in order |
| Comparison.EnergyProviderComparison.constructor | energy_provider_comparison/energy_provider_comparison.py:81-90 | no providers, no data, no results, no cached interval |
| Comparison.EnergyProviderComparison.AddProvider | energy_provider_comparison/energy_provider_comparison.py:92-95 | the provider is registered under its name, replacing one of the same name in place, and nothing else changes |
| Comparison.DetectedIntervalIsEarliestGap | energy_provider_comparison/energy_provider_comparison.py:230-235 | over a sorted series the detected interval is non-negative and no later reading is closer to the first than that interval |
| Comparison.EnergyProviderComparison.LoadData | energy_provider_comparison/energy_provider_comparison.py:150-153 | the series, which must be sorted by timestamp, becomes the data of later simulations, and sortedness is part of the object's invariant |
| Comparison.EnergyProviderComparison.SimulateProvider | energy_provider_comparison/energy_provider_comparison.py:215-308 | an unknown provider or missing data fails with nothing changed; otherwise the interval is detected once and cached, then an empty series fails (its frame has no `timestamp` column) and any other series yields the settled, daily-merged table |
| Comparison.EnergyProviderComparison.RunComparison | energy_provider_comparison/energy_provider_comparison.py:310-321 | fails with no providers or no data and changes nothing; an empty series caches the interval and fails with the results untouched; otherwise every provider, in insertion order, is simulated into the results table |
| Comparison.EnergyProviderComparison.SimulateEach | energy_provider_comparison/energy_provider_comparison.py:317-319 | after the loop the results and their order are those of simulating every provider in turn with one shared interval |
| Comparison.EnergyProviderComparison.SimulateNext | energy_provider_comparison/energy_provider_comparison.py:317-319 | one iteration extends the results of the first i providers to those of the first i + 1 |
| Comparison.EnergyProviderComparison.SimulateInto | energy_provider_comparison/energy_provider_comparison.py:319 | one provider's table is stored under its name |
| Comparison.EnergyProviderComparison.CalculateSummaryStats | energy_provider_comparison/energy_provider_comparison.py:323-417 | fails before any simulation, or when no provider has a row in the range; otherwise the summaries of the providers with rows in range, in results order, ranked by total cost |
| Battery.PeakPriceIffInWindow | solar_simulation.py:83-89 | with distinct prices, the peak price is charged exactly when the hour is in [peak start, peak end), and the off-peak price exactly otherwise |
| Battery.PeakWindowDoesNotWrap | solar_simulation.py:86 | a window whose start is not before its end is empty: everything is off-peak |
| Battery.DefaultPeakWindow | solar_simulation.py:20-23 | with the defaults, 06:59:59 is off-peak at 0.09, 07:00 and 20:59:59 are peak at 0.26, and 21:00 is off-peak |
| Battery.DispatchStep | solar_simulation.py:150-191 | purchase and sale are non-negative; charge − discharge + sale − purchase = net power; a surplus charges at most the surplus, the rate and headroom/efficiency (reaching one of them) and neither discharges nor buys; a deficit mirrors this; a zero net power changes nothing |
| Battery.PhysicalStep | solar_simulation.py:156-191 | within physical limits, charge and discharge are non-negative, the level stays in [0, capacity], and it moves by charge × efficiency − discharge / efficiency: the clamps never bite |
| Battery.DispatchAccounting | solar_simulation.py:165-167 | per step, discharge = efficiency × (drop in level) + efficiency² × charge |
| Battery.IdleStep | solar_simulation.py:150-156 | a step with zero net power keeps the level, moves no energy and costs nothing |
| Battery.StepRow | solar_simulation.py:193-210 | the state of charge times the capacity is the level; the cost is purchase × buy price − sale × sell price, with no GST and no daily charge |
| Battery.StepAccounting | solar_simulation.py:156-191 | every row of a physical run keeps the per-step accounting |
| Battery.SimulateRun | solar_simulation.py:138-214 | one result row per reading |
| Battery.LevelWithinCapacity | solar_simulation.py:139-191 | starting within physical limits, every row has non-negative flows and a level in [0, capacity], and so does the end of the run |
| Battery.StepsAreDispatches | solar_simulation.py:140-211 | each row is the step of its own reading taken from the level the previous row left |
| Battery.LastStepLevel | solar_simulation.py:166-186 | the level the run ends with is that of its last row |
| Battery.ChainedAppend | solar_simulation.py:140-211 | a chain of accounted rows extended by a row accounted from its end is a chain |
| Battery.RunIsChained | solar_simulation.py:139-191 | a physical run is a chain of accounted rows ending at the run's final level |
| Battery.ChainedTotals | solar_simulation.py:264-265 | summed over a chain, total discharge = efficiency × (start − end level) + efficiency² × total charge |
| Battery.EnergyAccounting | solar_simulation.py:264-265 | over a physical run, the battery delivers efficiency × the drop in level plus efficiency² × what it took in |
| Battery.ClosedCycleRoundTrip | solar_simulation.py:264-266 | over a run that ends at its starting level, discharged = efficiency² × charged |
| Battery.GridBalance | solar_simulation.py:150-191 | over the run, energy sold − energy bought = net generation − net energy put into the battery |
| Battery.BaselineRow | solar_simulation.py:229-232 | the whole deficit is bought and the whole surplus sold: both non-negative, at most one positive, sale − purchase = net power, cost as in the battery run |
| Battery.BaselineRun | solar_simulation.py:216-247 | one baseline row per reading |
| Battery.BaselinePointwise | solar_simulation.py:220-244 | the i-th baseline row is the baseline step of the i-th reading |
| Battery.StepBuysNoMore | solar_simulation.py:174-191 | within physical limits a battery row never buys more than the baseline row of the same reading |
| Battery.RunBuysNoMore | solar_simulation.py:174-191 | over a physical run the battery buys no more grid energy than the baseline |
| Battery.BaselineIsZeroCapacity | solar_simulation.py:229-231 | the baseline is the dispatch rule for an empty battery of zero capacity |
| Battery.StepSaving | solar_simulation.py:194 | per reading, the baseline cost − the battery cost = discharge × buy price − charge × sell price |
| Battery.SavingsSplitAppend | solar_simulation.py:255-256 | the whole-series savings split survives appending one reading to both runs |
| Battery.SavingsDecomposition | solar_simulation.py:255-257 | cost without the battery − cost with it = the discharged energy valued at the buy price − the feed-in revenue given up on the energy charged |
| Solar.PurchasesSplit | solar_simulation.py:269-272 | for either results table, with two distinct price tiers the peak and off-peak filters together count every purchase exactly once |
| Solar.EconomicsOf | solar_simulation.py:254-291 | the daily costs are the cost columns' sums, savings are without − with and annual savings 365 × daily; charged and discharged are the column sums; the peak and off-peak purchases are the purchases billed at each price, and the reduction and increase are their differences; the payback exists exactly when annual savings are positive, and payback × annual savings = battery cost; ratio × charged = discharged when anything was charged, else 0; cycles × capacity = discharged when the capacity is positive, else 0 |
| Solar.EconomicsExplainSavings | solar_simulation.py:255-257 | the reported daily savings equal the discharged energy valued at the buy price minus the sell price × the energy charged |
| Solar.ClosedCycleRatio | solar_simulation.py:266 | over a closed cycle that charged anything, the reported round-trip efficiency is efficiency², not efficiency |
| Solar.RunPricesTwoTier | solar_simulation.py:148 | with distinct prices, every row of both runs is billed at one of the two tiers |
| Solar.PurchaseShift | solar_simulation.py:289-290 | peak reduction − off-peak increase = baseline purchases − battery purchases, which is non-negative for a physical battery |
| Solar.SolarBatterySimulator.constructor | solar_simulation.py:15-38 | the configuration and series are stored; no results yet |
| Solar.SolarBatterySimulator.Simulate | solar_simulation.py:132-214 | the rows are the run from level capacity × initial state of charge, and are stored as `results_df` |
| Solar.SolarBatterySimulator.Step | solar_simulation.py:141-210 | one loop iteration computes the row the dispatch rule specifies |
| Solar.SolarBatterySimulator.Move | solar_simulation.py:150-191 | the imperative branches compute the specified dispatch |
| Solar.SolarBatterySimulator.SimulateWithoutBattery | solar_simulation.py:216-247 | the rows are the baseline run, stored as `results_no_battery_df` |
| Solar.SolarBatterySimulator.CalculateEconomics | solar_simulation.py:249-293 | fails exactly when either simulation has not stored its results; fails when a stored table has no rows (its frame has no `cost` column); otherwise the economics of the two stored tables |

## Left out

- Reading CSV files, pivoting long-format data, JSON provider configuration, plotting,
  Excel export, argument parsing and printing are all I/O. The model starts from a series
  already loaded, sorted by timestamp and reduced to (timestamp, generation, consumption).
  `LoadData` requires that order instead of sorting.
- `identify_columns` is not modelled: column auto-detection by substring matching. So are
  the errors raised when the columns are not identified, and the KeyError that
  `simulate_provider` would hit by indexing a row with an unset column name.
- The pre-processing scripts (`aggregate_data.py`, `pivot_sensor_data.py`, and the
  `solar_simulator/` scripts) are not modelled: they only wrap pandas file transforms.
  `energy_provider_comparison/test_3tier_pricing.py` is not modelled either: it builds
  providers with keyword arguments the dataclass does not accept.
- Floating-point rounding and display rounding are not modelled; amounts are exact reals.
  An infinite payback period is `None`, and a savings percentage over a zero maximum is
  `None`.
- The `pd.Timestamp.now()` fallback for rows without a timestamp is not modelled: every
  reading has a timestamp.
- The data-span fields of the summary (`data_start_date`, `data_end_date`,
  `total_data_days`, `interval_minutes`) are not modelled: they are copied from load-time
  state. The backward-compatibility `peak`/`offpeak`/`night` purchase columns are also left
  out; they are looked up by name in the per-period breakdown, which is modelled.
- The order of providers with equal total cost is not modelled: pandas' `sort_values` is
  not stable, while the model sorts stably. The contract says sorted and a permutation,
  which holds for either.
- A zero `battery_efficiency` on a step that moves energy, and a zero `battery_capacity`
  with a non-empty series, raise `ZeroDivisionError` in the source. Here they are
  preconditions (`CanDispatch`, `CanSimulate`).
- `battery_life_years` is stored but never used by the source; it is kept in the
  configuration only.
- Battery.LevelWithinCapacity, Battery.PhysicalStep, Battery.EnergyAccounting,
  Battery.ClosedCycleRoundTrip and Battery.RunBuysNoMore assume a positive efficiency,
  non-negative rates and a starting level within the capacity (`Physical`). The source does
  not check these, and with negative rates its clamps do act.
- Solar.PurchasesSplit and Solar.PurchaseShift require the peak and off-peak prices to
  differ. With equal prices the source's two filters select the same rows and count every
  purchase twice.
- Settlement.GstScalesPurchasesOnly compares two settlements under the same prices
  (`SettleAt`); `SettleStep` shows that the provider's GST flag only selects the factor on
  the purchase term.
- Settlement.Summarize and the lemmas about it summarise a date group's daily charge as
  the charge of the group's first row, as `'first'` does. The equality with
  days × the provider's charge is proved for rows that all carry that charge
  (Settlement.SummaryChargesOncePerDate), which every window of a simulated table does
  (Comparison.SimulatedSummaryChargesOncePerDate).
- Settlement.FilterRows uses the inclusive whole-day window (`InWindow`), not the
  source's comparison with midnight of the end date; see Findings.
- Comparison.EnergyProviderComparison.CalculateSummaryStats filters with that same
  whole-day window, so its summaries include the whole end date.
- Settlement.PeriodBreakdown keeps one entry per declared period. The source stores the
  per-period totals in a dict keyed by name, so two periods with the same name collapse
  into one key; Settlement.BreakdownCoversRows therefore assumes distinct names.

## Findings

| source | as written | input that shows it | evidently intended | confidence | as-written member | corrected member |
|---|---|---|---|---|---|---|
| energy_provider_comparison/energy_provider_comparison.py:334-339 | timestamps are compared with the bare date strings `start_date` and `end_date`, which stand for midnight at the start of that day, so `timestamp <= end_date` keeps only the 00:00 reading of the end day | `end_date = "2024-01-01"`: the reading at 2024-01-01 12:00 is dropped while the one at 00:00 is kept, so the end day is charged a full daily charge for one step of energy | an inclusive range of whole days, keeping every reading of the end date | not executed | Settlement.AsWrittenSplitsEndDay | Settlement.WindowKeepsWholeDays |
