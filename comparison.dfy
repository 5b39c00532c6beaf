/** `EnergyProviderComparison`: the registry of providers, the per-provider
    simulation over one shared input series, and the ranked summary table. */
module Comparison {
  import opened Wrappers
  import opened Series
  import opened Tariff
  import opened Settlement

  /** The `ValueError`s this part of the program raises. */
  datatype ComparisonError =
    | ProviderNotFound(name: string)
    | DataNotLoaded
    | NoProvidersAdded
    | SimulationNotRun
      /** The settled rows of an empty series make a frame with no columns, and
          reading its `timestamp` column raises. */
    | EmptySeries
      /** `pd.DataFrame([]).sort_values('total_cost')` raises when no provider has a
          row inside the date range. */
    | EmptySummary

  predicate NoDuplicates(names: seq<string>)
  {
    forall i, j :: 0 <= i < j < |names| ==> names[i] != names[j]
  }

  /** Insertion order of a dict after assigning each of `names` in turn: a key
      already present keeps its place, a new key goes to the end. */
  function AppendNew(order: seq<string>, names: seq<string>): (r: seq<string>)
    ensures NoDuplicates(order) ==> NoDuplicates(r)
    ensures forall n :: n in r <==> n in order || n in names
    ensures |order| <= |r| && r[..|order|] == order
    decreases |names|
  {
    if |names| == 0 then order
    else if names[0] in order then AppendNew(order, names[1..])
    else AppendNew(order + [names[0]], names[1..])
  }

  /** The interval detected from the first two readings, in minutes; one minute when
      there are fewer than two. */
  function DetectInterval(rows: seq<Reading>): real
  {
    if |rows| >= 2 then SecondsBetween(rows[0].timestamp, rows[1].timestamp) as real / 60.0 else 1.0
  }

  /** On a series sorted by timestamp the detected interval is the gap between the
      two earliest readings: never negative, and no later reading is closer to the
      first one. */
  lemma DetectedIntervalIsEarliestGap(rows: seq<Reading>)
    requires Chronological(rows)
    ensures DetectInterval(rows) >= 0.0
    ensures forall j :: 1 <= j < |rows| ==>
              DetectInterval(rows) * 60.0 <= SecondsBetween(rows[0].timestamp, rows[j].timestamp) as real
  {
    if |rows| >= 2 {
      assert SecondsBetween(rows[0].timestamp, rows[1].timestamp) >= 0;
      forall j | 1 <= j < |rows|
        ensures DetectInterval(rows) * 60.0 <= SecondsBetween(rows[0].timestamp, rows[j].timestamp) as real
      {
        if j > 1 {
          assert SecondsBetween(rows[1].timestamp, rows[j].timestamp) >= 0;
        }
      }
    }
  }

  /** A non-empty registry lists at least one name. */
  lemma KeysListed(providers: map<string, EnergyProvider>, order: seq<string>)
    requires forall n :: n in providers <==> n in order
    requires providers != map[]
    ensures |order| > 0
  {
    var n :| n in providers;
    assert n in order;
  }

  /** The interval a simulation uses: the cached one, or else the one detected from
      the series. */
  function IntervalFor(cached: Option<real>, rows: seq<Reading>): real
  {
    if cached.Some? then cached.value else DetectInterval(rows)
  }

  /** The per-reading settlement of one provider over the series, in order. */
  function SettleAll(provider: EnergyProvider, rows: seq<Reading>, intervalMinutes: real): (steps: seq<StepResult>)
    ensures |steps| == |rows|
  {
    if |rows| == 0 then []
    else SettleAll(provider, rows[..|rows| - 1], intervalMinutes) + [SettleStep(provider, rows[|rows| - 1], intervalMinutes)]
  }

  /** Each settled row is the settlement of the reading at the same position. */
  lemma {:induction false} SettleAllPointwise(provider: EnergyProvider, rows: seq<Reading>, intervalMinutes: real, i: int)
    requires 0 <= i < |rows|
    ensures SettleAll(provider, rows, intervalMinutes)[i] == SettleStep(provider, rows[i], intervalMinutes)
  {
    if i < |rows| - 1 {
      SettleAllPointwise(provider, rows[..|rows| - 1], intervalMinutes, i);
    }
  }

  /** The table `simulate_provider` returns for one provider. */
  function ProviderTable(provider: EnergyProvider, rows: seq<Reading>, intervalMinutes: real): seq<ResultRow>
  {
    MergeDailyTotals(SettleAll(provider, rows, intervalMinutes), provider)
  }

  /** Every row of a simulated table, and so every row a window keeps, carries the
      provider's one daily charge. */
  lemma {:induction false} FilteredChargesUniform(provider: EnergyProvider, steps: seq<StepResult>, w: DateWindow, date: Timestamp)
    ensures var kept := FilterRows(MergeDailyTotals(steps, provider), w);
            forall i :: 0 <= i < |kept| ==> kept[i].dailyCharge == GetDailyCharge(provider, date)
  {
    var table := MergeDailyTotals(steps, provider);
    var kept := FilterRows(table, w);
    forall i | 0 <= i < |kept|
      ensures kept[i].dailyCharge == GetDailyCharge(provider, date)
    {
      assert kept[i] in table;
      var j :| 0 <= j < |table| && table[j] == kept[i];
      DailyChargeIgnoresDate(provider, steps[j].timestamp, date);
    }
  }

  /** A summary of a simulated provider's rows, whatever window filtered them, counts
      the provider's daily charge once per distinct date: its total daily charges are
      the number of analysis days times that charge. */
  lemma SimulatedSummaryChargesOncePerDate(provider: EnergyProvider, name: string, rows: seq<Reading>,
                                           intervalMinutes: real, w: DateWindow, kept: seq<ResultRow>, date: Timestamp)
    requires kept == FilterRows(ProviderTable(provider, rows, intervalMinutes), w)
    ensures Summarize(provider, name, kept).totalDailyCharges
            == Summarize(provider, name, kept).analysisDays as real * GetDailyCharge(provider, date)
    ensures Summarize(provider, name, kept).totalCost
            == Sum(kept, RowEnergyCost) + Summarize(provider, name, kept).analysisDays as real * GetDailyCharge(provider, date)
  {
    FilteredChargesUniform(provider, SettleAll(provider, rows, intervalMinutes), w, date);
    SummaryChargesOncePerDate(provider, name, kept, GetDailyCharge(provider, date));
  }

  /** The results table after `run_comparison` has simulated each of `names` in turn,
      starting from the table `base`. */
  function SimulateAll(base: map<string, seq<ResultRow>>, providers: map<string, EnergyProvider>,
                       names: seq<string>, rows: seq<Reading>, intervalMinutes: real): (m: map<string, seq<ResultRow>>)
    requires forall n :: n in names ==> n in providers
    ensures m.Keys == base.Keys + (set n | n in names)
  {
    if |names| == 0 then base
    else
      var name := names[|names| - 1];
      SimulateAll(base, providers, names[..|names| - 1], rows, intervalMinutes)[name := ProviderTable(providers[name], rows, intervalMinutes)]
  }

  /** After the run every provider simulated holds its own table, and every other
      entry of the starting table is kept. */
  lemma {:induction false} SimulateAllTables(base: map<string, seq<ResultRow>>, providers: map<string, EnergyProvider>,
                                            names: seq<string>, rows: seq<Reading>, intervalMinutes: real, n: string)
    requires forall n :: n in names ==> n in providers
    ensures n in names ==> SimulateAll(base, providers, names, rows, intervalMinutes)[n] == ProviderTable(providers[n], rows, intervalMinutes)
    ensures n !in names && n in base ==> SimulateAll(base, providers, names, rows, intervalMinutes)[n] == base[n]
  {
    if |names| > 0 && n != names[|names| - 1] {
      assert n in names ==> n in names[..|names| - 1];
      SimulateAllTables(base, providers, names[..|names| - 1], rows, intervalMinutes, n);
    }
  }

  /** The summaries the `calculate_summary_stats` loop appends, in the order of the
      results table, skipping providers with no row inside the range. */
  function CollectSummaries(order: seq<string>, results: map<string, seq<ResultRow>>,
                            providers: map<string, EnergyProvider>, w: DateWindow): seq<ProviderSummary>
    requires forall n :: n in order ==> n in results && n in providers
  {
    if |order| == 0 then []
    else
      var name := order[|order| - 1];
      var rows := FilterRows(results[name], w);
      CollectSummaries(order[..|order| - 1], results, providers, w)
        + (if |rows| == 0 then [] else [Summarize(providers[name], name, rows)])
  }

  class EnergyProviderComparison {
    var providers: map<string, EnergyProvider>
    /** Insertion order of `providers`. */
    var providerOrder: seq<string>
    /** The loaded series, already sorted by timestamp; None until loaded. */
    var data: Option<seq<Reading>>
    var results: map<string, seq<ResultRow>>
    /** Insertion order of `results`. */
    var resultOrder: seq<string>
    /** Detected once, on the first simulation, and reused for every later one. */
    var intervalMinutes: Option<real>

    ghost predicate Valid()
      reads this
    {
      && NoDuplicates(providerOrder)
      && (forall n :: n in providers <==> n in providerOrder)
      && NoDuplicates(resultOrder)
      && (forall n :: n in results <==> n in resultOrder)
      && (forall n :: n in results ==> n in providers)
      && (data.Some? ==> Chronological(data.value))
    }

    constructor ()
      ensures Valid()
      ensures providers == map[] && providerOrder == [] && data == None
      ensures results == map[] && resultOrder == [] && intervalMinutes == None
    {
      providers := map[];
      providerOrder := [];
      data := None;
      results := map[];
      resultOrder := [];
      intervalMinutes := None;
    }

    /** `add_provider`: registers the provider under its name, replacing one of the
        same name in place. */
    method AddProvider(provider: EnergyProvider)
      requires Valid()
      modifies this
      ensures Valid()
      ensures providers == old(providers)[provider.name := provider]
      ensures providerOrder == if provider.name in old(providers) then old(providerOrder)
                               else old(providerOrder) + [provider.name]
      ensures data == old(data) && results == old(results) && resultOrder == old(resultOrder)
      ensures intervalMinutes == old(intervalMinutes)
    {
      if provider.name !in providers {
        providerOrder := providerOrder + [provider.name];
      }
      providers := providers[provider.name := provider];
    }

    /** `load_data` once the file has been read: the parsed series, sorted by timestamp,
        becomes the data of every later simulation. */
    method LoadData(rows: seq<Reading>)
      requires Valid() && Chronological(rows)
      modifies this`data
      ensures Valid() && data == Some(rows)
    {
      data := Some(rows);
    }

    /** `simulate_provider`: fails for an unknown provider or a missing series;
        otherwise fixes the interval on first use and settles every reading, which
        fails when there is no reading to settle. */
    method SimulateProvider(name: string) returns (r: Result<seq<ResultRow>, ComparisonError>)
      requires Valid()
      modifies this`intervalMinutes
      ensures Valid()
      ensures name !in providers ==> r == Err(ProviderNotFound(name)) && intervalMinutes == old(intervalMinutes)
      ensures name in providers && data.None? ==> r == Err(DataNotLoaded) && intervalMinutes == old(intervalMinutes)
      ensures name in providers && data.Some? ==>
                && intervalMinutes == Some(IntervalFor(old(intervalMinutes), data.value))
                && r == if |data.value| == 0 then Err(EmptySeries)
                        else Ok(ProviderTable(providers[name], data.value, intervalMinutes.value))
    {
      if name !in providers {
        return Err(ProviderNotFound(name));
      }
      if data.None? {
        return Err(DataNotLoaded);
      }
      var provider := providers[name];
      var rows := data.value;
      if intervalMinutes.None? {
        intervalMinutes := Some(DetectInterval(rows));
      }
      var steps := SettleSeries(provider, rows, intervalMinutes.value);
      if |steps| == 0 {
        return Err(EmptySeries);
      }
      r := Ok(MergeDailyTotals(steps, provider));
    }

    /** `run_comparison`: simulates every provider, in insertion order, into the
        results table. */
    method RunComparison() returns (r: Result<map<string, seq<ResultRow>>, ComparisonError>)
      requires Valid()
      modifies this`intervalMinutes, this`results, this`resultOrder
      ensures Valid()
      ensures r == if providers == map[] then Err(NoProvidersAdded)
                   else if data.None? then Err(DataNotLoaded)
                   else if |data.value| == 0 then Err(EmptySeries)
                   else Ok(results)
      ensures intervalMinutes == if providers == map[] || data.None? then old(intervalMinutes)
                                 else Some(IntervalFor(old(intervalMinutes), data.value))
      ensures r.Err? ==> results == old(results) && resultOrder == old(resultOrder)
      ensures r.Ok? ==> && results == SimulateAll(old(results), providers, providerOrder, data.value, intervalMinutes.value)
                        && resultOrder == AppendNew(old(resultOrder), providerOrder)
    {
      if providers == map[] {
        return Err(NoProvidersAdded);
      }
      if data.None? {
        // the first simulate_provider call raises before anything is stored
        return Err(DataNotLoaded);
      }
      if |data.value| == 0 {
        // the first simulate_provider call caches the interval, then raises
        if intervalMinutes.None? {
          intervalMinutes := Some(DetectInterval(data.value));
        }
        return Err(EmptySeries);
      }
      KeysListed(providers, providerOrder);
      SimulateEach();
      r := Ok(results);
    }

    /** The loop of `run_comparison` over the registered providers, with the series
        loaded. */
    method SimulateEach()
      requires Valid() && data.Some? && |data.value| > 0 && providerOrder != []
      modifies this`intervalMinutes, this`results, this`resultOrder
      ensures Valid()
      ensures intervalMinutes == Some(IntervalFor(old(intervalMinutes), data.value))
      ensures results == SimulateAll(old(results), providers, providerOrder, data.value, intervalMinutes.value)
      ensures resultOrder == AppendNew(old(resultOrder), providerOrder)
    {
      ghost var interval := IntervalFor(intervalMinutes, data.value);
      ghost var results0, order0, rows := results, resultOrder, data.value;
      var names := providerOrder;
      var i := 0;
      while i < |names|
        invariant 0 <= i <= |names|
        invariant Valid() && data == Some(rows) && providerOrder == names
        invariant intervalMinutes == if i == 0 then old(intervalMinutes) else Some(interval)
        invariant results == SimulateAll(results0, providers, names[..i], rows, interval)
        invariant resultOrder == AppendNew(order0, names[..i])
      {
        SimulateNext(i, results0, order0, interval);
        i := i + 1;
      }
      assert names[..i] == names;
    }

    /** The body of the `run_comparison` loop for the provider at position `i`: the
        tables of the first `i` providers become those of the first `i + 1`. */
    method SimulateNext(i: nat, ghost results0: map<string, seq<ResultRow>>, ghost order0: seq<string>, ghost interval: real)
      requires Valid() && data.Some? && |data.value| > 0 && i < |providerOrder|
      requires IntervalFor(intervalMinutes, data.value) == interval
      requires results == SimulateAll(results0, providers, providerOrder[..i], data.value, interval)
      requires resultOrder == AppendNew(order0, providerOrder[..i])
      modifies this`intervalMinutes, this`results, this`resultOrder
      ensures Valid() && intervalMinutes == Some(interval)
      ensures results == SimulateAll(results0, providers, providerOrder[..i + 1], data.value, interval)
      ensures resultOrder == AppendNew(order0, providerOrder[..i + 1])
    {
      var name := providerOrder[i];
      assert name in providers;
      SimulateInto(name);
      SimulateAllPrefixStep(results0, providers, providerOrder, i, data.value, interval);
      AppendNewPrefixStep(order0, providerOrder, i);
    }

    /** One iteration of `run_comparison`: `self.results[name] = self.simulate_provider(name)`. */
    method SimulateInto(name: string)
      requires Valid() && name in providers && data.Some? && |data.value| > 0
      modifies this`intervalMinutes, this`results, this`resultOrder
      ensures Valid()
      ensures intervalMinutes == Some(IntervalFor(old(intervalMinutes), data.value))
      ensures results == old(results)[name := ProviderTable(providers[name], data.value, intervalMinutes.value)]
      ensures resultOrder == if name in old(resultOrder) then old(resultOrder) else old(resultOrder) + [name]
    {
      var table := SimulateProvider(name);
      results := results[name := table.value];
      if name !in resultOrder {
        resultOrder := resultOrder + [name];
      }
    }

    /** `calculate_summary_stats`: one summary per simulated provider with rows in the
        range, ranked ascending by total cost. */
    method CalculateSummaryStats(w: DateWindow) returns (r: Result<seq<ProviderSummary>, ComparisonError>)
      requires Valid()
      ensures results == map[] ==> r == Err(SimulationNotRun)
      ensures results != map[] ==>
                var all := CollectSummaries(resultOrder, results, providers, w);
                r == if |all| == 0 then Err(EmptySummary) else Ok(SortByTotalCost(all))
    {
      if results == map[] {
        return Err(SimulationNotRun);
      }
      var summaries: seq<ProviderSummary> := [];
      var i := 0;
      while i < |resultOrder|
        invariant 0 <= i <= |resultOrder|
        invariant summaries == CollectSummaries(resultOrder[..i], results, providers, w)
      {
        var name := resultOrder[i];
        var rows := FilterRows(results[name], w);
        assert resultOrder[..i + 1][..i] == resultOrder[..i];
        if |rows| > 0 {
          summaries := summaries + [Summarize(providers[name], name, rows)];
        }
        i := i + 1;
      }
      assert resultOrder[..i] == resultOrder;
      if |summaries| == 0 {
        return Err(EmptySummary);
      }
      r := Ok(SortByTotalCost(summaries));
    }
  }

  /** The row-by-row settlement loop of `simulate_provider`. */
  method SettleSeries(provider: EnergyProvider, rows: seq<Reading>, interval: real) returns (steps: seq<StepResult>)
    ensures steps == SettleAll(provider, rows, interval)
  {
    steps := [];
    var i := 0;
    while i < |rows|
      invariant 0 <= i <= |rows|
      invariant steps == SettleAll(provider, rows[..i], interval)
    {
      assert rows[..i + 1][..i] == rows[..i];
      steps := steps + [SettleStep(provider, rows[i], interval)];
      i := i + 1;
    }
    assert rows[..i] == rows;
  }

  /** Simulating one more provider of the run updates the table at that name. */
  lemma SimulateAllPrefixStep(base: map<string, seq<ResultRow>>, providers: map<string, EnergyProvider>,
                              names: seq<string>, i: int, rows: seq<Reading>, intervalMinutes: real)
    requires 0 <= i < |names|
    requires forall n :: n in names ==> n in providers
    ensures SimulateAll(base, providers, names[..i + 1], rows, intervalMinutes)
         == SimulateAll(base, providers, names[..i], rows, intervalMinutes)[names[i] := ProviderTable(providers[names[i]], rows, intervalMinutes)]
  {
    assert names[..i + 1][..i] == names[..i];
  }

  /** Assigning one more name of the run moves the insertion order on by that name. */
  lemma AppendNewPrefixStep(order: seq<string>, names: seq<string>, i: int)
    requires 0 <= i < |names|
    ensures AppendNew(order, names[..i + 1])
         == if names[i] in AppendNew(order, names[..i]) then AppendNew(order, names[..i])
            else AppendNew(order, names[..i]) + [names[i]]
  {
    assert names[..i + 1] == names[..i] + [names[i]];
    AppendNewStep(order, names[..i], names[i]);
  }

  lemma AppendNewStep(order: seq<string>, names: seq<string>, n: string)
    ensures AppendNew(order, names + [n])
         == if n in AppendNew(order, names) then AppendNew(order, names) else AppendNew(order, names) + [n]
    decreases |names|
  {
    if |names| > 0 {
      assert (names + [n])[1..] == names[1..] + [n];
      if names[0] in order {
        AppendNewStep(order, names[1..], n);
      } else {
        AppendNewStep(order + [names[0]], names[1..], n);
      }
    } else {
      assert names + [n] == [n];
    }
  }
}
