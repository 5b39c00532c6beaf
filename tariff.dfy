/** The time-of-use tariff resolver of `EnergyProvider`: which period, and so which
    buy and buyback prices, apply at a given timestamp. */
module Tariff {
  import opened Wrappers
  import opened Series

  /** One `{"start_hour", "end_hour", "days"}` entry of a period. */
  datatype TimeRange = TimeRange(startHour: int, endHour: int, days: seq<int>)

  datatype TimeOfUsePeriod = TimeOfUsePeriod(
    name: string,
    buyPrice: real,
    buybackPrice: real,
    timeRanges: seq<TimeRange>)

  datatype EnergyProvider = EnergyProvider(
    name: string,
    dailyCharge: real,
    timePeriods: seq<TimeOfUsePeriod>,
    gstApplicable: bool)

  /** What `get_pricing` returns: buy price, buyback price, period name. */
  datatype Pricing = Pricing(buy: real, buyback: real, periodName: string)

  /** The goods and services tax multiplier (15%). */
  const GstFactor: real := 1.15

  const UnknownPeriod: string := "unknown"

  /** `_hour_in_range`: the half-open hour range [start, end), read as wrapping
      past midnight when it does not run forwards. */
  predicate HourInRange(hour: int, startHour: int, endHour: int)
  {
    if endHour > startHour then startHour <= hour < endHour
    else hour >= startHour || hour < endHour
  }

  /** Number of clock hours the range covers, walking forwards from its start. */
  function ArcLength(startHour: int, endHour: int): int
  {
    if endHour > startHour then endHour - startHour else endHour - startHour + 24
  }

  /** On the clock, a range is the arc of ArcLength hours that starts at its start
      hour: an hour matches exactly when its forward distance from the start falls
      inside the arc. So a range whose end is not after its start wraps past midnight,
      and one whose start equals its end covers the whole day. */
  lemma HourInRangeIsClockArc(hour: int, startHour: int, endHour: int)
    requires 0 <= hour < 24 && 0 <= startHour < 24 && 0 <= endHour <= 24
    ensures HourInRange(hour, startHour, endHour) <==> (hour - startHour) % 24 < ArcLength(startHour, endHour)
  {
    if hour >= startHour {
      assert (hour - startHour) % 24 == hour - startHour;
    } else {
      assert (hour - startHour) % 24 == hour - startHour + 24;
    }
  }

  /** The midnight-crossover examples: 23-7 holds both 23:00 and 03:00 but not noon,
      and a range whose start equals its end holds every hour. */
  lemma MidnightCrossover()
    ensures HourInRange(23, 23, 7) && HourInRange(3, 23, 7) && !HourInRange(12, 23, 7)
    ensures forall h, s :: 0 <= h < 24 ==> HourInRange(h, s, s)
  {
  }

  predicate RangeMatches(r: TimeRange, weekday: int, hour: int)
  {
    weekday in r.days && HourInRange(hour, r.startHour, r.endHour)
  }

  /** Some range of the period holds the weekday and the hour. */
  predicate PeriodMatches(p: TimeOfUsePeriod, weekday: int, hour: int)
  {
    exists i :: 0 <= i < |p.timeRanges| && RangeMatches(p.timeRanges[i], weekday, hour)
  }

  /** Index of the period that the nested loops of `get_pricing` return from: the
      first one, in declaration order, that matches; None when none matches. */
  function FirstMatchingPeriod(periods: seq<TimeOfUsePeriod>, weekday: int, hour: int): (k: Option<nat>)
    ensures k.Some? ==> k.value < |periods| && PeriodMatches(periods[k.value], weekday, hour)
    ensures k.Some? ==> forall j :: 0 <= j < k.value ==> !PeriodMatches(periods[j], weekday, hour)
    ensures k.None? <==> forall j :: 0 <= j < |periods| ==> !PeriodMatches(periods[j], weekday, hour)
  {
    if |periods| == 0 then None
    else if PeriodMatches(periods[0], weekday, hour) then Some(0)
    else
      match FirstMatchingPeriod(periods[1..], weekday, hour)
      case None => None
      case Some(k) => Some(k + 1)
  }

  /** `get_pricing`: the prices and name of the first matching period; when no range
      matches, the first period's prices under the label "unknown"; with no periods
      at all, zero prices and "unknown". */
  function GetPricing(provider: EnergyProvider, t: Timestamp): (r: Pricing)
    ensures forall k :: 0 <= k < |provider.timePeriods| && PeriodMatches(provider.timePeriods[k], Weekday(t), Hour(t))
                        && (forall j :: 0 <= j < k ==> !PeriodMatches(provider.timePeriods[j], Weekday(t), Hour(t)))
                    ==> r == Pricing(provider.timePeriods[k].buyPrice, provider.timePeriods[k].buybackPrice,
                                     provider.timePeriods[k].name)
    ensures (forall k :: 0 <= k < |provider.timePeriods| ==> !PeriodMatches(provider.timePeriods[k], Weekday(t), Hour(t)))
            ==> r == if |provider.timePeriods| == 0 then Pricing(0.0, 0.0, UnknownPeriod)
                     else Pricing(provider.timePeriods[0].buyPrice, provider.timePeriods[0].buybackPrice, UnknownPeriod)
  {
    var periods := provider.timePeriods;
    match FirstMatchingPeriod(periods, Weekday(t), Hour(t))
    case Some(k) => Pricing(periods[k].buyPrice, periods[k].buybackPrice, periods[k].name)
    case None =>
      if |periods| > 0 then Pricing(periods[0].buyPrice, periods[0].buybackPrice, UnknownPeriod)
      else Pricing(0.0, 0.0, UnknownPeriod)
  }

  /** Whatever the timestamp, the resolved prices are those of a declared period (or
      zero when none is declared), and a period name other than "unknown" belongs to
      a period whose ranges hold that timestamp. */
  lemma PricingComesFromDeclaredPeriod(provider: EnergyProvider, t: Timestamp)
    ensures var r := GetPricing(provider, t);
            (|provider.timePeriods| == 0 ==> r == Pricing(0.0, 0.0, UnknownPeriod))
            && (|provider.timePeriods| > 0 ==>
                  exists k :: 0 <= k < |provider.timePeriods|
                              && r.buy == provider.timePeriods[k].buyPrice
                              && r.buyback == provider.timePeriods[k].buybackPrice
                              && (r.periodName == provider.timePeriods[k].name || r.periodName == UnknownPeriod)
                              && (r.periodName != UnknownPeriod ==> PeriodMatches(provider.timePeriods[k], Weekday(t), Hour(t))))
  {
    var periods := provider.timePeriods;
    match FirstMatchingPeriod(periods, Weekday(t), Hour(t))
    case Some(k) =>
      assert periods[k].buyPrice == GetPricing(provider, t).buy;
    case None =>
      if |periods| > 0 {
        assert periods[0].buyPrice == GetPricing(provider, t).buy;
      }
  }

  /** `get_daily_charge`: the fixed charge, with GST when the provider applies it; the
      date passed in plays no part. */
  function GetDailyCharge(provider: EnergyProvider, date: Timestamp): (c: real)
    ensures provider.gstApplicable ==> c == provider.dailyCharge * GstFactor
    ensures !provider.gstApplicable ==> c == provider.dailyCharge
  {
    if provider.gstApplicable then provider.dailyCharge * GstFactor else provider.dailyCharge
  }

  /** The daily charge is the same on every date. */
  lemma DailyChargeIgnoresDate(provider: EnergyProvider, d1: Timestamp, d2: Timestamp)
    ensures GetDailyCharge(provider, d1) == GetDailyCharge(provider, d2)
  {
  }
}
