/** The time series both engines replay: timestamps, readings and sums over them. */
module Series {

  /** Seconds since midnight. */
  type SecondOfDay = s: int | 0 <= s < 86400

  /** A naive timestamp: a calendar day (days since 1970-01-01) and the time of day
      in whole seconds. */
  datatype Timestamp = Timestamp(day: int, secondOfDay: SecondOfDay)

  /** `timestamp.hour`: 0..23. */
  function Hour(t: Timestamp): (h: int)
    ensures 0 <= h < 24
    ensures h * 3600 <= t.secondOfDay < (h + 1) * 3600
  {
    t.secondOfDay / 3600
  }

  /** `timestamp.weekday()`: 0 = Monday .. 6 = Sunday; 1970-01-01 was a Thursday. */
  function Weekday(t: Timestamp): (w: int)
    ensures 0 <= w < 7
  {
    (t.day + 3) % 7
  }

  /** `(t1 - t0).total_seconds()`. */
  function SecondsBetween(t0: Timestamp, t1: Timestamp): int {
    (t1.day - t0.day) * 86400 + (t1.secondOfDay - t0.secondOfDay)
  }

  /** The order `load_data` leaves the series in: sorted by timestamp. */
  predicate Chronological(rows: seq<Reading>)
  {
    forall i, j :: 0 <= i < j < |rows| ==> SecondsBetween(rows[i].timestamp, rows[j].timestamp) >= 0
  }

  /** One row of the input series after loading and column identification:
      photovoltaic generation and consumption, both as instantaneous power (kW). */
  datatype Reading = Reading(timestamp: Timestamp, pvPower: real, consumedPower: real)

  /** Python's two-argument `max` and `min` on amounts. */
  function Max(a: real, b: real): real { if a >= b then a else b }

  function Min(a: real, b: real): real { if a <= b then a else b }

  /** `Series.sum()` over one column, the column given as a selector. */
  function Sum<T>(s: seq<T>, f: T -> real): real
  {
    if |s| == 0 then 0.0 else f(s[0]) + Sum(s[1..], f)
  }

  lemma {:induction false} SumAppend<T>(s: seq<T>, t: seq<T>, f: T -> real)
    ensures Sum(s + t, f) == Sum(s, f) + Sum(t, f)
  {
    if |s| == 0 {
      assert s + t == t;
    } else {
      assert (s + t)[1..] == s[1..] + t;
      SumAppend(s[1..], t, f);
    }
  }

  lemma SumSingleton<T>(x: T, f: T -> real)
    ensures Sum([x], f) == f(x)
  {
    assert [x][1..] == [];
  }

  /** Two index-aligned columns compare row by row, so their totals compare. */
  lemma {:induction false} SumMonotone<A, B>(s: seq<A>, t: seq<B>, f: A -> real, g: B -> real)
    requires |s| == |t|
    requires forall i :: 0 <= i < |s| ==> f(s[i]) <= g(t[i])
    ensures Sum(s, f) <= Sum(t, g)
  {
    if |s| > 0 {
      assert f(s[0]) <= g(t[0]);
      SumMonotone(s[1..], t[1..], f, g);
    }
  }

  /** Dividing and multiplying back by a non-zero real is the identity. */
  lemma DivThenMul(x: real, y: real, q: real)
    requires y != 0.0 && q == x / y
    ensures q * y == x
  {
  }

  /** Column sums keep a per-row balance: when every row has f - g == h - k, so do
      the totals. */
  lemma {:induction false} SumBalance<T>(s: seq<T>, f: T -> real, g: T -> real, h: T -> real, k: T -> real)
    requires forall i :: 0 <= i < |s| ==> f(s[i]) - g(s[i]) == h(s[i]) - k(s[i])
    ensures Sum(s, f) - Sum(s, g) == Sum(s, h) - Sum(s, k)
  {
    if |s| > 0 {
      SumBalance(s[1..], f, g, h, k);
    }
  }
}
