/** The efficiency tab: the per-trip consumption cards, the y-axis range of
    the monthly efficiency chart, whether the fuel line is drawn, and the
    thinning of the distance/efficiency scatter to at most a thousand points. */
module EfficiencyTab {
  import opened Wrappers
  import opened StableSort
  import opened RealStats
  import opened TripStats
  import ProcessData

  // ------------------------------------------------------------ cards

  /** `(total / summary.totalTrips).toFixed(2)`, kept as a number: `None`
      for no trips, where the division gives `NaN` or `Infinity`. Used for
      the energy and for the fuel total. */
  function PerTripConsumption(total: real, totalTrips: nat): (r: Option<real>)
    ensures r.Some? <==> totalTrips > 0
    ensures r.Some? ==> r.value * totalTrips as real == total
  {
    if totalTrips == 0 then None else Some(total / totalTrips as real)
  }

  // ------------------------------------------------------------ y-axis

  /** The range of the efficiency axis. */
  datatype Axis = Axis(min: int, max: int)

  /** `Math.ceil`. */
  function Ceil(x: real): (r: int)
    ensures x <= r as real < x + 1.0
  {
    -((-x).Floor)
  }

  /** `monthly.map(m => m.efficiency).filter(e => e !== 0)`: a month row
      always carries a number, so the `null` and `undefined` tests never
      drop one. */
  function NonZeroEfficiencies(monthly: seq<ProcessData.PeriodRow>): (r: seq<real>)
    ensures |r| <= |monthly|
    ensures forall k :: 0 <= k < |r| ==> r[k] != 0.0
    ensures forall k :: 0 <= k < |monthly| && monthly[k].efficiency != 0.0 ==> monthly[k].efficiency in r
    ensures forall e :: e in r ==> exists k :: 0 <= k < |monthly| && monthly[k].efficiency == e
  {
    if monthly == [] then []
    else
      var rest := NonZeroEfficiencies(monthly[1..]);
      assert forall k :: 1 <= k < |monthly| ==> monthly[k] == monthly[1..][k - 1];
      (if monthly[0].efficiency != 0.0 then [monthly[0].efficiency] else []) + rest
  }

  /** `efficiencyYAxis`: 0 to 30 without a non-zero month, otherwise one
      below the floor of the least value to one above the ceiling of the
      greatest. */
  function EfficiencyYAxis(monthly: seq<ProcessData.PeriodRow>): Axis {
    var vs := NonZeroEfficiencies(monthly);
    if vs == [] then Axis(0, 30)
    else Axis(MinOf(vs).Floor - 1, Ceil(MaxOf(vs)) + 1)
  }

  /** Without a non-zero month the axis is 0 to 30. Otherwise every non-zero
      month lies strictly inside it, more than one unit from either end, and
      the ends are tight: some month lies less than two units above the
      bottom, and some less than two units below the top. */
  lemma EfficiencyYAxisSpec(monthly: seq<ProcessData.PeriodRow>)
    ensures (forall k :: 0 <= k < |monthly| ==> monthly[k].efficiency == 0.0) ==> EfficiencyYAxis(monthly) == Axis(0, 30)
    ensures var a := EfficiencyYAxis(monthly);
      forall k :: 0 <= k < |monthly| && monthly[k].efficiency != 0.0 ==>
        (a.min + 1) as real <= monthly[k].efficiency <= (a.max - 1) as real
        && (exists j :: 0 <= j < |monthly| && monthly[j].efficiency != 0.0
                        && monthly[j].efficiency < (a.min + 2) as real)
        && (exists j :: 0 <= j < |monthly| && monthly[j].efficiency != 0.0
                        && monthly[j].efficiency > (a.max - 2) as real)
  {
    var vs := NonZeroEfficiencies(monthly);
    if vs != [] {
      var lo, hi := MinOf(vs), MaxOf(vs);
      var a := EfficiencyYAxis(monthly);
      assert a.min + 1 == lo.Floor && a.max - 1 == Ceil(hi);
      forall k | 0 <= k < |monthly| && monthly[k].efficiency != 0.0
        ensures (a.min + 1) as real <= monthly[k].efficiency <= (a.max - 1) as real
      {
        var e := monthly[k].efficiency;
        assert e in vs;
        var i :| 0 <= i < |vs| && vs[i] == e;
        assert lo <= e <= hi;
      }
      assert lo in vs && hi in vs;
      var i :| 0 <= i < |monthly| && monthly[i].efficiency == lo;
      var j :| 0 <= j < |monthly| && monthly[j].efficiency == hi;
      assert lo < (a.min + 2) as real;
      assert hi > (a.max - 2) as real;
    }
  }

  // ------------------------------------------------------------ fuel line

  /** `monthly.some(m => (m.fuelEfficiency ?? 0) > 0)`. */
  function AnyFuelMonth(monthly: seq<ProcessData.PeriodRow>): (r: bool)
    ensures r <==> exists k :: 0 <= k < |monthly| && monthly[k].fuelEfficiency > 0.0
  {
    if monthly == [] then false
    else if monthly[0].fuelEfficiency > 0.0 then true
    else
      assert forall k :: 1 <= k < |monthly| ==> monthly[k] == monthly[1..][k - 1];
      AnyFuelMonth(monthly[1..])
  }

  /** `hasHybridData`: the car is a hybrid and some month used fuel. */
  function HasHybridData(isHybrid: bool, monthly: seq<ProcessData.PeriodRow>): (r: bool)
    ensures r <==> isHybrid && exists k :: 0 <= k < |monthly| && monthly[k].fuelEfficiency > 0.0
  {
    isHybrid && AnyFuelMonth(monthly)
  }

  // ------------------------------------------------------------ scatter

  /** The scatter is drawn unthinned up to this many points. */
  const MaxPlain: nat := 1000

  /** How many of the lowest and of the highest points are always kept. */
  const Extremes: nat := 50

  /** How many of the middle points are kept at most. */
  const MiddleBudget: nat := 900

  /** The comparator `(a, b) => a.y - b.y`. */
  function YLe(): (ScatterPoint, ScatterPoint) -> bool {
    (a: ScatterPoint, b: ScatterPoint) => a.y <= b.y
  }

  /** `[...points].sort((a, b) => a.y - b.y)`: ascending efficiency, the same
      points. */
  function SortByY(points: seq<ScatterPoint>): (r: seq<ScatterPoint>)
    ensures |r| == |points| && multiset(r) == multiset(points)
    ensures forall i, j :: 0 <= i < j < |r| ==> r[i].y <= r[j].y
  {
    SortBySorted(points, YLe());
    SortBy(points, YLe())
  }

  /** `s.filter((_, i) => i % stride === 0)` on the part of a list that starts
      at index `offset`. */
  function KeepEvery<T>(s: seq<T>, stride: nat, offset: nat): seq<T>
    requires stride > 0
  {
    if s == [] then []
    else (if offset % stride == 0 then [s[0]] else []) + KeepEvery(s[1..], stride, offset + 1)
  }

  /** `Math.ceil(n / 900)` for a count `n`. */
  function Stride(n: nat): (r: nat)
    ensures n > 0 ==> r > 0
  {
    (n + MiddleBudget - 1) / MiddleBudget
  }

  /** `sampledScatterData`. */
  function SampledScatter(points: seq<ScatterPoint>): seq<ScatterPoint> {
    if |points| <= MaxPlain then points else SampleSorted(SortByY(points))
  }

  /** The sampling of a list already sorted by efficiency: its first and last
      50, then every stride-th point between them. */
  function SampleSorted(sorted: seq<ScatterPoint>): seq<ScatterPoint>
    requires |sorted| > MaxPlain
  {
    var n := |sorted|;
    var remaining := sorted[Extremes..n - Extremes];
    sorted[..Extremes] + sorted[n - Extremes..] + KeepEvery(remaining, Stride(|remaining|), 0)
  }

  /** The number of multiples of `d` below `n`. */
  function Multiples(n: nat, d: nat): nat
    requires d > 0
  {
    (n + d - 1) / d
  }

  /** One more number adds one multiple exactly when it is one. */
  lemma MultiplesStep(n: nat, d: nat)
    requires d > 0
    ensures Multiples(n + 1, d) == Multiples(n, d) + (if n % d == 0 then 1 else 0)
  {
    var q, m := n / d, n % d;
    assert n == q * d + m;
    assert n + d == (q + 1) * d + m;
    DivPlus(q + 1, d, m);
    if m == 0 {
      assert n + d - 1 == q * d + (d - 1);
      DivPlus(q, d, d - 1);
    } else {
      assert n + d - 1 == (q + 1) * d + (m - 1);
      DivPlus(q + 1, d, m - 1);
    }
  }

  lemma DivPlus(q: nat, d: nat, m: nat)
    requires 0 <= m < d
    ensures (q * d + m) / d == q
  {
    var k, r := (q * d + m) / d, (q * d + m) % d;
    assert (k - q) * d == m - r by {
      assert k * d + r == q * d + m;
    }
    if k > q {
      TimesAtLeast(k - q, d);
    } else if k < q {
      TimesAtLeast(q - k, d);
    }
  }

  lemma TimesAtLeast(x: int, d: nat)
    requires x >= 1
    ensures x * d >= d
  {
  }

  /** The elements kept are those whose index, counted from `offset`, is a
      multiple of the stride: as many as there are such indices, and each one
      taken from the list. */
  lemma {:induction false} KeepEverySpec<T>(s: seq<T>, stride: nat, offset: nat)
    requires stride > 0
    ensures |KeepEvery(s, stride, offset)| == Multiples(offset + |s|, stride) - Multiples(offset, stride)
    ensures multiset(KeepEvery(s, stride, offset)) <= multiset(s)
    decreases |s|
  {
    if s != [] {
      KeepEverySpec(s[1..], stride, offset + 1);
      MultiplesStep(offset, stride);
      assert s == [s[0]] + s[1..];
    }
  }

  /** The stride is the least one that leaves at most 900 middle points. */
  lemma StrideIsCeiling(n: nat)
    requires n > 0
    ensures (Stride(n) - 1) * MiddleBudget < n <= Stride(n) * MiddleBudget
  {
    DivPlus(Stride(n), MiddleBudget, (n + MiddleBudget - 1) % MiddleBudget);
  }

  /** A middle part thinned with its stride keeps at most 900 points. */
  lemma MiddleWithinBudget(remaining: seq<ScatterPoint>)
    requires |remaining| > 0
    ensures |KeepEvery(remaining, Stride(|remaining|), 0)| <= MiddleBudget
  {
    var d := Stride(|remaining|);
    KeepEverySpec(remaining, d, 0);
    StrideIsCeiling(|remaining|);
    assert Multiples(0, d) == 0;
    assert |remaining| + d - 1 <= MiddleBudget * d + d - 1;
    DivPlus(MiddleBudget, d, d - 1);
    assert MiddleBudget * d + d - 1 == MiddleBudget * d + (d - 1);
    DivMonotone(|remaining| + d - 1, MiddleBudget * d + (d - 1), d);
  }

  lemma DivMonotone(a: nat, b: nat, d: nat)
    requires d > 0 && a <= b
    ensures a / d <= b / d
  {
    var qa, qb := a / d, b / d;
    assert qa * d <= a && b < qb * d + d;
    if qa > qb {
      TimesAtLeast(qa - qb, d);
    }
  }

  /** Up to a thousand points the scatter is drawn as it is. */
  lemma SmallScatterUnchanged(points: seq<ScatterPoint>)
    requires |points| <= MaxPlain
    ensures SampledScatter(points) == points
  {
  }

  /** Above a thousand points the drawn points are some of the input points,
      at most a thousand: the 50 with the lowest efficiency, then the 50 with
      the highest, then at most 900 from between them. */
  lemma LargeScatterSpec(points: seq<ScatterPoint>)
    requires |points| > MaxPlain
    ensures var r := SampledScatter(points);
      var sorted := SortByY(points);
      var n := |points|;
      |r| <= MaxPlain
      && multiset(r) <= multiset(points)
      && r[..Extremes] == sorted[..Extremes]
      && r[Extremes..2 * Extremes] == sorted[n - Extremes..]
      && (forall i, j :: 0 <= i < Extremes <= j < n ==> sorted[i].y <= sorted[j].y)
      && (forall i, j :: 0 <= i < n - Extremes <= j < n ==> sorted[i].y <= sorted[j].y)
  {
    var sorted := SortByY(points);
    SampleSortedSpec(sorted);
  }

  lemma SampleSortedSpec(sorted: seq<ScatterPoint>)
    requires |sorted| > MaxPlain
    ensures var r, n := SampleSorted(sorted), |sorted|;
      |r| <= MaxPlain && multiset(r) <= multiset(sorted)
      && r[..Extremes] == sorted[..Extremes] && r[Extremes..2 * Extremes] == sorted[n - Extremes..]
  {
    var n := |sorted|;
    var remaining := sorted[Extremes..n - Extremes];
    var middle := KeepEvery(remaining, Stride(|remaining|), 0);
    MiddleWithinBudget(remaining);
    KeepEverySpec(remaining, Stride(|remaining|), 0);
    EndsAndMiddle(sorted, Extremes, middle);
  }

  /** The first and last `k` elements of a list, followed by some of the
      elements between them, are some of the list's elements. */
  lemma EndsAndMiddle<T>(s: seq<T>, k: nat, middle: seq<T>)
    requires 2 * k <= |s| && multiset(middle) <= multiset(s[k..|s| - k])
    ensures var r := s[..k] + s[|s| - k..] + middle;
      multiset(r) <= multiset(s) && r[..k] == s[..k] && r[k..2 * k] == s[|s| - k..]
  {
    var n := |s|;
    assert s == s[..k] + s[k..n - k] + s[n - k..];
    assert multiset(s) == multiset(s[..k]) + multiset(s[k..n - k]) + multiset(s[n - k..]);
  }
}
