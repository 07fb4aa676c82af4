/** The full trip list (its filter, its sort and the efficiency scale that
    scores each trip) and the history tab of the last ten trips, in its newer
    and older versions. */
module TripLists {
  import opened Wrappers
  import opened Records
  import opened JsText
  import opened StableSort
  import opened Seqs
  import opened RealStats
  import AppData
  import Formatters
  import TripInsights

  // ---------------------------------------------------------------- sorting

  /** `sortBy`: 'date', 'efficiency', 'distance', 'consumption', or any other
      value, under which every pair compares as equal. */
  datatype SortKey = ByDate | ByEfficiency | ByDistance | ByConsumption | Unsorted

  /** `sortOrder`: 'asc' negates every comparison, anything else keeps it. */
  datatype SortOrder = Asc | Desc

  function Sign(x: real): int { if x < 0.0 then -1 else if x > 0.0 then 1 else 0 }

  function IntSign(x: int): int { if x < 0 then -1 else if x > 0 then 1 else 0 }

  /** The consumption the efficiency sort reads: `Infinity` (`None`) unless the
      distance is positive and the energy is present and not 0. */
  function SortEfficiency(t: Trip): Option<real> {
    if t.trip.Some? && t.trip.value > 0.0 && t.electricity.Some? && t.electricity.value != 0.0
    then Some(t.electricity.value / t.trip.value * 100.0)
    else None
  }

  /** `effA - effB` as the sort reads it: `Infinity - Infinity` is `NaN`,
      which counts as 0. */
  function ExtCompare(a: Option<real>, b: Option<real>): int {
    match (a, b)
    case (None, None) => 0
    case (None, Some(_)) => 1
    case (Some(_), None) => -1
    case (Some(x), Some(y)) => Sign(x - y)
  }

  /** The comparator of the list before the order is applied. */
  function Comparison(key: SortKey, a: Trip, b: Trip): int {
    match key
    case ByDate =>
      var d := StrCompare(b.date, a.date);
      if d != 0 then d else IntSign(b.startTs - a.startTs)
    case ByEfficiency => ExtCompare(SortEfficiency(a), SortEfficiency(b))
    case ByDistance => Sign(Km(b) - Km(a))
    case ByConsumption => Sign(Kwh(b) - Kwh(a))
    case Unsorted => 0
  }

  function Directed(order: SortOrder, c: int): int { if order.Asc? then -c else c }

  /** "a may stay before b" under the comparator and the order. */
  function TripLe(key: SortKey, order: SortOrder): (Trip, Trip) -> bool {
    (a: Trip, b: Trip) => Directed(order, Comparison(key, a, b)) <= 0
  }

  /** What the default order puts first: the newer date, and on the same date
      the later start; the lower consumption, with `Infinity` last; the longer
      distance; the larger energy. */
  predicate Precedes(key: SortKey, a: Trip, b: Trip) {
    match key
    case ByDate => StrLt(b.date, a.date) || (a.date == b.date && b.startTs <= a.startTs)
    case ByEfficiency =>
      SortEfficiency(b).None? || (SortEfficiency(a).Some? && SortEfficiency(a).value <= SortEfficiency(b).value)
    case ByDistance => Km(b) <= Km(a)
    case ByConsumption => Kwh(b) <= Kwh(a)
    case Unsorted => true
  }

  /** Swapping the two trips negates the comparison. */
  lemma ComparisonAntisymmetric(key: SortKey, a: Trip, b: Trip)
    ensures Comparison(key, a, b) == -Comparison(key, b, a)
  {
  }

  /** The comparison is at most 0 exactly when the first trip precedes. */
  lemma ComparisonMeaning(key: SortKey, a: Trip, b: Trip)
    ensures Comparison(key, a, b) <= 0 <==> Precedes(key, a, b)
  {
  }

  /** The default order keeps `Precedes`; 'asc' reverses it. */
  lemma TripLeMeaning(key: SortKey, order: SortOrder, a: Trip, b: Trip)
    ensures order.Desc? ==> (TripLe(key, order)(a, b) <==> Precedes(key, a, b))
    ensures order.Asc? ==> (TripLe(key, order)(a, b) <==> Precedes(key, b, a))
  {
    ComparisonMeaning(key, a, b);
    ComparisonMeaning(key, b, a);
    ComparisonAntisymmetric(key, a, b);
  }

  /** Every key orders all trips and chains. */
  lemma PrecedesPreorder(key: SortKey)
    ensures forall a, b :: Precedes(key, a, b) || Precedes(key, b, a)
    ensures forall a, b, c :: Precedes(key, a, b) && Precedes(key, b, c) ==> Precedes(key, a, c)
  {
    forall a: Trip, b: Trip ensures Precedes(key, a, b) || Precedes(key, b, a) {
      StrLtTotal(a.date, b.date);
    }
    forall a: Trip, b: Trip, c: Trip | Precedes(key, a, b) && Precedes(key, b, c)
      ensures Precedes(key, a, c)
    {
      if key.ByDate? {
        if StrLt(b.date, a.date) && StrLt(c.date, b.date) {
          StrLtTransitive(c.date, b.date, a.date);
        }
      }
    }
  }

  lemma TripLePreorder(key: SortKey, order: SortOrder)
    ensures TotalPreorder(TripLe(key, order))
  {
    PrecedesPreorder(key);
    forall a, b ensures TripLe(key, order)(a, b) <==> (if order.Desc? then Precedes(key, a, b) else Precedes(key, b, a)) {
      TripLeMeaning(key, order, a, b);
    }
  }

  /** `list.sort(comparator)`: ordered by the comparator and a permutation of
      the list. */
  function SortTrips(ts: seq<Trip>, key: SortKey, order: SortOrder): (r: seq<Trip>)
    ensures |r| == |ts| && multiset(r) == multiset(ts)
    ensures SortedBy(r, TripLe(key, order))
  {
    TripLePreorder(key, order);
    SortBySorted(ts, TripLe(key, order));
    SortBy(ts, TripLe(key, order))
  }

  /** In the sorted list every earlier trip precedes every later one under
      the key, in the default order, and follows it under 'asc'. */
  lemma SortTripsOrder(ts: seq<Trip>, key: SortKey, order: SortOrder)
    ensures var r := SortTrips(ts, key, order);
      forall i, j :: 0 <= i < j < |r| ==>
        if order.Desc? then Precedes(key, r[i], r[j]) else Precedes(key, r[j], r[i])
  {
    var r := SortTrips(ts, key, order);
    forall i, j | 0 <= i < j < |r|
      ensures if order.Desc? then Precedes(key, r[i], r[j]) else Precedes(key, r[j], r[i])
    {
      TripLeMeaning(key, order, r[i], r[j]);
    }
  }

  // ------------------------------------------------------------ all trips

  /** The `finalTrips` of the full list: the strict month filter or the
      inclusive date range, then the sort. */
  function AllTrips(raw: seq<Trip>, ft: AppData.FilterType, month: string, dateFrom: string, dateTo: string,
                    key: SortKey, order: SortOrder): seq<Trip>
  {
    SortTrips(AppData.Filtered(AppData.JsHook, raw, ft, month, dateFrom, dateTo), key, order)
  }

  /** The list holds exactly the trips the filter keeps, as often as they
      occur, ordered by the key. */
  lemma AllTripsSpec(raw: seq<Trip>, ft: AppData.FilterType, month: string, dateFrom: string, dateTo: string,
                     key: SortKey, order: SortOrder)
    ensures var r := AllTrips(raw, ft, month, dateFrom, dateTo, key, order);
      (forall t :: t in r <==> t in raw && AppData.Keeps(AppData.JsHook, ft, month, dateFrom, dateTo, t))
      && multiset(r) == multiset(AppData.Filtered(AppData.JsHook, raw, ft, month, dateFrom, dateTo))
      && (forall i, j :: 0 <= i < j < |r| ==>
            if order.Desc? then Precedes(key, r[i], r[j]) else Precedes(key, r[j], r[i]))
  {
    var f := AppData.Filtered(AppData.JsHook, raw, ft, month, dateFrom, dateTo);
    var r := AllTrips(raw, ft, month, dateFrom, dateTo, key, order);
    AppData.FilteredSpec(AppData.JsHook, raw, ft, month, dateFrom, dateTo);
    SortTripsOrder(f, key, order);
    forall t ensures t in r <==> t in f {
      assert t in r <==> t in multiset(r);
    }
  }

  // ---------------------------------------------------- efficiency scale

  /** The scale for the score: its two ends, `Infinity`/`-Infinity` (`Math.min`
      and `Math.max` of nothing), or `NaN`. */
  datatype EffScale = Scale(minEff: real, maxEff: real) | Unbounded | NotANumber

  /** A trip that takes part in the scale (`t.trip >= 1 && t.electricity !== 0`)
      and has an energy value, so a consumption that is a number. */
  predicate Scored(t: Trip) { Formatters.PercentileValid(t) && t.electricity.Some? }

  function ScoreEff(t: Trip): real
    requires Scored(t)
  {
    t.electricity.value / t.trip.value * 100.0
  }

  /** A trip that takes part but has no energy: its consumption is `NaN`. */
  predicate Unrated(t: Trip) { Formatters.PercentileValid(t) && t.electricity.None? }

  predicate AnyValid(ts: seq<Trip>) { exists k :: 0 <= k < |ts| && Formatters.PercentileValid(ts[k]) }

  predicate HasNaN(ts: seq<Trip>) { exists k :: 0 <= k < |ts| && Unrated(ts[k]) }

  /** The consumptions of the scored trips, in order. */
  function ScoredEffs(ts: seq<Trip>): (r: seq<real>)
    ensures forall k :: 0 <= k < |ts| && Scored(ts[k]) ==> ScoreEff(ts[k]) in r
    ensures forall x :: x in r ==> exists k :: 0 <= k < |ts| && Scored(ts[k]) && ScoreEff(ts[k]) == x
  {
    if ts == [] then []
    else
      var rest := ScoredEffs(ts[1..]);
      assert forall k :: 1 <= k < |ts| ==> ts[k] == ts[1..][k - 1];
      (if Scored(ts[0]) then [ScoreEff(ts[0])] else []) + rest
  }

  lemma ScoredEffsNonEmpty(ts: seq<Trip>)
    requires AnyValid(ts) && !HasNaN(ts)
    ensures ScoredEffs(ts) != []
  {
    var k :| 0 <= k < |ts| && Formatters.PercentileValid(ts[k]);
    assert Scored(ts[k]);
  }

  /** The full list's `minEff`/`maxEff`: `Math.min`/`Math.max` over the valid
      trips, 0 for both when there is none. */
  function ListScale(ts: seq<Trip>): EffScale {
    if !AnyValid(ts) then Scale(0.0, 0.0)
    else if HasNaN(ts) then NotANumber
    else
      ScoredEffsNonEmpty(ts);
      Scale(MinOf(ScoredEffs(ts)), MaxOf(ScoredEffs(ts)))
  }

  /** The older history tab's `Math.min(...)`/`Math.max(...)`, which give the
      infinities when no trip is valid. */
  function LegacyScale(ts: seq<Trip>): EffScale {
    if !AnyValid(ts) then Unbounded
    else ListScale(ts)
  }

  /** With valid trips and no `NaN`, the scale runs from the least to the
      greatest consumption of a scored trip; a valid trip without energy makes
      both ends `NaN`; without valid trips the full list uses 0 and 0. */
  lemma ScaleSpec(ts: seq<Trip>)
    ensures !AnyValid(ts) ==> ListScale(ts) == Scale(0.0, 0.0) && LegacyScale(ts) == Unbounded
    ensures HasNaN(ts) ==> ListScale(ts) == NotANumber && LegacyScale(ts) == NotANumber
    ensures AnyValid(ts) && !HasNaN(ts) ==>
      var s := ListScale(ts);
      s.Scale? && s == LegacyScale(ts)
      && (forall k :: 0 <= k < |ts| && Scored(ts[k]) ==> s.minEff <= ScoreEff(ts[k]) <= s.maxEff)
      && (exists k :: 0 <= k < |ts| && Scored(ts[k]) && ScoreEff(ts[k]) == s.minEff)
      && (exists k :: 0 <= k < |ts| && Scored(ts[k]) && ScoreEff(ts[k]) == s.maxEff)
  {
    if HasNaN(ts) {
      var k :| 0 <= k < |ts| && Unrated(ts[k]);
      assert Formatters.PercentileValid(ts[k]);
    }
    if AnyValid(ts) && !HasNaN(ts) {
      var effs := ScoredEffs(ts);
      ScoredEffsNonEmpty(ts);
      forall k | 0 <= k < |ts| && Scored(ts[k]) ensures MinOf(effs) <= ScoreEff(ts[k]) <= MaxOf(effs) {
        var x := ScoreEff(ts[k]);
        assert x in effs;
        var i :| 0 <= i < |effs| && effs[i] == x;
      }
    }
  }

  /** One 5 km trip without an energy value turns the scale into `NaN`. */
  lemma ScaleNaNWitness()
    ensures var t := Trip(Some(5.0), None, 0.0, 600.0, "20240101", "202401", 0, 600);
      ListScale([t]) == NotANumber && LegacyScale([t]) == NotANumber
  {
    var t := Trip(Some(5.0), None, 0.0, 600.0, "20240101", "202401", 0, 600);
    assert Unrated([t][0]);
  }

  /** The newer history tab's single pass: a consumption below the running
      minimum or above the running maximum replaces it; `NaN` compares false
      and is skipped; the infinities left by no trip become 0. */
  method HistoryScale(sorted: seq<Trip>) returns (minEff: real, maxEff: real)
    ensures (forall k :: 0 <= k < |sorted| ==> !Scored(sorted[k])) ==> minEff == 0.0 && maxEff == 0.0
    ensures forall k :: 0 <= k < |sorted| && Scored(sorted[k]) ==> minEff <= ScoreEff(sorted[k]) <= maxEff
    ensures (exists k :: 0 <= k < |sorted| && Scored(sorted[k])) ==>
      (exists k :: 0 <= k < |sorted| && Scored(sorted[k]) && ScoreEff(sorted[k]) == minEff)
      && (exists k :: 0 <= k < |sorted| && Scored(sorted[k]) && ScoreEff(sorted[k]) == maxEff)
  {
    var minE: Option<real> := None;   // Infinity
    var maxE: Option<real> := None;   // -Infinity
    for i := 0 to |sorted|
      invariant minE.None? <==> maxE.None?
      invariant minE.None? <==> forall k :: 0 <= k < i ==> !Scored(sorted[k])
      invariant minE.Some? ==>
        (forall k :: 0 <= k < i && Scored(sorted[k]) ==> minE.value <= ScoreEff(sorted[k]) <= maxE.value)
        && (exists k :: 0 <= k < i && Scored(sorted[k]) && ScoreEff(sorted[k]) == minE.value)
        && (exists k :: 0 <= k < i && Scored(sorted[k]) && ScoreEff(sorted[k]) == maxE.value)
    {
      var trip := sorted[i];
      if Formatters.PercentileValid(trip) {
        if trip.electricity.Some? {
          var eff := trip.electricity.value / trip.trip.value * 100.0;
          if minE.None? || eff < minE.value { minE := Some(eff); }
          if maxE.None? || eff > maxE.value { maxE := Some(eff); }
        }
      }
    }
    minEff := if minE.None? then 0.0 else minE.value;
    maxEff := if maxE.None? then 0.0 else maxE.value;
  }

  // ---------------------------------------------------------- last ten trips

  /** `s.slice(from, to)`: both ends clamped to the length. */
  function Slice<T>(s: seq<T>, from: nat, to: nat): seq<T>
    requires from <= to
  {
    var hi := if to < |s| then to else |s|;
    var lo := if from < hi then from else hi;
    s[lo..hi]
  }

  datatype HistoryColumns = HistoryColumns(last10: seq<Trip>, first: seq<Trip>, second: seq<Trip>)

  /** The ten newest trips and their two columns of five. */
  function Columns(sorted: seq<Trip>): HistoryColumns {
    var last10 := Slice(sorted, 0, 10);
    HistoryColumns(last10, Slice(last10, 0, 5), Slice(last10, 5, 10))
  }

  /** The last ten are the first ten of the sorted list (all of it when it is
      shorter), the first column holds the first five and the second column the
      rest, so together they are the last ten in order. */
  lemma ColumnsSpec(sorted: seq<Trip>)
    ensures var c := Columns(sorted);
      c.last10 == sorted[..if |sorted| < 10 then |sorted| else 10]
      && c.first + c.second == c.last10
      && |c.first| <= 5 && |c.second| <= 5
      && (c.second != [] ==> |c.first| == 5)
  {
    var c := Columns(sorted);
    var n := if |sorted| < 10 then |sorted| else 10;
    var m := if n < 5 then n else 5;
    assert c.last10 == sorted[..n];
    assert c.first == c.last10[..m] && c.second == c.last10[m..] by {
      assert |c.last10| == n;
    }
    assert c.last10[..m] + c.last10[m..] == c.last10;
  }

  // ---------------------------------------------------------------- averages

  datatype Averages = Averages(distance: real, consumption: real, efficiency: real, duration: real, speed: real)

  /** `(t.duration || 0) / 60`. */
  function MinutesKey(): Trip -> real { (t: Trip) => t.duration / 60.0 }

  /** `t.duration > 0 && t.trip > 0`. */
  function Moving(): Trip -> bool { (t: Trip) => t.duration > 0.0 && t.trip.Some? && t.trip.value > 0.0 }

  /** `total / (length || 1)`: the mean over the trips, the total itself for none. */
  function PerTrip(total: real, count: nat): (r: real)
    ensures count > 0 ==> r * count as real == total
    ensures count == 0 ==> r == total
  {
    total / (if count == 0 then 1 else count) as real
  }

  /** The speeds of the moving trips. */
  function Speeds(ts: seq<Trip>): (r: seq<real>)
    ensures |r| == |ts| && forall k :: 0 <= k < |ts| ==> r[k] == TripInsights.Speed(ts[k])
  {
    if ts == [] then [] else [TripInsights.Speed(ts[0])] + Speeds(ts[1..])
  }

  /** The mean speed over the moving trips, 0 with none. */
  function AvgSpeed(last10: seq<Trip>): real {
    var moving := Filter(last10, Moving());
    if moving == [] then 0.0 else Mean(Speeds(moving))
  }

  /** The newer tab's averages over the last ten trips: each total over the
      number of trips, or over 1 when there is none. The consumption average
      adds 0 for a trip without a positive distance or without energy, but
      still counts it. */
  function HistoryAverages(last10: seq<Trip>): Averages {
    var n := |last10|;
    Averages(
      PerTrip(TripInsights.Total(last10, TripInsights.KmKey()), n),
      PerTrip(TripInsights.Total(last10, TripInsights.KwhKey()), n),
      PerTrip(TripInsights.Total(last10, TripInsights.EfficiencyKey()), n),
      PerTrip(TripInsights.Total(last10, MinutesKey()), n),
      AvgSpeed(last10))
  }

  /** `x / length || 0`: 0 for no trip (`NaN`), the mean otherwise. */
  function OrZeroMean(total: real, count: nat): real {
    if count == 0 then 0.0 else total / count as real
  }

  /** The older tab's averages. */
  function LegacyAverages(last10: seq<Trip>): Averages {
    var n := |last10|;
    Averages(
      OrZeroMean(TripInsights.Total(last10, TripInsights.KmKey()), n),
      OrZeroMean(TripInsights.Total(last10, TripInsights.KwhKey()), n),
      OrZeroMean(TripInsights.Total(last10, TripInsights.EfficiencyKey()), n),
      OrZeroMean(TripInsights.Total(last10, MinutesKey()), n),
      AvgSpeed(last10))
  }

  lemma {:induction false} TotalIsSum(ts: seq<Trip>, f: Trip -> real)
    ensures TripInsights.Total(ts, f) == Sum(Mapped(ts, f))
  {
    if ts != [] {
      TotalIsSum(ts[1..], f);
    }
  }

  /** The per-trip average of a measure over some trips is the mean of the
      trips' values, so it lies between the least and the greatest of them. */
  lemma PerTripMean(ts: seq<Trip>, f: Trip -> real)
    requires ts != []
    ensures var avg, xs := PerTrip(TripInsights.Total(ts, f), |ts|), Mapped(ts, f);
      avg == Mean(xs) && MinOf(xs) <= avg <= MaxOf(xs)
  {
    TotalIsSum(ts, f);
    MeanBetweenExtremes(Mapped(ts, f));
  }

  /** Without trips every average is 0. */
  lemma NoTripsNoAverages()
    ensures HistoryAverages([]) == Averages(0.0, 0.0, 0.0, 0.0, 0.0)
  {
    assert Filter([], Moving()) == [];
  }

  /** With trips each average is the mean of the trips' values. */
  lemma HistoryAveragesSpec(last10: seq<Trip>)
    requires last10 != []
    ensures var a := HistoryAverages(last10);
      a.distance == Mean(Mapped(last10, TripInsights.KmKey()))
      && a.consumption == Mean(Mapped(last10, TripInsights.KwhKey()))
      && a.efficiency == Mean(Mapped(last10, TripInsights.EfficiencyKey()))
      && a.duration == Mean(Mapped(last10, MinutesKey()))
  {
    PerTripMean(last10, TripInsights.KmKey());
    PerTripMean(last10, TripInsights.KwhKey());
    PerTripMean(last10, TripInsights.EfficiencyKey());
    PerTripMean(last10, MinutesKey());
  }

  lemma AvgSpeedSpec(last10: seq<Trip>)
    ensures var moving := Filter(last10, Moving());
      (moving == [] ==> AvgSpeed(last10) == 0.0)
      && (moving != [] ==> MinOf(Speeds(moving)) <= AvgSpeed(last10) <= MaxOf(Speeds(moving)))
  {
    var moving := Filter(last10, Moving());
    if moving != [] {
      MeanBetweenExtremes(Speeds(moving));
    }
  }

  /** The two tabs compute the same averages. */
  lemma LegacyAveragesAgree(last10: seq<Trip>)
    ensures LegacyAverages(last10) == HistoryAverages(last10)
  {
  }

  /** The newer history tab: the trips newest first, the scale of the
      single pass, the columns and the averages. */
  method HistoryTab(filtered: seq<Trip>) returns (sorted: seq<Trip>, minEff: real, maxEff: real,
                                                  columns: HistoryColumns, averages: Averages)
    ensures sorted == SortTrips(filtered, ByDate, Desc)
    ensures columns == Columns(sorted) && averages == HistoryAverages(columns.last10)
    ensures forall k :: 0 <= k < |sorted| && Scored(sorted[k]) ==> minEff <= ScoreEff(sorted[k]) <= maxEff
    ensures (forall k :: 0 <= k < |sorted| ==> !Scored(sorted[k])) ==> minEff == 0.0 && maxEff == 0.0
  {
    sorted := SortTrips(filtered, ByDate, Desc);
    minEff, maxEff := HistoryScale(sorted);
    columns := Columns(sorted);
    averages := HistoryAverages(columns.last10);
  }

  /** The last ten are the newest: every trip among them precedes, by date and
      then start time, every trip left out. */
  lemma LastTenNewest(filtered: seq<Trip>)
    ensures var sorted := SortTrips(filtered, ByDate, Desc);
      forall i, j :: 0 <= i < |Columns(sorted).last10| <= j < |sorted| ==>
        Precedes(ByDate, sorted[i], sorted[j])
  {
    var sorted := SortTrips(filtered, ByDate, Desc);
    SortTripsOrder(filtered, ByDate, Desc);
    ColumnsSpec(sorted);
  }
}
