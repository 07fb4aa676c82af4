/** The older `processData(rows)` of src/utils/dataProcessing.js. It has no
    stationary split and no pricing: it counts every trip with a numeric,
    positive distance, tallies it into its month, its day, its hour and
    weekday (when it has a start time) and one of five distance buckets, and
    derives the summary, an efficiency scatter sorted by distance and three
    top-10 lists taken from full descending sorts.

    The two `forEach` loops work on local dictionaries and on the hour,
    weekday and bucket tables, which are arrays here; each loop is proved to
    compute a fold of its own (module TripStats), and `ProcessLegacy` is proved
    to compute `LegacySpec`. */
module LegacyProcessing {
  import opened Wrappers
  import opened Records
  import opened KeyedMap
  import opened StableSort
  import opened TopN
  import opened TripStats
  import opened DateUtils
  import opened JsText
  import opened ProcessData

  // ------------------------------------------------------------ counted trips

  /** `r && typeof r.trip === 'number' && r.trip > 0`. */
  predicate Counted(t: Trip) { t.trip.Some? && t.trip.value > 0.0 }

  /** `rows.filter(r => r && typeof r.trip === 'number' && r.trip > 0)`; a
      `None` row is a null one. */
  function CountedTrips(rows: seq<Option<Trip>>): (r: seq<Trip>)
    ensures |r| <= |rows|
    ensures forall t :: t in r <==> Some(t) in rows && Counted(t)
  {
    if rows == [] then []
    else (if rows[0].Some? && Counted(rows[0].value) then [rows[0].value] else []) + CountedTrips(rows[1..])
  }

  /** `trips.reduce((s, r) => s + (r.trip || 0), 0)`. */
  function SumKm(trips: seq<Trip>): real {
    if trips == [] then 0.0 else Km(trips[0]) + SumKm(trips[1..])
  }

  /** `trips.reduce((s, r) => s + (r.electricity || 0), 0)`. */
  function SumKwh(trips: seq<Trip>): real {
    if trips == [] then 0.0 else Kwh(trips[0]) + SumKwh(trips[1..])
  }

  /** `trips.reduce((s, r) => s + (r.duration || 0), 0)`. */
  function SumDuration(trips: seq<Trip>): real {
    if trips == [] then 0.0 else trips[0].duration + SumDuration(trips[1..])
  }

  /** Counted trips all have a positive distance, so any of them make a
      positive total: the `totalKm === 0` exit is never taken. */
  lemma {:induction false} SumKmPositive(trips: seq<Trip>)
    requires forall t :: t in trips ==> Counted(t)
    ensures trips != [] ==> SumKm(trips) > 0.0
    ensures SumKm(trips) >= 0.0
  {
    if trips != [] {
      assert trips[0] in trips;
      assert forall t :: t in trips[1..] ==> t in trips;
      SumKmPositive(trips[1..]);
    }
  }

  // ------------------------------------------------------------ the tally loop

  /** The first `forEach`: every counted trip is added to its month and day
      (with 'unknown' for a missing key) and, when it has a start time, to
      its hour and to its weekday. */
  method TallyTrips(trips: seq<Trip>, clock: LocalClock)
    returns (monthly: Entries<string, Period>, daily: Entries<string, Period>,
             hourly: array<Bin>, weekday: array<Bin>)
    ensures fresh(hourly) && fresh(weekday)
    ensures monthly == Periods(trips, MonthKey) && daily == Periods(trips, DateKey)
    ensures hourly[..] == HourBins(trips, clock) && weekday[..] == WeekdayBins(trips, clock)
  {
    monthly, daily := [], [];
    hourly := new Bin[24](EmptyBin);
    weekday := new Bin[7](EmptyBin);
    var i := 0;
    while i < |trips|
      invariant 0 <= i <= |trips| && hourly.Length == 24 && weekday.Length == 7 && hourly != weekday
      invariant monthly == Periods(trips[..i], MonthKey) && daily == Periods(trips[..i], DateKey)
      invariant hourly[..] == HourBins(trips[..i], clock) && weekday[..] == WeekdayBins(trips[..i], clock)
    {
      monthly, daily := TallyOne(trips, i, clock, monthly, daily, hourly, weekday);
      i := i + 1;
    }
    assert trips[..i] == trips;
  }

  /** One pass of the first `forEach`: trip `i` joins the tallies of the
      trips before it. */
  method TallyOne(trips: seq<Trip>, i: nat, clock: LocalClock, monthly: Entries<string, Period>,
                  daily: Entries<string, Period>, hourly: array<Bin>, weekday: array<Bin>)
    returns (monthly': Entries<string, Period>, daily': Entries<string, Period>)
    requires i < |trips| && hourly.Length == 24 && weekday.Length == 7 && hourly != weekday
    requires monthly == Periods(trips[..i], MonthKey) && daily == Periods(trips[..i], DateKey)
    requires hourly[..] == HourBins(trips[..i], clock) && weekday[..] == WeekdayBins(trips[..i], clock)
    modifies hourly, weekday
    ensures monthly' == Periods(trips[..i + 1], MonthKey) && daily' == Periods(trips[..i + 1], DateKey)
    ensures hourly[..] == HourBins(trips[..i + 1], clock) && weekday[..] == WeekdayBins(trips[..i + 1], clock)
  {
    var t := trips[i];
    TallyStep(trips, i, clock);
    monthly' := AddToPeriod(monthly, MonthKey(t), t);
    daily' := AddToPeriod(daily, DateKey(t), t);
    TallyTime(hourly, weekday, t, clock);
  }

  /** A trip with a start time counts in its hour and in its weekday. */
  method TallyTime(hourly: array<Bin>, weekday: array<Bin>, t: Trip, clock: LocalClock)
    requires hourly.Length == 24 && weekday.Length == 7 && hourly != weekday
    modifies hourly, weekday
    ensures hourly[..] == if t.startTs != 0 then AddToBin(old(hourly[..]), HourSlot(t, clock), Km(t)) else old(hourly[..])
    ensures weekday[..] == if t.startTs != 0 then AddToBin(old(weekday[..]), DaySlot(t, clock), Km(t)) else old(weekday[..])
  {
    if t.startTs != 0 {
      Count(hourly, HourSlot(t, clock), Km(t));
      Count(weekday, DaySlot(t, clock), Km(t));
    }
  }

  /** `data[i].trips++; data[i].km += km`. */
  method Count(bins: array<Bin>, i: int, km: real)
    requires 0 <= i < bins.Length
    modifies bins
    ensures bins[..] == AddToBin(old(bins[..]), i, km)
  {
    bins[i] := Bin(bins[i].trips + 1, bins[i].km + km);
  }

  /** The folds over one more trip. */
  lemma TallyStep(trips: seq<Trip>, i: nat, clock: LocalClock)
    requires i < |trips|
    ensures var t, v, w := trips[i], trips[..i], trips[..i + 1];
      Periods(w, MonthKey) == AddToPeriod(Periods(v, MonthKey), MonthKey(t), t)
      && Periods(w, DateKey) == AddToPeriod(Periods(v, DateKey), DateKey(t), t)
      && HourBins(w, clock) == (if t.startTs != 0 then AddToBin(HourBins(v, clock), HourSlot(t, clock), Km(t))
                                else HourBins(v, clock))
      && WeekdayBins(w, clock) == (if t.startTs != 0 then AddToBin(WeekdayBins(v, clock), DaySlot(t, clock), Km(t))
                                   else WeekdayBins(v, clock))
  {
    assert trips[..i + 1][..i] == trips[..i];
  }

  /** The second `forEach`: every counted trip adds one to its distance bucket. */
  method TallyDistances(trips: seq<Trip>) returns (counts: array<nat>)
    ensures fresh(counts)
    ensures counts[..] == BucketCounts(trips)
  {
    counts := new nat[5](NoTrips);
    assert counts[..] == [0, 0, 0, 0, 0];
    var i := 0;
    while i < |trips|
      invariant 0 <= i <= |trips| && counts.Length == 5
      invariant counts[..] == BucketCounts(trips[..i])
    {
      assert trips[..i + 1][..i] == trips[..i];
      var b := Bucket(Km(trips[i]));
      counts[b] := counts[b] + 1;
      i := i + 1;
    }
    assert trips[..i] == trips;
  }

  // ------------------------------------------------------------ tables and lists

  /** A month or day entry as the legacy table shows it: the tallies, the
      consumption rate and the label. */
  datatype LegacyRow = LegacyRow(key: string, trips: nat, km: real, kwh: real, efficiency: real, labelText: string)

  /** Sort the dictionary's entries by key, then add `efficiency` and the label. */
  function LegacyTable(m: Entries<string, Period>, labelOf: string -> string): (r: seq<LegacyRow>)
    ensures var t := PeriodTable(m, labelOf);
      |r| == |t| && forall i :: 0 <= i < |r| ==> r[i] == Shown(t[i])
  {
    ShownRows(PeriodTable(m, labelOf))
  }

  /** The row without the fuel columns the legacy table does not have. */
  function Shown(row: PeriodRow): LegacyRow {
    LegacyRow(row.period.key, row.period.trips, row.period.km, row.period.kwh, row.efficiency, row.labelText)
  }

  function ShownRows(rows: seq<PeriodRow>): (r: seq<LegacyRow>)
    ensures |r| == |rows| && forall i :: 0 <= i < |rows| ==> r[i] == Shown(rows[i])
  {
    if rows == [] then [] else [Shown(rows[0])] + ShownRows(rows[1..])
  }

  /** An efficiency scatter point: distance and kWh per 100 km. */
  datatype EffPoint = EffPoint(km: real, eff: real)

  /** `.filter(t => t.trip > 0 && t.electricity > 0).map(t => ({km, eff}))
      .filter(t => t.eff > 0 && t.eff < 50)`, before the sort. */
  function EffPoints(trips: seq<Trip>): (r: seq<EffPoint>)
    ensures |r| <= |trips|
    ensures forall p :: p in r ==> p.km > 0.0 && 0.0 < p.eff < 50.0
  {
    if trips == [] then []
    else
      var t := trips[0];
      var p := ScatterOf(t);
      (if p.Some? then [EffPoint(p.value.x, p.value.y)] else []) + EffPoints(trips[1..])
  }

  /** `(a, b) => a.km - b.km`: ascending distance. */
  function KmAsc(): (EffPoint, EffPoint) -> bool {
    (a: EffPoint, b: EffPoint) => a.km <= b.km
  }

  lemma KmAscTotalPreorder()
    ensures TotalPreorder(KmAsc())
  {
  }

  /** `new Set(trips.map(t => t.date).filter(Boolean))`. */
  function TruthyDates(trips: seq<Trip>): (r: set<string>)
    ensures forall d :: d in r <==> d != "" && exists t :: t in trips && t.date == d
  {
    set t | t in trips && t.date != "" :: t.date
  }

  // ------------------------------------------------------------ summary and result

  datatype LegacySummary = LegacySummary(
    totalTrips: nat, totalKm: real, totalKwh: real, totalHours: real, avgEff: real, avgKm: real,
    avgMin: real, avgSpeed: real, daysActive: nat, totalDays: int, dateRange: string,
    maxKm: real, minKm: real, maxKwh: real, maxMin: real, tripsDay: real, kmDay: real)

  datatype LegacyTop = LegacyTop(km: seq<Trip>, kwh: seq<Trip>, dur: seq<Trip>)

  datatype LegacyResult = LegacyResult(
    summary: LegacySummary, monthly: seq<LegacyRow>, daily: seq<LegacyRow>, hourly: seq<Bin>,
    weekday: seq<Bin>, tripDist: seq<nat>, effScatter: seq<EffPoint>, top: LegacyTop)

  /** The three full descending sorts. */
  function ByKm(trips: seq<Trip>): seq<Trip> { SortBy(trips, DescLe(KmKey())) }
  function ByKwh(trips: seq<Trip>): seq<Trip> { SortBy(trips, DescLe(KwhKey())) }
  function ByDuration(trips: seq<Trip>): seq<Trip> { SortBy(trips, DescLe(DurationKey())) }

  /** The summary of the counted trips `trips`, given the three sorts and the
      sort by start time. */
  function LegacySummaryOf(trips: seq<Trip>, daysActive: nat, byKm: seq<Trip>, byKwh: seq<Trip>,
                           byDur: seq<Trip>, sorted: seq<Trip>): (r: LegacySummary)
    requires trips != [] && daysActive >= 1
    requires |byKm| == |byKwh| == |byDur| == |sorted| == |trips|
    ensures r.totalTrips == |trips| && r.daysActive == daysActive
  {
    var n := |sorted| - 1;
    var km, kwh, dur := SumKm(trips), SumKwh(trips), SumDuration(trips);
    LegacySummary(
      |trips|, km, kwh, dur / 3600.0, Rate(kwh, km), PerTrip(km, |trips|),
      AvgMinutes(dur, |trips|), AvgSpeed(km, dur),
      daysActive, TotalDays(sorted[0].startTs, sorted[n].startTs, daysActive),
      FormatDateLegacy(sorted[0].date) + " - " + FormatDateLegacy(sorted[n].date),
      Km(byKm[0]), Km(byKm[|byKm| - 1]), Kwh(byKwh[0]), byDur[0].duration / 60.0,
      PerDay(|trips| as real, daysActive), PerDay(km, daysActive))
  }

  /** What `processData(rows)` returns: `None` is `null`, exactly when no row
      has a numeric, positive distance. */
  function LegacySpec(rows: seq<Option<Trip>>, clock: LocalClock): (r: Option<LegacyResult>)
    ensures r.None? <==> CountedTrips(rows) == []
  {
    var trips := CountedTrips(rows);
    SumKmPositive(trips);
    if trips == [] || SumKm(trips) == 0.0 then None
    else
      var daysActive := DaysActive(TruthyDates(trips));
      var sorted := SortBy(trips, StartLe());
      var byKm, byKwh, byDur := ByKm(trips), ByKwh(trips), ByDuration(trips);
      Some(LegacyResult(
        LegacySummaryOf(trips, daysActive, byKm, byKwh, byDur, sorted),
        LegacyTable(Periods(trips, MonthKey), FormatMonthLegacy),
        LegacyTable(Periods(trips, DateKey), FormatDateLegacy),
        HourBins(trips, clock), WeekdayBins(trips, clock), BucketCounts(trips),
        SortBy(EffPoints(trips), KmAsc()),
        LegacyTop(byKm[..Min(10, |trips|)], byKwh[..Min(10, |trips|)], byDur[..Min(10, |trips|)])))
  }

  /** `processData(rows)` of src/utils/dataProcessing.js. */
  method ProcessLegacy(rows: seq<Option<Trip>>, clock: LocalClock) returns (r: Option<LegacyResult>)
    ensures r == LegacySpec(rows, clock)
  {
    if rows == [] {
      return None;
    }
    var trips := CountedTrips(rows);
    if trips == [] {
      return None;
    }
    var totalKm := SumKm(trips);
    if totalKm == 0.0 {
      return None;
    }
    var monthlyData, dailyData, hourly, weekday := TallyTrips(trips, clock);
    var monthly := LegacyTable(monthlyData, FormatMonthLegacy);
    var daily := LegacyTable(dailyData, FormatDateLegacy);
    var dist := TallyDistances(trips);
    var scatter := SortBy(EffPoints(trips), KmAsc());
    var byKm, byKwh, byDur := ByKm(trips), ByKwh(trips), ByDuration(trips);
    var daysActive := DaysActive(TruthyDates(trips));
    var sorted := SortBy(trips, StartLe());
    var k := Min(10, |trips|);
    r := Some(LegacyResult(LegacySummaryOf(trips, daysActive, byKm, byKwh, byDur, sorted),
                           monthly, daily, hourly[..], weekday[..], dist[..], scatter,
                           LegacyTop(byKm[..k], byKwh[..k], byDur[..k])));
  }

  // ------------------------------------------------------------ what the result promises

  /** Every counted trip is in exactly one distance bucket, and each trip with
      a start time in exactly one hour and one weekday. */
  lemma LegacyCounts(rows: seq<Option<Trip>>, clock: LocalClock)
    requires CountedTrips(rows) != []
    ensures var r := LegacySpec(rows, clock).value;
      var trips := CountedTrips(rows);
      r.summary.totalTrips == |trips| && SumCounts(r.tripDist) == |trips|
      && SumTrips(r.hourly) == SumTrips(r.weekday) == |Timed(trips)|
  {
    var trips := CountedTrips(rows);
    BucketTotal(trips);
    HourWeekdayTotals(trips, clock);
  }

  /** The scatter holds the plausible consumption points of the counted trips,
      each with a positive distance and 0 < eff < 50, sorted by ascending
      distance. */
  lemma LegacyScatter(rows: seq<Option<Trip>>, clock: LocalClock)
    requires CountedTrips(rows) != []
    ensures var r := LegacySpec(rows, clock).value;
      multiset(r.effScatter) == multiset(EffPoints(CountedTrips(rows)))
      && |r.effScatter| <= r.summary.totalTrips
      && (forall p :: p in r.effScatter ==> p.km > 0.0 && 0.0 < p.eff < 50.0)
      && (forall i, j :: 0 <= i < j < |r.effScatter| ==> r.effScatter[i].km <= r.effScatter[j].km)
  {
    var trips := CountedTrips(rows);
    var pts := EffPoints(trips);
    KmAscTotalPreorder();
    SortBySorted(pts, KmAsc());
    var sc := SortBy(pts, KmAsc());
    forall p | p in sc ensures p.km > 0.0 && 0.0 < p.eff < 50.0 {
      assert p in multiset(pts);
    }
  }

  /** The three lists are the top 10 counted trips by distance, energy and duration. */
  lemma LegacyTop10(rows: seq<Option<Trip>>, clock: LocalClock)
    requires CountedTrips(rows) != []
    ensures var r := LegacySpec(rows, clock).value;
      var trips := CountedTrips(rows);
      IsTop10(r.top.km, trips, KmKey()) && IsTop10(r.top.kwh, trips, KwhKey())
      && IsTop10(r.top.dur, trips, DurationKey())
  {
    var trips := CountedTrips(rows);
    Top10OfPermutation(trips, trips, KmKey());
    Top10OfPermutation(trips, trips, KwhKey());
    Top10OfPermutation(trips, trips, DurationKey());
  }

  /** The first and last items of a full descending sort bound every key. */
  lemma DescEnds(v: seq<Trip>, key: Trip -> real)
    requires v != []
    ensures var s := SortBy(v, DescLe(key));
      s[0] in v && s[|s| - 1] in v && forall t :: t in v ==> key(s[|s| - 1]) <= key(t) <= key(s[0])
  {
    DescLeTotalPreorder(key);
    SortBySorted(v, DescLe(key));
    var s := SortBy(v, DescLe(key));
    assert s[0] in multiset(v) && s[|s| - 1] in multiset(v);
    forall t | t in v ensures key(s[|s| - 1]) <= key(t) <= key(s[0]) {
      assert t in multiset(s);
      var i :| 0 <= i < |s| && s[i] == t;
      assert DescLe(key)(s[0], s[i]) || i == 0;
      assert DescLe(key)(s[i], s[|s| - 1]) || i == |s| - 1;
    }
  }

  /** `maxKm` and `minKm` are the largest and smallest counted distance,
      `maxKwh` the largest energy and `maxMin` the longest duration in
      minutes; each is a value some counted trip has. */
  lemma LegacyExtremes(rows: seq<Option<Trip>>, clock: LocalClock) returns (longest: Trip, shortest: Trip)
    requires CountedTrips(rows) != []
    ensures longest in CountedTrips(rows) && shortest in CountedTrips(rows)
    ensures var r := LegacySpec(rows, clock).value.summary;
      r.maxKm == Km(longest) && r.minKm == Km(shortest)
      && forall t :: t in CountedTrips(rows) ==>
           r.minKm <= Km(t) <= r.maxKm && Kwh(t) <= r.maxKwh && t.duration <= r.maxMin * 60.0
  {
    var trips := CountedTrips(rows);
    DescEnds(trips, KmKey());
    DescEnds(trips, KwhKey());
    DescEnds(trips, DurationKey());
    var s := ByKm(trips);
    longest, shortest := s[0], s[|s| - 1];
  }

  /** `daysActive` counts the distinct non-empty dates, and is 1 without any;
      the date range and the calendar days run from an earliest-starting
      counted trip to a latest-starting one (returned here). */
  lemma LegacyDays(rows: seq<Option<Trip>>, clock: LocalClock) returns (first: Trip, last: Trip)
    requires CountedTrips(rows) != []
    ensures first in CountedTrips(rows) && last in CountedTrips(rows)
    ensures forall t :: t in CountedTrips(rows) ==> first.startTs <= t.startTs <= last.startTs
    ensures var r := LegacySpec(rows, clock).value.summary;
      var dates := TruthyDates(CountedTrips(rows));
      r.daysActive == (if dates == {} then 1 else |dates|)
      && r.dateRange == FormatDateLegacy(first.date) + " - " + FormatDateLegacy(last.date)
      && r.totalDays == TotalDays(first.startTs, last.startTs, r.daysActive)
  {
    var trips := CountedTrips(rows);
    SortedEnds(trips);
    var sa := SortBy(trips, StartLe());
    first, last := sa[0], sa[|sa| - 1];
  }

  /** The rows' keys in ascending order. */
  predicate KeysAscending(t: seq<LegacyRow>) {
    forall i, j :: 0 <= i < j < |t| ==> StrLe(t[i].key, t[j].key)
  }

  /** Each row counts the trips that carry its key, and there is one. */
  predicate RowsCount(t: seq<LegacyRow>, trips: seq<Trip>, key: Trip -> string) {
    forall i :: 0 <= i < |t| ==> t[i].trips == CountKey(trips, key, t[i].key) > 0
  }

  /** Every key some trip carries has a row. */
  ghost predicate RowsCover(t: seq<LegacyRow>, trips: seq<Trip>, key: Trip -> string) {
    forall k :: CountKey(trips, key, k) > 0 ==> exists i :: 0 <= i < |t| && t[i].key == k
  }

  /** A legacy month or day table lists each key carried by a trip once, in
      ascending key order, with the number of trips that carry it. */
  lemma LegacyTableCounts(trips: seq<Trip>, key: Trip -> string, labelOf: string -> string)
    ensures var t := LegacyTable(Periods(trips, key), labelOf);
      KeysAscending(t) && RowsCount(t, trips, key) && RowsCover(t, trips, key)
  {
    var pt := PeriodTable(Periods(trips, key), labelOf);
    TableOrder(trips, key, labelOf);
    TableCounts(trips, key, labelOf);
    ShownTable(pt, LegacyTable(Periods(trips, key), labelOf), trips, key);
  }

  /** Dropping the fuel columns keeps the order, the counts and the cover of
      the full table. */
  lemma ShownTable(pt: seq<PeriodRow>, t: seq<LegacyRow>, trips: seq<Trip>, key: Trip -> string)
    requires |t| == |pt| && forall i :: 0 <= i < |t| ==> t[i] == Shown(pt[i])
    requires forall i, j :: 0 <= i < j < |pt| ==> StrLe(pt[i].period.key, pt[j].period.key)
    requires forall i :: 0 <= i < |pt| ==> pt[i].period.trips == CountKey(trips, key, pt[i].period.key) > 0
    requires forall k :: CountKey(trips, key, k) > 0 ==> exists i :: 0 <= i < |pt| && pt[i].period.key == k
    ensures KeysAscending(t) && RowsCount(t, trips, key) && RowsCover(t, trips, key)
  {
    forall k | CountKey(trips, key, k) > 0 ensures exists i :: 0 <= i < |t| && t[i].key == k {
      var i :| 0 <= i < |pt| && pt[i].period.key == k;
      assert t[i].key == k;
    }
  }

  /** The month table lists each month key carried by a counted trip once,
      in ascending order, with the number of trips that carry it. */
  lemma LegacyMonthly(rows: seq<Option<Trip>>, clock: LocalClock)
    requires CountedTrips(rows) != []
    ensures var t := LegacySpec(rows, clock).value.monthly;
      KeysAscending(t) && RowsCount(t, CountedTrips(rows), MonthKey) && RowsCover(t, CountedTrips(rows), MonthKey)
  {
    LegacyTableCounts(CountedTrips(rows), MonthKey, FormatMonthLegacy);
  }

  /** The day table lists each date key carried by a counted trip once, in
      ascending order, with the number of trips that carry it. */
  lemma LegacyDaily(rows: seq<Option<Trip>>, clock: LocalClock)
    requires CountedTrips(rows) != []
    ensures var t := LegacySpec(rows, clock).value.daily;
      KeysAscending(t) && RowsCount(t, CountedTrips(rows), DateKey) && RowsCover(t, CountedTrips(rows), DateKey)
  {
    LegacyTableCounts(CountedTrips(rows), DateKey, FormatDateLegacy);
  }

  /** The legacy summary's totals are the sums over the counted trips, and
      its averages mean what they say: with any distance, the average
      consumption times the distance is the energy per 100 km; the distance per
      trip times the trips, and the distance per active day times the active
      days, are the total distance; the trips per day times the active days are
      the trips. */
  lemma LegacyAverages(trips: seq<Trip>, daysActive: nat, byKm: seq<Trip>, byKwh: seq<Trip>,
                       byDur: seq<Trip>, sorted: seq<Trip>)
    requires trips != [] && daysActive >= 1
    requires |byKm| == |byKwh| == |byDur| == |sorted| == |trips|
    ensures var r := LegacySummaryOf(trips, daysActive, byKm, byKwh, byDur, sorted);
      r.totalKm == SumKm(trips) && r.totalKwh == SumKwh(trips) && ScalesBack(r, |trips|, daysActive)
  {
    var r := LegacySummaryOf(trips, daysActive, byKm, byKwh, byDur, sorted);
    ScaledAverages(r, |trips|, daysActive);
  }

  /** The averages of `r` over `n` trips and `days` active days scale back to
      its totals. */
  predicate ScalesBack(r: LegacySummary, n: nat, days: nat) {
    && (r.totalKm > 0.0 ==> r.avgEff * r.totalKm == r.totalKwh * 100.0)
    && r.avgKm * n as real == r.totalKm
    && r.tripsDay * days as real == n as real
    && r.kmDay * days as real == r.totalKm
  }

  /** Any summary whose averages are those quotients scales back to its
      totals: with any distance the average consumption times the distance
      is the energy per 100 km; the average trip distance times the trips,
      and the distance per active day times the active days, are the total
      distance; trips per day times the active days are the trips. */
  lemma ScaledAverages(r: LegacySummary, n: nat, days: nat)
    requires n > 0 && days >= 1
    requires r.avgEff == Rate(r.totalKwh, r.totalKm) && r.avgKm == PerTrip(r.totalKm, n)
    requires r.tripsDay == PerDay(n as real, days) && r.kmDay == PerDay(r.totalKm, days)
    ensures ScalesBack(r, n, days)
  {
    if r.totalKm > 0.0 {
      RateScale(r.totalKwh, r.totalKm);
    }
    PerTripScale(r.totalKm, n);
    PerDayScale(n as real, days);
    PerDayScale(r.totalKm, days);
  }
}
