/** The statistics behind the trip insight panel: driven trips against
    stationary records, totals and averages, the extreme trips, the median
    consumption and the longest run of consecutive active days. */
module TripInsights {
  import opened Wrappers
  import opened Records
  import opened JsText
  import opened StableSort
  import opened Seqs
  import opened RealStats
  import TripStats

  /** How the panel reads a date string: `new Date(s + 'T12:00:00')` as a day
      number (`None` for an invalid date), and `new Date(s).getDay()` (`None`
      for an invalid date). */
  datatype Calendar = Calendar(dayNumber: string -> Option<int>, weekdayOf: string -> Option<TripStats.WeekDay>)

  // ------------------------------------------------------------ record kinds

  /** `(t.trip || 0) >= 0.5`: a trip that was driven. */
  function Driven(): Trip -> bool { (t: Trip) => !IsStationary(t) }

  /** The complement of a test. */
  function Not(p: Trip -> bool): Trip -> bool { (t: Trip) => !p(t) }

  /** `(t.trip || 0) < 0.5`: a stationary record. */
  function Stationary(): Trip -> bool { Not(Driven()) }

  /** `(t.trip || 0) > 1 && (t.electricity || 0) > 0`: a trip whose consumption is rated. */
  function Rated(): Trip -> bool { (t: Trip) => Km(t) > 1.0 && Kwh(t) > 0.0 }

  /** `(t.duration || 0) > 0`. */
  function Timed(): Trip -> bool { (t: Trip) => t.duration > 0.0 }

  /** `(t.duration || 0) > 60`. */
  function OverAMinute(): Trip -> bool { (t: Trip) => t.duration > 60.0 }

  // ---------------------------------------------------------------- measures

  /** `getEfficiency`: kWh per 100 km, 0 without a positive distance. */
  function Efficiency(t: Trip): real {
    if Km(t) > 0.0 then Kwh(t) / Km(t) * 100.0 else 0.0
  }

  /** `getAvgSpeed`: km per hour, 0 without a positive duration. */
  function Speed(t: Trip): real {
    if t.duration > 0.0 then Km(t) / (t.duration / 3600.0) else 0.0
  }

  function KmKey(): Trip -> real { (t: Trip) => Km(t) }
  function KwhKey(): Trip -> real { (t: Trip) => Kwh(t) }
  function DurationKey(): Trip -> real { (t: Trip) => t.duration }
  function EfficiencyKey(): Trip -> real { (t: Trip) => Efficiency(t) }
  function SpeedKey(): Trip -> real { (t: Trip) => Speed(t) }

  /** `ts.reduce((a, t) => a + f(t), 0)`. */
  function Total(ts: seq<Trip>, f: Trip -> real): real {
    if ts == [] then 0.0 else f(ts[0]) + Total(ts[1..], f)
  }

  /** Splitting the records by a test and its complement splits every total
      and the count. */
  lemma {:induction false} TotalSplits(ts: seq<Trip>, f: Trip -> real, p: Trip -> bool)
    ensures Total(Filter(ts, p), f) + Total(Filter(ts, Not(p)), f) == Total(ts, f)
    ensures |Filter(ts, p)| + |Filter(ts, Not(p))| == |ts|
  {
    if ts != [] {
      TotalSplits(ts[1..], f, p);
      var x, a, b := ts[0], Filter(ts[1..], p), Filter(ts[1..], Not(p));
      if p(x) {
        assert Filter(ts, p) == [x] + a;
        assert ([x] + a)[1..] == a;
        assert Filter(ts, Not(p)) == b;
      } else {
        assert Filter(ts, Not(p)) == [x] + b;
        assert ([x] + b)[1..] == b;
        assert Filter(ts, p) == a;
      }
    }
  }

  /** `ts.map(getEfficiency)`. */
  function Efficiencies(ts: seq<Trip>): (r: seq<real>)
    ensures |r| == |ts| && forall k :: 0 <= k < |ts| ==> r[k] == Efficiency(ts[k])
  {
    if ts == [] then [] else [Efficiency(ts[0])] + Efficiencies(ts[1..])
  }

  // ---------------------------------------------------------- extreme trips

  /** `s.reduce((min, t) => f(t) < f(min) ? t : min, acc)`: the least value,
      and the earliest trip that has it. */
  function ReduceMin(acc: Trip, s: seq<Trip>, f: Trip -> real): (r: Trip)
    ensures r == acc || r in s
    ensures f(r) <= f(acc) && forall k :: 0 <= k < |s| ==> f(r) <= f(s[k])
    ensures f(r) == f(acc) ==> r == acc
    decreases |s|
  {
    if s == [] then acc else ReduceMin(if f(s[0]) < f(acc) then s[0] else acc, s[1..], f)
  }

  /** `s.reduce((max, t) => f(t) > f(max) ? t : max, acc)`: the greatest
      value, and the earliest trip that has it. */
  function ReduceMax(acc: Trip, s: seq<Trip>, f: Trip -> real): (r: Trip)
    ensures r == acc || r in s
    ensures f(acc) <= f(r) && forall k :: 0 <= k < |s| ==> f(s[k]) <= f(r)
    ensures f(r) == f(acc) ==> r == acc
    decreases |s|
  {
    if s == [] then acc else ReduceMax(if f(s[0]) > f(acc) then s[0] else acc, s[1..], f)
  }

  /** The reduction started from the first trip; none for no trips. */
  function MinBy(s: seq<Trip>, f: Trip -> real): (r: Option<Trip>)
    ensures r.None? <==> s == []
    ensures r.Some? ==> r.value in s && forall k :: 0 <= k < |s| ==> f(r.value) <= f(s[k])
  {
    if s == [] then None else Some(ReduceMin(s[0], s, f))
  }

  function MaxBy(s: seq<Trip>, f: Trip -> real): (r: Option<Trip>)
    ensures r.None? <==> s == []
    ensures r.Some? ==> r.value in s && forall k :: 0 <= k < |s| ==> f(s[k]) <= f(r.value)
  {
    if s == [] then None else Some(ReduceMax(s[0], s, f))
  }

  /** `Math.max(...ts.map(t => t.electricity || 0), 0)`. */
  function MaxKwh(ts: seq<Trip>): (r: real)
    ensures r >= 0.0 && forall k :: 0 <= k < |ts| ==> Kwh(ts[k]) <= r
    ensures r == 0.0 || exists k :: 0 <= k < |ts| && Kwh(ts[k]) == r
  {
    if ts == [] then 0.0
    else
      var rest := MaxKwh(ts[1..]);
      if Kwh(ts[0]) > rest then Kwh(ts[0]) else rest
  }

  // -------------------------------------------------------------- active days

  /** `(t.date || '').substring(0, 10)`. */
  function DayText(t: Trip): string {
    if |t.date| <= 10 then t.date else t.date[..10]
  }

  /** `ts.map(DayText).filter(d => d)`. */
  function DayTexts(ts: seq<Trip>): (r: seq<string>)
    ensures forall d :: d in r <==> d != "" && exists t :: t in ts && DayText(t) == d
  {
    if ts == [] then []
    else
      var rest := DayTexts(ts[1..]);
      assert forall t :: t in ts <==> t == ts[0] || t in ts[1..];
      (if DayText(ts[0]) != "" then [DayText(ts[0])] else []) + rest
  }

  /** `[...new Set(dates)]`: the distinct active days. */
  function ActiveDays(ts: seq<Trip>): seq<string> { Distinct(DayTexts(ts)) }

  /** The default `sort()` of strings. */
  function StrAsc(): (string, string) -> bool { (a: string, b: string) => StrLe(a, b) }

  /** `[...uniqueDays].sort()`. */
  function SortedDays(ts: seq<Trip>): seq<string> { SortBy(ActiveDays(ts), StrAsc()) }

  /** The sorted days are the distinct active days, each once, in ascending order. */
  lemma SortedDaysSpec(ts: seq<Trip>)
    ensures var s := SortedDays(ts);
      |s| == |ActiveDays(ts)| && NoRepeats(s) && SortedBy(s, StrAsc())
      && forall d :: d in s <==> d != "" && exists t :: t in ts && DayText(t) == d
  {
    StrLeTotalOrder();
    assert TotalPreorder(StrAsc());
    SortBySorted(ActiveDays(ts), StrAsc());
    PermutationNoRepeats(ActiveDays(ts), SortedDays(ts));
    forall d ensures d in SortedDays(ts) <==> d in ActiveDays(ts) {
      assert d in SortedDays(ts) <==> d in multiset(SortedDays(ts));
    }
  }

  // ------------------------------------------------------------------ streaks

  /** `diffDays === 1` between the days at `k - 1` and `k`. */
  predicate Next(days: seq<string>, cal: Calendar, k: int)
    requires 0 < k < |days|
  {
    var a, b := cal.dayNumber(days[k - 1]), cal.dayNumber(days[k]);
    a.Some? && b.Some? && b.value - a.value == 1
  }

  /** `days[i..j]` is a run of consecutive calendar days. */
  predicate Chain(days: seq<string>, cal: Calendar, i: int, j: int) {
    0 <= i < j <= |days| && forall k :: i < k < j ==> Next(days, cal, k)
  }

  /** The length of the run that ends at `k`. */
  function RunAt(days: seq<string>, cal: Calendar, k: nat): (n: nat)
    requires k < |days|
    ensures 1 <= n <= k + 1
  {
    if k == 0 || !Next(days, cal, k) then 1 else RunAt(days, cal, k - 1) + 1
  }

  function Max(a: nat, b: nat): nat { if a >= b then a else b }

  /** The longest run among the first `n` days. */
  function LongestUpTo(days: seq<string>, cal: Calendar, n: nat): nat
    requires n <= |days|
  {
    if n == 0 then 0 else Max(LongestUpTo(days, cal, n - 1), RunAt(days, cal, n - 1))
  }

  /** The longest run of consecutive days. */
  function Longest(days: seq<string>, cal: Calendar): nat {
    LongestUpTo(days, cal, |days|)
  }

  /** The run counted at `k` is a run, and no run ending at `k` is longer. */
  lemma {:induction false} RunAtIsLongestEnding(days: seq<string>, cal: Calendar, k: nat)
    requires k < |days|
    ensures Chain(days, cal, k + 1 - RunAt(days, cal, k), k + 1)
    ensures forall i, j :: j == k + 1 && Chain(days, cal, i, j) ==> j - i <= RunAt(days, cal, k)
  {
    if k > 0 && Next(days, cal, k) {
      RunAtIsLongestEnding(days, cal, k - 1);
      forall i, j | j == k + 1 && Chain(days, cal, i, j) ensures j - i <= RunAt(days, cal, k) {
        if i < k {
          assert Chain(days, cal, i, k);
        }
      }
    }
  }

  /** The longest run among the first `n` days is a run and no run there is
      longer; it is 0 exactly when there are no days. */
  lemma {:induction false} LongestIsLongestRun(days: seq<string>, cal: Calendar, n: nat)
    requires n <= |days|
    ensures LongestUpTo(days, cal, n) == 0 <==> n == 0
    ensures n > 0 ==> exists i, j :: Chain(days, cal, i, j) && j <= n && j - i == LongestUpTo(days, cal, n)
    ensures forall i, j :: Chain(days, cal, i, j) && j <= n ==> j - i <= LongestUpTo(days, cal, n)
  {
    if n > 0 {
      LongestIsLongestRun(days, cal, n - 1);
      RunAtIsLongestEnding(days, cal, n - 1);
      var run := RunAt(days, cal, n - 1);
      if LongestUpTo(days, cal, n) == run {
        assert Chain(days, cal, n - run, n);
      }
    }
  }

  /** The streak loop: a run grows while the next day follows the previous
      one, and the longest run so far is kept. */
  method MaxStreak(days: seq<string>, cal: Calendar) returns (maxStreak: nat)
    ensures maxStreak == Longest(days, cal)
  {
    var current := 1;
    maxStreak := if |days| > 0 then 1 else 0;
    var i := 1;
    while i < |days|
      invariant |days| == 0 ==> maxStreak == 0
      invariant |days| > 0 ==>
        1 <= i <= |days| && current == RunAt(days, cal, i - 1) && maxStreak == LongestUpTo(days, cal, i)
    {
      var prev, curr := cal.dayNumber(days[i - 1]), cal.dayNumber(days[i]);
      if prev.Some? && curr.Some? && curr.value - prev.value == 1 {
        current := current + 1;
        if current > maxStreak {
          maxStreak := current;
        }
      } else {
        current := 1;
      }
      i := i + 1;
    }
  }

  // ---------------------------------------------------------------- weekdays

  /** How many of `ts` fall on weekday `k`. */
  function OnWeekday(ts: seq<Trip>, cal: Calendar, k: int): (n: nat)
    ensures n <= |ts|
  {
    if ts == [] then 0
    else OnWeekday(ts[..|ts| - 1], cal, k) + (if cal.weekdayOf(ts[|ts| - 1].date) == Some(k) then 1 else 0)
  }

  /** How many of `ts` have a date that reads as a weekday. */
  function Dated(ts: seq<Trip>, cal: Calendar): (n: nat)
    ensures n <= |ts|
  {
    if ts == [] then 0
    else Dated(ts[..|ts| - 1], cal) + (if cal.weekdayOf(ts[|ts| - 1].date).Some? then 1 else 0)
  }

  /** `daysOfWeek`: the count per weekday, Sunday first. */
  function WeekdayCounts(ts: seq<Trip>, cal: Calendar): (r: seq<nat>)
    ensures |r| == 7
  {
    seq(7, k => OnWeekday(ts, cal, k))
  }

  function Sum7(c: seq<nat>): nat
    requires |c| == 7
  {
    c[0] + c[1] + c[2] + c[3] + c[4] + c[5] + c[6]
  }

  /** Every trip whose date reads is counted on exactly one weekday. */
  lemma {:induction false} WeekdaysAddUp(ts: seq<Trip>, cal: Calendar)
    ensures Sum7(WeekdayCounts(ts, cal)) == Dated(ts, cal)
  {
    if ts != [] {
      WeekdaysAddUp(ts[..|ts| - 1], cal);
    }
  }

  /** The `forEach` that fills `daysOfWeek`. */
  method CountWeekdays(ts: seq<Trip>, cal: Calendar) returns (counts: seq<nat>)
    ensures counts == WeekdayCounts(ts, cal)
  {
    counts := [0, 0, 0, 0, 0, 0, 0];
    var i := 0;
    while i < |ts|
      invariant 0 <= i <= |ts|
      invariant counts == WeekdayCounts(ts[..i], cal)
    {
      assert ts[..i + 1][..i] == ts[..i];
      var w := cal.weekdayOf(ts[i].date);
      if w.Some? {
        counts := counts[w.value := counts[w.value] + 1];
      }
      i := i + 1;
    }
    assert ts[..i] == ts;
  }

  /** `c.indexOf(Math.max(...c))`: the first index of the greatest count. */
  function FirstMax(c: seq<nat>): (i: nat)
    requires |c| > 0
    ensures i < |c| && forall k :: 0 <= k < |c| ==> c[k] <= c[i]
    ensures forall k :: 0 <= k < i ==> c[k] < c[i]
  {
    if |c| == 1 then 0
    else
      var j := FirstMax(c[..|c| - 1]);
      if c[|c| - 1] > c[j] then |c| - 1 else j
  }

  // ------------------------------------------------------------------ result

  /** A ratio scaled by `f`, multiplied back by its divisor. */
  lemma Scaled(x: real, y: real, f: real)
    requires y > 0.0
    ensures x / y * f * y == x * f
  {
  }

  /** `n > 0 ? x / n : 0`. */
  function Per(x: real, n: nat): (r: real)
    ensures n > 0 ==> r * n as real == x
    ensures n == 0 ==> r == 0.0
  {
    if n > 0 then x / n as real else 0.0
  }

  datatype Distance = Distance(total: real, avg: real, max: real, perDay: real, maxDate: string)
  datatype Energy = Energy(total: real, avgPerTrip: real, perDay: real, maxCons: real)
  datatype TripCounts = TripCounts(total: nat, perDay: real, mostActiveDayIndex: nat, maxStreak: nat)
  datatype Time = Time(totalHours: real, avgMinutes: real, maxDuration: real, minDuration: real)
  datatype Consumption = Consumption(avg: real, median: real, best: real, worst: real, bestDate: string)
  datatype Speeds = Speeds(avg: real, max: real, min: real, fastestTripDate: string)
  datatype AvgTrip = AvgTrip(dist: real, kwh: real, time: real, cost: real)
  datatype Active = Active(count: nat, maxStreak: nat, percentage: real)

  datatype Insights = Insights(
    distance: Distance, energy: Energy, trips: TripCounts, time: Time,
    efficiency: Consumption, speed: Speeds, avgTrip: AvgTrip, activeDays: Active,
    stationaryCount: nat, stationaryEnergy: real)

  /** The `distance` group over the driven trips and the active day count. */
  function DistanceOf(valid: seq<Trip>, days: nat): Distance {
    var totalKm := Total(valid, KmKey());
    var longest := MaxBy(valid, KmKey());
    Distance(totalKm, Per(totalKm, |valid|), if longest.Some? then Km(longest.value) else 0.0,
             Per(totalKm, days), if longest.Some? then longest.value.date else "")
  }

  /** The longest distance is that of a driven trip, with its date, and at
      least every other; the averages spread the total over the trips and
      over the days. */
  lemma DistanceSpec(valid: seq<Trip>, days: nat)
    ensures var d := DistanceOf(valid, days);
      d.total == Total(valid, KmKey())
      && (valid == [] ==> d.max == 0.0 && d.maxDate == "")
      && (valid != [] ==> exists k :: 0 <= k < |valid| && Km(valid[k]) == d.max && valid[k].date == d.maxDate)
      && (forall k :: 0 <= k < |valid| ==> Km(valid[k]) <= d.max)
      && d.avg == Per(d.total, |valid|) && d.perDay == Per(d.total, days)
  {
    var longest := MaxBy(valid, KmKey());
    if valid != [] {
      var k :| 0 <= k < |valid| && valid[k] == longest.value;
      assert Km(valid[k]) == DistanceOf(valid, days).max;
    }
    forall k | 0 <= k < |valid| ensures Km(valid[k]) <= DistanceOf(valid, days).max {
      assert KmKey()(valid[k]) <= KmKey()(longest.value);
    }
  }

  /** The `energy` group: the total adds the stationary energy to the driven one. */
  function EnergyOf(valid: seq<Trip>, stationaryEnergy: real, days: nat): Energy {
    var drivingKwh := Total(valid, KwhKey());
    Energy(drivingKwh + stationaryEnergy, Per(drivingKwh, |valid|), Per(drivingKwh, days), MaxKwh(valid))
  }

  /** The `trips` group: the count, per day, the busiest weekday and the streak. */
  function TripCountsOf(valid: seq<Trip>, cal: Calendar, days: nat): TripCounts {
    TripCounts(|valid|, Per(|valid| as real, days), FirstMax(WeekdayCounts(valid, cal)), Longest(SortedDays(valid), cal))
  }

  /** The `time` group; the shortest duration comes from the trips with a
      positive duration, else from the first trip. */
  function TimeOf(valid: seq<Trip>): Time {
    var seconds := Total(valid, DurationKey());
    var longest := MaxBy(valid, DurationKey());
    var timed := Filter(valid, Timed());
    var shortest := if timed != [] then MinBy(timed, DurationKey()) else if valid != [] then Some(valid[0]) else None;
    Time(seconds / 3600.0, Per(seconds / 60.0, |valid|),
         (if longest.Some? then longest.value.duration else 0.0) / 60.0,
         (if shortest.Some? then shortest.value.duration else 0.0) / 60.0)
  }

  /** The shortest duration never exceeds the longest, which is at least every
      trip's duration. */
  lemma TimeSpec(valid: seq<Trip>)
    ensures var t := TimeOf(valid);
      t.minDuration <= t.maxDuration
      && (forall k :: 0 <= k < |valid| ==> valid[k].duration / 60.0 <= t.maxDuration)
  {
    var longest := MaxBy(valid, DurationKey());
    var timed := Filter(valid, Timed());
    if timed != [] {
      var shortest := MinBy(timed, DurationKey()).value;
      FilterMembers(valid, Timed());
      var k :| 0 <= k < |valid| && valid[k] == shortest;
      assert DurationKey()(valid[k]) <= DurationKey()(longest.value);
    } else if valid != [] {
      assert DurationKey()(valid[0]) <= DurationKey()(longest.value);
    }
    forall k | 0 <= k < |valid| ensures valid[k].duration / 60.0 <= TimeOf(valid).maxDuration {
      assert DurationKey()(valid[k]) <= DurationKey()(longest.value);
    }
  }

  /** The `efficiency` group over the driven trips. */
  function ConsumptionOf(valid: seq<Trip>): Consumption {
    var totalKm := Total(valid, KmKey());
    var rated := Filter(valid, Rated());
    var best, worst := MinBy(rated, EfficiencyKey()), MaxBy(rated, EfficiencyKey());
    Consumption(if totalKm > 0.0 then Total(valid, KwhKey()) / totalKm * 100.0 else 0.0,
                Median(SortedEfficiencies(valid)),
                if best.Some? then Efficiency(best.value) else 0.0,
                if worst.Some? then Efficiency(worst.value) else 0.0,
                if best.Some? then best.value.date else "")
  }

  /** The efficiencies of the rated trips, ascending. */
  function SortedEfficiencies(valid: seq<Trip>): seq<real> {
    SortNumbers(Efficiencies(Filter(valid, Rated())))
  }

  /** The overall consumption is kWh per 100 km over all driven trips, and 0
      without distance. */
  lemma ConsumptionRate(valid: seq<Trip>)
    ensures var c, km := ConsumptionOf(valid), Total(valid, KmKey());
      (km > 0.0 ==> c.avg * km == Total(valid, KwhKey()) * 100.0) && (km <= 0.0 ==> c.avg == 0.0)
  {
    var km, kwh := Total(valid, KmKey()), Total(valid, KwhKey());
    if km > 0.0 {
      assert ConsumptionOf(valid).avg == kwh / km * 100.0;
      Scaled(kwh, km, 100.0);
    }
  }

  /** The best consumption is at most the median, which is at most the worst;
      every rated trip lies between best and worst, and the best date is that
      of a rated trip with the best consumption; with no rated trip all three
      are 0. */
  lemma ConsumptionOrder(valid: seq<Trip>)
    ensures var c := ConsumptionOf(valid);
      var rated := Filter(valid, Rated());
      c.best <= c.median <= c.worst
      && (forall k :: 0 <= k < |rated| ==> c.best <= Efficiency(rated[k]) <= c.worst)
      && (rated != [] ==> exists k :: 0 <= k < |rated| && Efficiency(rated[k]) == c.best && rated[k].date == c.bestDate)
      && (rated == [] ==> c.best == 0.0 && c.median == 0.0 && c.worst == 0.0 && c.bestDate == "")
  {
    var rated := Filter(valid, Rated());
    if rated != [] {
      var best, worst := MinBy(rated, EfficiencyKey()).value, MaxBy(rated, EfficiencyKey()).value;
      forall k | 0 <= k < |rated| ensures Efficiency(best) <= Efficiency(rated[k]) <= Efficiency(worst) {
        assert EfficiencyKey()(best) <= EfficiencyKey()(rated[k]) <= EfficiencyKey()(worst);
      }
      MedianBetween(rated, Efficiency(best), Efficiency(worst));
      var b :| 0 <= b < |rated| && rated[b] == best;
    }
  }

  /** Bounds that hold for every rated trip's consumption hold for the median. */
  lemma MedianBetween(rated: seq<Trip>, lo: real, hi: real)
    requires rated != []
    requires forall k :: 0 <= k < |rated| ==> lo <= Efficiency(rated[k]) <= hi
    ensures lo <= Median(SortNumbers(Efficiencies(rated))) <= hi
  {
    var effs := Efficiencies(rated);
    var sorted := SortNumbers(effs);
    forall i | 0 <= i < |sorted| ensures lo <= sorted[i] <= hi {
      assert sorted[i] in multiset(effs);
      var k :| 0 <= k < |effs| && effs[k] == sorted[i];
    }
    MedianWithin(sorted, lo, hi);
  }

  /** The `speed` group: overall km/h, the fastest driven trip and the slowest
      trip of more than a minute. */
  function SpeedsOf(valid: seq<Trip>): Speeds {
    var seconds := Total(valid, DurationKey());
    var fastest, slowest := MaxBy(valid, SpeedKey()), MinBy(Filter(valid, OverAMinute()), SpeedKey());
    var fast := fastest.Some? && Km(fastest.value) != 0.0;
    Speeds(if seconds > 0.0 then Total(valid, KmKey()) / (seconds / 3600.0) else 0.0,
           if fast then Speed(fastest.value) else 0.0,
           if slowest.Some? then Speed(slowest.value) else 0.0,
           if fast then fastest.value.date else "")
  }

  /** Among driven trips, the slowest speed is at most the fastest, which is
      at least every trip's speed. */
  lemma SpeedsSpec(valid: seq<Trip>)
    requires forall k :: 0 <= k < |valid| ==> Driven()(valid[k])
    ensures var s := SpeedsOf(valid);
      s.min <= s.max && forall k :: 0 <= k < |valid| ==> Speed(valid[k]) <= s.max
  {
    var fastest := MaxBy(valid, SpeedKey());
    var slow := Filter(valid, OverAMinute());
    forall k | 0 <= k < |valid| ensures Speed(valid[k]) <= SpeedsOf(valid).max {
      assert SpeedKey()(valid[k]) <= SpeedKey()(fastest.value);
      assert Driven()(fastest.value);
    }
    if slow != [] {
      var slowest := MinBy(slow, SpeedKey()).value;
      FilterMembers(valid, OverAMinute());
      var k :| 0 <= k < |valid| && valid[k] == slowest;
      assert SpeedKey()(valid[k]) <= SpeedKey()(fastest.value);
    } else if valid != [] {
      assert Driven()(fastest.value);
      assert 0.0 <= Speed(fastest.value);
    }
  }

  /** `avgCostPerTrip`: the driven energy per trip at the electricity price;
      over all trips it adds up to the priced driven energy. */
  function CostPerTrip(valid: seq<Trip>, electricityPrice: real): (r: real)
    ensures |valid| > 0 ==> r * |valid| as real == Total(valid, KwhKey()) * electricityPrice
    ensures |valid| == 0 ==> r == 0.0
  {
    var n := |valid|;
    if n > 0 then
      Scaled(Total(valid, KwhKey()), n as real, electricityPrice);
      Total(valid, KwhKey()) / n as real * electricityPrice
    else 0.0
  }

  /** `useTripInsights`: none for no records. */
  function TripInsightsOf(trips: seq<Trip>, electricityPrice: real, cal: Calendar): (r: Option<Insights>)
    ensures r.None? <==> trips == []
  {
    if trips == [] then None
    else
      var valid, stationary := Filter(trips, Driven()), Filter(trips, Stationary());
      var n, days := |valid|, |ActiveDays(valid)|;
      var stationaryEnergy := Total(stationary, KwhKey());
      var distance, energy, time := DistanceOf(valid, days), EnergyOf(valid, stationaryEnergy, days), TimeOf(valid);
      var counts := TripCountsOf(valid, cal, days);
      var cost := CostPerTrip(valid, electricityPrice);
      Some(Insights(distance, energy, counts, time, ConsumptionOf(valid), SpeedsOf(valid),
                    AvgTrip(distance.avg, energy.avgPerTrip, time.avgMinutes, cost),
                    Active(days, counts.maxStreak, 0.0), |stationary|, stationaryEnergy))
  }

  /** Every record is either a driven trip or a stationary one: the counts add
      up to all records and the total energy is the energy of all records. */
  lemma InsightsPartition(trips: seq<Trip>, price: real, cal: Calendar)
    requires trips != []
    ensures var r := TripInsightsOf(trips, price, cal).value;
      var valid := Filter(trips, Driven());
      r.trips.total + r.stationaryCount == |trips|
      && r.energy.total == Total(trips, KwhKey())
      && r.stationaryEnergy == Total(Filter(trips, Stationary()), KwhKey())
  {
    TotalSplits(trips, KwhKey(), Driven());
    var valid, stationary := Filter(trips, Driven()), Filter(trips, Stationary());
    var se := Total(stationary, KwhKey());
    var e := EnergyOf(valid, se, |ActiveDays(valid)|);
    assert e.total == Total(valid, KwhKey()) + se;
    assert TripInsightsOf(trips, price, cal).value.energy == e;
  }

  /** Every group is computed over the driven trips only, and the active days
      are the distinct days of driven trips; the per-day averages are 0
      without active days. */
  lemma InsightsOverDriven(trips: seq<Trip>, price: real, cal: Calendar)
    requires trips != []
    ensures var r := TripInsightsOf(trips, price, cal).value;
      var valid := Filter(trips, Driven());
      r.activeDays.count == |ActiveDays(valid)|
      && r.distance == DistanceOf(valid, r.activeDays.count)
      && r.efficiency == ConsumptionOf(valid)
      && r.time == TimeOf(valid) && r.speed == SpeedsOf(valid)
      && r.avgTrip.cost == CostPerTrip(valid, price)
      && (r.activeDays.count == 0 ==> r.distance.perDay == 0.0 && r.energy.perDay == 0.0 && r.trips.perDay == 0.0)
  {
  }

  /** The streak is the longest run of consecutive days among the distinct
      active days, sorted: no run is longer and one run has that length. It is
      0 exactly when there are no active days, and never exceeds their number. */
  lemma InsightsStreak(trips: seq<Trip>, price: real, cal: Calendar)
    requires trips != []
    ensures var r := TripInsightsOf(trips, price, cal).value;
      var days := SortedDays(Filter(trips, Driven()));
      r.activeDays.maxStreak == r.trips.maxStreak
      && (r.trips.maxStreak == 0 <==> r.activeDays.count == 0)
      && r.trips.maxStreak <= r.activeDays.count && |days| == r.activeDays.count
      && (forall i, j :: Chain(days, cal, i, j) ==> j - i <= r.trips.maxStreak)
      && (r.activeDays.count > 0 ==> exists i, j :: Chain(days, cal, i, j) && j - i == r.trips.maxStreak)
  {
    var valid := Filter(trips, Driven());
    var days := SortedDays(valid);
    SortedDaysSpec(valid);
    LongestIsLongestRun(days, cal, |days|);
  }

  /** The most active weekday has the greatest count, and every earlier weekday
      a smaller one. */
  lemma InsightsBusiestDay(trips: seq<Trip>, price: real, cal: Calendar)
    requires trips != []
    ensures var r := TripInsightsOf(trips, price, cal).value;
      var c := WeekdayCounts(Filter(trips, Driven()), cal);
      r.trips.mostActiveDayIndex < 7 && (forall k :: 0 <= k < 7 ==> c[k] <= c[r.trips.mostActiveDayIndex])
      && (forall k :: 0 <= k < r.trips.mostActiveDayIndex ==> c[k] < c[r.trips.mostActiveDayIndex])
  {
  }
}
