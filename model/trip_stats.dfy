/** The main loop of `processData` in src/core/dataProcessing.ts (the same in
    src/core/dataProcessing.js): every trip is priced, a trip under half a
    kilometre only adds its energy, fuel and cost to the stationary totals, and
    every other trip is kept as valid and passed to `updateAggregators`, which
    adds it to the running statistics, to its month and day, to its hour and
    weekday, to one of five distance buckets and, when its consumption is
    plausible, to the efficiency scatter.

    The aggregators are objects the loop updates in place; here they are the
    fields of an `Aggregators` object, and the three fixed-length tables
    (24 hours, 7 weekdays, 5 distance buckets) are arrays. Every update is
    specified by a function on the values of those fields (`AggState`), and
    the lemmas state what the whole fold promises. */
module TripStats {
  import opened Wrappers
  import opened Records
  import opened KeyedMap
  import opened TripPricing
  import opened Seqs

  type Hour = h: int | 0 <= h < 24
  type WeekDay = d: int | 0 <= d < 7

  /** `new Date(ts * 1000)` read in the device's time zone: `getHours()` and
      `getDay()` (0 is Sunday). */
  datatype LocalClock = LocalClock(hourOf: int -> Hour, dayOf: int -> WeekDay)

  /** The running statistics. `None` in `maxKm`, `maxKwh`, `maxDur` and
      `maxCost` is the starting `-Infinity`, in `minKm` the starting
      `Infinity`; a missing `maxCostDate` is "". */
  datatype Stats = Stats(
    totalKm: real, totalKwh: real, drivingKwh: real, stationaryKwh: real,
    totalFuel: real, totalDuration: real, hasAnyFuel: bool,
    electricOnlyKm: real, fuelUsedKm: real, electricOnlyTrips: nat, fuelUsedTrips: nat,
    maxKm: Option<real>, minKm: Option<real>, maxKwh: Option<real>, maxDur: Option<real>,
    maxFuel: real, maxCost: Option<real>, maxCostDate: string)

  const InitialStats := Stats(0.0, 0.0, 0.0, 0.0, 0.0, 0.0, false, 0.0, 0.0, 0, 0,
                              None, None, None, None, 0.0, None, "")

  /** `if (x > cur) cur = x` with `cur` starting at `-Infinity`. */
  function Above(cur: Option<real>, x: real): (r: Option<real>)
    ensures r.Some? && x <= r.value
    ensures cur.Some? ==> cur.value <= r.value
    ensures r == Some(x) || r == cur
  {
    if cur.None? || x > cur.value then Some(x) else cur
  }

  /** `if (x < cur) cur = x` with `cur` starting at `Infinity`. */
  function Below(cur: Option<real>, x: real): (r: Option<real>)
    ensures r.Some? && r.value <= x
    ensures cur.Some? ==> r.value <= cur.value
    ensures r == Some(x) || r == cur
  {
    if cur.None? || x < cur.value then Some(x) else cur
  }

  /** One month's or one day's totals. */
  datatype Period = Period(key: string, trips: nat, km: real, kwh: real, fuel: real)

  /** `trip.month || 'unknown'`. */
  function MonthKey(t: Trip): string { if t.month == "" then "unknown" else t.month }

  /** `trip.date || 'unknown'`. */
  function DateKey(t: Trip): string { if t.date == "" then "unknown" else t.date }

  /** Create the period of `key` with zero totals if it is missing, then add the trip. */
  function AddToPeriod(m: Entries<string, Period>, key: string, t: Trip): Entries<string, Period> {
    Set(m, key, NextPeriod(m, key, t))
  }

  /** An hour or weekday entry: trips and kilometres. */
  datatype Bin = Bin(trips: nat, km: real)

  function AddToBin(bins: seq<Bin>, i: int, km: real): (r: seq<Bin>)
    requires 0 <= i < |bins|
    ensures |r| == |bins|
  {
    bins[i := Bin(bins[i].trips + 1, bins[i].km + km)]
  }

  /** The distance bucket: up to 5, 15, 30, 50 km, and beyond. */
  function Bucket(km: real): (b: nat)
    ensures b < 5
    ensures b == 0 <==> km <= 5.0
    ensures b == 4 <==> km > 50.0
  {
    if km <= 5.0 then 0 else if km <= 15.0 then 1 else if km <= 30.0 then 2 else if km <= 50.0 then 3 else 4
  }

  datatype ScatterPoint = ScatterPoint(x: real, y: real, fuel: real)

  function NoTrips(i: int): nat { 0 }

  function EmptyBin(i: int): Bin { Bin(0, 0.0) }

  function EmptyBins(n: nat): (r: seq<Bin>)
    ensures |r| == n && forall i :: 0 <= i < n ==> r[i] == Bin(0, 0.0)
  {
    if n == 0 then [] else EmptyBins(n - 1) + [Bin(0, 0.0)]
  }

  /** The values of all the aggregators at one point of the loop. */
  datatype AggState = AggState(
    stats: Stats,
    monthly: Entries<string, Period>,
    daily: Entries<string, Period>,
    uniqueDates: set<string>,
    hourly: seq<Bin>,
    weekday: seq<Bin>,
    distribution: seq<nat>,
    scatter: seq<ScatterPoint>,
    validTrips: seq<Trip>)

  predicate WellFormed(s: AggState) {
    |s.hourly| == 24 && |s.weekday| == 7 && |s.distribution| == 5
  }

  const Initial := AggState(InitialStats, [], [], {}, EmptyBins(24),
                            EmptyBins(7), [0, 0, 0, 0, 0], [], [])

  /** The running statistics after one valid trip with cost `cost`. */
  function TripTotals(st: Stats, t: Trip, cost: real): Stats {
    var km, kwh, fuel, dur := Km(t), Kwh(t), t.fuel, t.duration;
    var costMax := st.maxCost.None? || cost > st.maxCost.value;
    Stats(st.totalKm + km, st.totalKwh + kwh, st.drivingKwh + kwh, st.stationaryKwh,
          st.totalFuel + fuel, st.totalDuration + dur, st.hasAnyFuel,
          if fuel > 0.0 then st.electricOnlyKm else st.electricOnlyKm + km,
          if fuel > 0.0 then st.fuelUsedKm + km else st.fuelUsedKm,
          if fuel > 0.0 then st.electricOnlyTrips else st.electricOnlyTrips + 1,
          if fuel > 0.0 then st.fuelUsedTrips + 1 else st.fuelUsedTrips,
          Above(st.maxKm, km), Below(st.minKm, km), Above(st.maxKwh, kwh), Above(st.maxDur, dur),
          if fuel > 0.0 && fuel > st.maxFuel then fuel else st.maxFuel,
          if costMax then Some(cost) else st.maxCost,
          if costMax then t.date else st.maxCostDate)
  }

  /** A stationary trip adds only its energy, fuel and cost. */
  function StationaryTotals(st: Stats, t: Trip, cost: real): Stats {
    var costMax := st.maxCost.None? || cost > st.maxCost.value;
    st.(stationaryKwh := st.stationaryKwh + Kwh(t), totalKwh := st.totalKwh + Kwh(t),
        totalFuel := st.totalFuel + t.fuel,
        maxCost := if costMax then Some(cost) else st.maxCost,
        maxCostDate := if costMax then t.date else st.maxCostDate)
  }

  /** The trip's `(electricity / trip) * 100`, when both are positive. */
  function ScatterOf(t: Trip): Option<ScatterPoint> {
    var km, kwh := Km(t), Kwh(t);
    if km > 0.0 && kwh > 0.0 then
      var y := kwh / km * 100.0;
      if y > 0.0 && y < 50.0 then Some(ScatterPoint(km, y, t.fuel)) else None
    else None
  }

  /** The hour slot of a trip with a start time. */
  function HourSlot(t: Trip, clock: LocalClock): Hour { clock.hourOf(t.startTs) }

  /** `(getDay() + 6) % 7`: the weekday table starts on Monday, so Sunday
      (`getDay()` 0) goes to the last slot and every other day one slot
      earlier. */
  function DaySlot(t: Trip, clock: LocalClock): (r: WeekDay)
    ensures var d := clock.dayOf(t.startTs); (d == 0 ==> r == 6) && (d > 0 ==> r == d - 1)
  {
    (clock.dayOf(t.startTs) + 6) % 7
  }

  /** `updateAggregators(trip, ...)` on the values of the aggregators. */
  function Aggregate(s: AggState, t: Trip, cost: real, clock: LocalClock): (r: AggState)
    requires WellFormed(s)
    ensures WellFormed(r)
  {
    var km := Km(t);
    var timed := t.startTs != 0;
    var p := ScatterOf(t);
    s.(stats := TripTotals(s.stats, t, cost),
       monthly := AddToPeriod(s.monthly, MonthKey(t), t),
       daily := AddToPeriod(s.daily, DateKey(t), t),
       uniqueDates := s.uniqueDates + {DateKey(t)},
       hourly := if timed then AddToBin(s.hourly, HourSlot(t, clock), km) else s.hourly,
       weekday := if timed then AddToBin(s.weekday, DaySlot(t, clock), km) else s.weekday,
       distribution := AddToBucket(s.distribution, km),
       scatter := if p.Some? then s.scatter + [p.value] else s.scatter)
  }

  function AddToBucket(counts: seq<nat>, km: real): (r: seq<nat>)
    requires |counts| == 5
    ensures |r| == 5
  {
    counts[Bucket(km) := counts[Bucket(km)] + 1]
  }

  /** The trip's cost as the loop computes it. */
  function CostValue(t: Trip, ps: PriceStrategies): real { CostOf(t, ps).calculatedCost }

  /** The statistics part of one pass: note any fuel, then the stationary or
      the valid-trip totals. */
  function StepStats(st: Stats, t: Trip, cost: real): Stats {
    var st1 := st.(hasAnyFuel := st.hasAnyFuel || t.fuel > 0.0);
    if IsStationary(t) then StationaryTotals(st1, t, cost) else TripTotals(st1, t, cost)
  }

  /** One pass of the main loop: price the trip, note any fuel, then either
      the stationary totals or a new valid trip and `updateAggregators`. */
  function Step(s: AggState, t: Trip, ps: PriceStrategies, clock: LocalClock): (r: AggState)
    requires WellFormed(s)
    ensures WellFormed(r)
  {
    var cost := CostValue(t, ps);
    var st := s.stats.(hasAnyFuel := s.stats.hasAnyFuel || t.fuel > 0.0);
    if IsStationary(t) then s.(stats := StationaryTotals(st, t, cost))
    else Aggregate(s.(stats := st, validTrips := s.validTrips + [t]), t, cost, clock)
  }

  // ------------------------------------------------------------ the loop as folds

  /** The statistics after the loop has seen `trips`. */
  function StatsFold(trips: seq<Trip>, ps: PriceStrategies): Stats
    decreases |trips|
  {
    if trips == [] then InitialStats
    else
      var n := |trips| - 1;
      StepStats(StatsFold(trips[..n], ps), trips[n], CostValue(trips[n], ps))
  }

  /** `trips.filter(t => !isStationaryTrip(t))`: the trips the loop keeps as valid. */
  function Active(trips: seq<Trip>): (r: seq<Trip>)
    ensures |r| <= |trips|
    ensures forall t :: t in r <==> t in trips && !IsStationary(t)
    decreases |trips|
  {
    if trips == [] then []
    else
      var n := |trips| - 1;
      Active(trips[..n]) + (if IsStationary(trips[n]) then [] else [trips[n]])
  }

  /** Every trip added to the period of its key. */
  function Periods(trips: seq<Trip>, key: Trip -> string): Entries<string, Period>
    decreases |trips|
  {
    if trips == [] then []
    else
      var n := |trips| - 1;
      AddToPeriod(Periods(trips[..n], key), key(trips[n]), trips[n])
  }

  function DateSet(trips: seq<Trip>): set<string>
    decreases |trips|
  {
    if trips == [] then {}
    else
      var n := |trips| - 1;
      DateSet(trips[..n]) + {DateKey(trips[n])}
  }

  function HourBins(trips: seq<Trip>, clock: LocalClock): (r: seq<Bin>)
    ensures |r| == 24
    decreases |trips|
  {
    if trips == [] then EmptyBins(24)
    else
      var n := |trips| - 1;
      var t := trips[n];
      var prev := HourBins(trips[..n], clock);
      if t.startTs != 0 then AddToBin(prev, HourSlot(t, clock), Km(t)) else prev
  }

  function WeekdayBins(trips: seq<Trip>, clock: LocalClock): (r: seq<Bin>)
    ensures |r| == 7
    decreases |trips|
  {
    if trips == [] then EmptyBins(7)
    else
      var n := |trips| - 1;
      var t := trips[n];
      var prev := WeekdayBins(trips[..n], clock);
      if t.startTs != 0 then AddToBin(prev, DaySlot(t, clock), Km(t)) else prev
  }

  function BucketCounts(trips: seq<Trip>): (r: seq<nat>)
    ensures |r| == 5
    decreases |trips|
  {
    if trips == [] then [0, 0, 0, 0, 0]
    else
      var n := |trips| - 1;
      AddToBucket(BucketCounts(trips[..n]), Km(trips[n]))
  }

  function ScatterAll(trips: seq<Trip>): (r: seq<ScatterPoint>)
    decreases |trips|
  {
    if trips == [] then []
    else
      var n := |trips| - 1;
      var p := ScatterOf(trips[n]);
      ScatterAll(trips[..n]) + (if p.Some? then [p.value] else [])
  }

  /** The aggregators after the loop has seen `trips`: each one is a fold of
      its own over the trips (the statistics) or over the valid trips. */
  function Fold(trips: seq<Trip>, ps: PriceStrategies, clock: LocalClock): (r: AggState)
    ensures WellFormed(r)
  {
    var v := Active(trips);
    AggState(StatsFold(trips, ps), Periods(v, MonthKey), Periods(v, DateKey), DateSet(v),
             HourBins(v, clock), WeekdayBins(v, clock), BucketCounts(v), ScatterAll(v), v)
  }

  /** One pass of the loop takes the folds over a prefix to the folds over
      one more trip. */
  lemma FoldStep(trips: seq<Trip>, ps: PriceStrategies, clock: LocalClock)
    requires trips != []
    ensures Fold(trips, ps, clock) == Step(Fold(trips[..|trips| - 1], ps, clock), trips[|trips| - 1], ps, clock)
  {
    var n := |trips| - 1;
    var t := trips[n];
    var s := Fold(trips[..n], ps, clock);
    var r := Step(s, t, ps, clock);
    var f := Fold(trips, ps, clock);
    assert f.stats == r.stats;
    if IsStationary(t) {
      assert Active(trips) == Active(trips[..n]);
      assert f == r;
    } else {
      var v := Active(trips[..n]);
      var w := v + [t];
      assert Active(trips) == w;
      assert w[..|w| - 1] == v;
      ActiveStep(s, t, ps, clock, v, w);
      assert f == r;
    }
  }

  /** The valid-trip half of `FoldStep`, over the folds of `v` and `v + [t]`. */
  lemma ActiveStep(s: AggState, t: Trip, ps: PriceStrategies, clock: LocalClock, v: seq<Trip>, w: seq<Trip>)
    requires WellFormed(s) && !IsStationary(t) && w == v + [t] && w[..|w| - 1] == v
    requires s.validTrips == v && s.monthly == Periods(v, MonthKey) && s.daily == Periods(v, DateKey)
    requires s.uniqueDates == DateSet(v) && s.hourly == HourBins(v, clock) && s.weekday == WeekdayBins(v, clock)
    requires s.distribution == BucketCounts(v) && s.scatter == ScatterAll(v)
    ensures var r := Step(s, t, ps, clock);
      r.validTrips == w && r.monthly == Periods(w, MonthKey) && r.daily == Periods(w, DateKey)
      && r.uniqueDates == DateSet(w) && r.hourly == HourBins(w, clock) && r.weekday == WeekdayBins(w, clock)
      && r.distribution == BucketCounts(w) && r.scatter == ScatterAll(w)
  {
  }

  lemma FoldEmpty(ps: PriceStrategies, clock: LocalClock)
    ensures Fold([], ps, clock) == Initial
  {
  }

  // ------------------------------------------------------------ the aggregators in place

  class Aggregators {
    var stats: Stats
    var monthly: Entries<string, Period>
    var daily: Entries<string, Period>
    var uniqueDates: set<string>
    const hourly: array<Bin>
    const weekday: array<Bin>
    const distribution: array<nat>
    var scatter: seq<ScatterPoint>
    var validTrips: seq<Trip>

    predicate Valid() {
      hourly.Length == 24 && weekday.Length == 7 && distribution.Length == 5 && hourly != weekday
    }

    function State(): (s: AggState)
      reads this, hourly, weekday, distribution
      ensures Valid() ==> WellFormed(s)
    {
      AggState(stats, monthly, daily, uniqueDates, hourly[..], weekday[..], distribution[..], scatter, validTrips)
    }

    /** The aggregators as `processData` creates them: zero totals, empty
        dictionaries and zeroed tables. */
    constructor ()
      ensures Valid() && State() == Initial
      ensures fresh(hourly) && fresh(weekday) && fresh(distribution)
    {
      stats := InitialStats;
      monthly, daily, uniqueDates := [], [], {};
      hourly := new Bin[24](EmptyBin);
      weekday := new Bin[7](EmptyBin);
      distribution := new nat[5](NoTrips);
      scatter, validTrips := [], [];
    }

    /** `updateAggregators(trip, ...)`: `cost` is `trip.calculatedCost || 0`. */
    method Update(t: Trip, cost: real, clock: LocalClock)
      requires Valid()
      modifies this, hourly, weekday, distribution
      ensures Valid()
      ensures State() == Aggregate(old(State()), t, cost, clock)
    {
      UpdateTotals(t, cost);
      UpdateTables(t, clock);
      var p := ScatterOf(t);
      if p.Some? {
        scatter := scatter + [p.value];
      }
    }

    /** The running statistics and the month and day dictionaries. */
    method UpdateTotals(t: Trip, cost: real)
      modifies this
      ensures stats == TripTotals(old(stats), t, cost)
      ensures monthly == AddToPeriod(old(monthly), MonthKey(t), t)
      ensures daily == AddToPeriod(old(daily), DateKey(t), t)
      ensures uniqueDates == old(uniqueDates) + {DateKey(t)}
      ensures scatter == old(scatter) && validTrips == old(validTrips)
    {
      stats := TripTotals(stats, t, cost);
      monthly := AddToPeriod(monthly, MonthKey(t), t);
      var d := DateKey(t);
      uniqueDates := uniqueDates + {d};
      daily := AddToPeriod(daily, d, t);
    }

    /** The hour, weekday and distance tables. */
    method UpdateTables(t: Trip, clock: LocalClock)
      requires Valid()
      modifies hourly, weekday, distribution
      ensures hourly[..] == if t.startTs != 0 then AddToBin(old(hourly[..]), HourSlot(t, clock), Km(t)) else old(hourly[..])
      ensures weekday[..] == if t.startTs != 0 then AddToBin(old(weekday[..]), DaySlot(t, clock), Km(t)) else old(weekday[..])
      ensures distribution[..] == AddToBucket(old(distribution[..]), Km(t))
    {
      var km := Km(t);
      if t.startTs != 0 {
        var h := HourSlot(t, clock);
        hourly[h] := Bin(hourly[h].trips + 1, hourly[h].km + km);
        var w := DaySlot(t, clock);
        weekday[w] := Bin(weekday[w].trips + 1, weekday[w].km + km);
      }
      var b := Bucket(km);
      distribution[b] := distribution[b] + 1;
    }

    /** The body of the main loop for one trip; `c` holds the cost fields
        written onto the trip. */
    method ProcessTrip(t: Trip, ps: PriceStrategies, clock: LocalClock) returns (c: TripCost)
      requires Valid()
      modifies this, hourly, weekday, distribution
      ensures Valid()
      ensures State() == Step(old(State()), t, ps, clock)
      ensures c == CostOf(t, ps)
    {
      c := CalculateTripCost(t, ps);
      if t.fuel > 0.0 {
        stats := stats.(hasAnyFuel := true);
      }
      if IsStationary(t) {
        stats := StationaryTotals(stats, t, c.calculatedCost);
        return;
      }
      validTrips := validTrips + [t];
      Update(t, c.calculatedCost, clock);
    }
  }

  /** One more trip priced: the decorated list grows by that trip and its cost. */
  lemma DecorateNext(trips: seq<Trip>, i: nat, ps: PriceStrategies, costed: seq<CostedTrip>, c: TripCost)
    requires i < |trips| && costed == Mapped(trips[..i], Decorate(ps)) && c == CostOf(trips[i], ps)
    ensures costed + [CostedTrip(trips[i], c)] == Mapped(trips[..i + 1], Decorate(ps))
  {
    MappedSnoc(trips[..i], trips[i], Decorate(ps));
    assert trips[..i + 1] == trips[..i] + [trips[i]];
  }

  /** The main loop of `processData` over the kept trips. `costed` lists the
      trips as the loop leaves them, each decorated with its cost. */
  method RunAggregation(trips: seq<Trip>, ps: PriceStrategies, clock: LocalClock)
    returns (agg: Aggregators, costed: seq<CostedTrip>)
    ensures fresh(agg) && agg.Valid()
    ensures agg.State() == Fold(trips, ps, clock)
    ensures costed == Mapped(trips, Decorate(ps))
  {
    agg := new Aggregators();
    costed := [];
    FoldEmpty(ps, clock);
    var i := 0;
    while i < |trips|
      invariant 0 <= i <= |trips|
      invariant fresh(agg) && fresh(agg.hourly) && fresh(agg.weekday) && fresh(agg.distribution)
      invariant agg.Valid()
      invariant agg.State() == Fold(trips[..i], ps, clock)
      invariant costed == Mapped(trips[..i], Decorate(ps))
    {
      assert trips[..i + 1][..i] == trips[..i];
      FoldStep(trips[..i + 1], ps, clock);
      var c := agg.ProcessTrip(trips[i], ps, clock);
      DecorateNext(trips, i, ps, costed, c);
      costed := costed + [CostedTrip(trips[i], c)];
      i := i + 1;
    }
    assert trips[..i] == trips;
  }

  // ------------------------------------------------------------ what the loop promises

  /** The energy total is the driving energy plus the stationary energy, the
      distance is split between electric-only and fuel-using trips, and so are
      the valid trips; only valid trips add driving time. */
  lemma {:induction false} FoldTotals(trips: seq<Trip>, ps: PriceStrategies)
    ensures var st := StatsFold(trips, ps);
      st.totalKwh == st.drivingKwh + st.stationaryKwh
      && st.totalKm == st.electricOnlyKm + st.fuelUsedKm
      && st.electricOnlyTrips + st.fuelUsedTrips == |Active(trips)|
      && (Active(trips) == [] ==> st.totalDuration == 0.0)
    decreases |trips|
  {
    if trips != [] {
      FoldTotals(trips[..|trips| - 1], ps);
    }
  }

  /** `hasAnyFuel` is set exactly when some trip, stationary or not, used fuel. */
  lemma {:induction false} FoldHasAnyFuel(trips: seq<Trip>, ps: PriceStrategies)
    ensures StatsFold(trips, ps).hasAnyFuel <==> exists t :: t in trips && t.fuel > 0.0
    decreases |trips|
  {
    if trips != [] {
      var n := |trips| - 1;
      FoldHasAnyFuel(trips[..n], ps);
      assert trips == trips[..n] + [trips[n]];
    }
  }

  /** The longest and shortest distances are those of some valid trip, bound
      every valid trip's distance, and are still infinite only when there is no
      valid trip. */
  lemma {:induction false} FoldExtremes(trips: seq<Trip>, ps: PriceStrategies)
    ensures var st, v := StatsFold(trips, ps), Active(trips);
      (st.maxKm.Some? <==> v != []) && (st.minKm.Some? <==> v != [])
      && (v != [] ==>
            (forall t :: t in v ==> st.minKm.value <= Km(t) <= st.maxKm.value)
            && (exists t :: t in v && Km(t) == st.maxKm.value)
            && (exists t :: t in v && Km(t) == st.minKm.value))
    decreases |trips|
  {
    if trips != [] {
      var n := |trips| - 1;
      var t := trips[n];
      FoldExtremes(trips[..n], ps);
      if !IsStationary(t) {
        var v := Active(trips[..n]);
        assert Active(trips) == v + [t];
        assert forall u :: u in v + [t] <==> u in v || u == t;
      }
    }
  }

  function SumCounts(s: seq<nat>): nat {
    if s == [] then 0 else s[0] + SumCounts(s[1..])
  }

  /** Adding one to an entry adds one to the sum. */
  lemma {:induction false} SumCountsIncrement(s: seq<nat>, i: nat)
    requires i < |s|
    ensures SumCounts(s[i := s[i] + 1]) == SumCounts(s) + 1
  {
    if i > 0 {
      SumCountsIncrement(s[1..], i - 1);
      assert s[i := s[i] + 1][1..] == s[1..][i - 1 := s[i] + 1];
    }
  }

  /** Every valid trip falls in exactly one distance bucket, so the bucket
      counts add up to the number of valid trips. */
  lemma {:induction false} BucketTotal(v: seq<Trip>)
    ensures SumCounts(BucketCounts(v)) == |v|
    decreases |v|
  {
    if v == [] {
      assert SumCounts([0, 0, 0, 0, 0]) == SumCounts([0, 0, 0, 0]) == SumCounts([0, 0, 0]) == SumCounts([0, 0]) == 0;
    } else {
      var n := |v| - 1;
      BucketTotal(v[..n]);
      SumCountsIncrement(BucketCounts(v[..n]), Bucket(Km(v[n])));
    }
  }

  function SumTrips(bins: seq<Bin>): nat {
    if bins == [] then 0 else bins[0].trips + SumTrips(bins[1..])
  }

  lemma {:induction false} SumTripsIncrement(bins: seq<Bin>, i: nat, km: real)
    requires i < |bins|
    ensures SumTrips(AddToBin(bins, i, km)) == SumTrips(bins) + 1
  {
    if i > 0 {
      SumTripsIncrement(bins[1..], i - 1, km);
      assert AddToBin(bins, i, km)[1..] == AddToBin(bins[1..], i - 1, km);
    }
  }

  lemma {:induction false} SumTripsEmpty(n: nat)
    ensures SumTrips(EmptyBins(n)) == 0
  {
    if n > 0 {
      SumTripsEmpty(n - 1);
      SumTripsSnoc(EmptyBins(n - 1), Bin(0, 0.0));
    }
  }

  lemma {:induction false} SumTripsSnoc(bins: seq<Bin>, b: Bin)
    ensures SumTrips(bins + [b]) == SumTrips(bins) + b.trips
  {
    if bins != [] {
      assert (bins + [b])[1..] == bins[1..] + [b];
      SumTripsSnoc(bins[1..], b);
    }
  }

  /** The valid trips with a truthy start time. */
  function Timed(trips: seq<Trip>): (r: seq<Trip>)
    ensures |r| <= |trips|
    ensures forall t :: t in r <==> t in trips && t.startTs != 0
    decreases |trips|
  {
    if trips == [] then []
    else
      var n := |trips| - 1;
      Timed(trips[..n]) + (if trips[n].startTs != 0 then [trips[n]] else [])
  }

  /** Each valid trip with a start time is counted in exactly one hour and in
      exactly one weekday; trips without one are in neither. */
  lemma {:induction false} HourWeekdayTotals(v: seq<Trip>, clock: LocalClock)
    ensures SumTrips(HourBins(v, clock)) == |Timed(v)|
    ensures SumTrips(WeekdayBins(v, clock)) == |Timed(v)|
    decreases |v|
  {
    if v == [] {
      SumTripsEmpty(24);
      SumTripsEmpty(7);
    } else {
      var n := |v| - 1;
      var t := v[n];
      HourWeekdayTotals(v[..n], clock);
      if t.startTs != 0 {
        SumTripsIncrement(HourBins(v[..n], clock), HourSlot(t, clock), Km(t));
        SumTripsIncrement(WeekdayBins(v[..n], clock), DaySlot(t, clock), Km(t));
      }
    }
  }

  lemma AddToPeriodHas(m: Entries<string, Period>, key: string, t: Trip, d: string)
    ensures Has(AddToPeriod(m, key, t), d) <==> Has(m, d) || d == key
  {
    var r := AddToPeriod(m, key, t);
    if Has(m, d) {
      var i :| 0 <= i < |m| && m[i].0 == d;
      assert r[i].0 == d;
    }
    if d == key && !Has(m, key) {
      assert r[|m|].0 == d;
    }
    if Has(r, d) && d != key {
      var i :| 0 <= i < |r| && r[i].0 == d;
      assert i < |m| && r[i] == m[i];
    }
  }

  /** How many trips have key `k`. */
  function CountKey(trips: seq<Trip>, key: Trip -> string, k: string): nat
    decreases |trips|
  {
    if trips == [] then 0
    else
      var n := |trips| - 1;
      CountKey(trips[..n], key, k) + (if key(trips[n]) == k then 1 else 0)
  }

  /** A period dictionary has one entry per key, and a key has an entry
      exactly when some trip carries it. */
  lemma {:induction false} PeriodKeys(trips: seq<Trip>, key: Trip -> string)
    ensures UniqueKeys(Periods(trips, key))
    ensures forall k :: Has(Periods(trips, key), k) <==> CountKey(trips, key, k) > 0
    decreases |trips|
  {
    if trips != [] {
      var n := |trips| - 1;
      var t := trips[n];
      var m := Periods(trips[..n], key);
      PeriodKeys(trips[..n], key);
      SetProperties(m, key(t), NextPeriod(m, key(t), t));
      forall k ensures Has(Periods(trips, key), k) <==> Has(m, k) || k == key(t) {
        AddToPeriodHas(m, key(t), t, k);
      }
    }
  }

  /** The period of `key` after adding `t` to it. */
  function NextPeriod(m: Entries<string, Period>, key: string, t: Trip): Period {
    var p := Get(m, key).GetOr(Period(key, 0, 0.0, 0.0, 0.0));
    p.(trips := p.trips + 1, km := p.km + Km(t), kwh := p.kwh + Kwh(t), fuel := p.fuel + t.fuel)
  }

  /** The entry of `k` is named `k` and counts exactly the trips with key `k`:
      each month's and each day's trip count is the number of valid trips in
      it. */
  lemma {:induction false} PeriodCounts(trips: seq<Trip>, key: Trip -> string)
    ensures forall k :: Has(Periods(trips, key), k) ==>
      Get(Periods(trips, key), k).value.key == k && Get(Periods(trips, key), k).value.trips == CountKey(trips, key, k)
    decreases |trips|
  {
    if trips != [] {
      var n := |trips| - 1;
      var t := trips[n];
      var m := Periods(trips[..n], key);
      PeriodCounts(trips[..n], key);
      PeriodKeys(trips[..n], key);
      SetProperties(m, key(t), NextPeriod(m, key(t), t));
      forall k | Has(Periods(trips, key), k)
        ensures Get(Periods(trips, key), k).value.key == k
        ensures Get(Periods(trips, key), k).value.trips == CountKey(trips, key, k)
      {
        AddToPeriodHas(m, key(t), t, k);
      }
    }
  }

  /** The set of active days is exactly the set of days with a daily entry. */
  lemma {:induction false} DateSetIsDays(v: seq<Trip>)
    ensures forall d :: d in DateSet(v) <==> Has(Periods(v, DateKey), d)
    decreases |v|
  {
    if v != [] {
      var n := |v| - 1;
      DateSetIsDays(v[..n]);
      forall d ensures Has(Periods(v, DateKey), d) <==> Has(Periods(v[..n], DateKey), d) || d == DateKey(v[n]) {
        AddToPeriodHas(Periods(v[..n], DateKey), DateKey(v[n]), v[n], d);
      }
    }
  }

  /** Every scatter point comes from a trip with positive distance and energy,
      and its consumption lies strictly between 0 and 50 kWh/100 km. */
  lemma {:induction false} ScatterBounds(v: seq<Trip>)
    ensures |ScatterAll(v)| <= |v|
    ensures forall p :: p in ScatterAll(v) ==>
      p.x > 0.0 && 0.0 < p.y < 50.0
      && exists t :: t in v && Km(t) > 0.0 && Kwh(t) > 0.0 && p == ScatterPoint(Km(t), Kwh(t) / Km(t) * 100.0, t.fuel)
    decreases |v|
  {
    if v != [] {
      var n := |v| - 1;
      ScatterBounds(v[..n]);
      assert forall u :: u in v[..n] ==> u in v;
      assert v[n] in v;
    }
  }
}
