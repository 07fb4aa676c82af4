/** The insight cards of the trends tab, in its two versions: long trips and
    how many days pass per long trip, the daily energy, the monthly cost and,
    in the older tab, the median consumption. */
module Trends {
  import opened Wrappers
  import opened Records
  import opened Seqs
  import opened StableSort
  import opened RealStats
  import Formatters

  /** The summary fields the tab reads, already parsed from their text:
      `avgKm`, `totalKwh`, `daysActive` and `totalDays` (absent or 0 as `None`
      or 0). */
  datatype SummaryView = SummaryView(avgKm: real, totalKwh: real, daysActive: Option<real>, totalDays: Option<real>)

  /** A JavaScript number as a condition: absent and 0 are false. */
  predicate Truthy(x: Option<real>) { x.Some? && x.value != 0.0 }

  /** `(t.trip || 0) >= threshold`. */
  function ReachesKm(threshold: real): Trip -> bool { (t: Trip) => Km(t) >= threshold }

  /** The long trips: those at least three times the mean distance. */
  function LongTrips(trips: seq<Trip>, avgKm: real): seq<Trip> {
    Filter(trips, ReachesKm(avgKm * 3.0))
  }

  /** A trip is long exactly when it reaches three times the mean distance. */
  lemma LongTripsSpec(trips: seq<Trip>, avgKm: real)
    ensures |LongTrips(trips, avgKm)| <= |trips|
    ensures forall t :: t in LongTrips(trips, avgKm) <==> t in trips && Km(t) >= 3.0 * avgKm
  {
    FilterMembers(trips, ReachesKm(avgKm * 3.0));
  }

  /** `longTrips.length > 0 ? Math.round(totalDays / longTrips.length) : 0`:
      the nearest whole number of days per long trip, halves rounded up. */
  function DaysPerLongTrip(totalDays: real, longCount: nat): (r: int)
    ensures longCount == 0 ==> r == 0
    ensures longCount > 0 ==>
      r as real - 0.5 <= totalDays / longCount as real < r as real + 0.5
  {
    if longCount > 0 then Formatters.Round(totalDays / longCount as real) else 0
  }

  /** The newer tab's day count: `daysActive` when it is truthy, else 1. */
  function TotalDaysOf(summary: Option<SummaryView>): (r: real)
    ensures r != 0.0
    ensures summary.Some? && Truthy(summary.value.daysActive) ==> r == summary.value.daysActive.value
    ensures !(summary.Some? && Truthy(summary.value.daysActive)) ==> r == 1.0
  {
    if summary.Some? && Truthy(summary.value.daysActive) then summary.value.daysActive.value else 1.0
  }

  /** The older tab's day count: `summary.totalDays || summary.daysActive || 1`. */
  function TotalDaysOrActive(summary: Option<SummaryView>): (r: real)
    ensures r != 0.0
    ensures summary.Some? && Truthy(summary.value.totalDays) ==> r == summary.value.totalDays.value
    ensures summary.Some? && !Truthy(summary.value.totalDays) && Truthy(summary.value.daysActive) ==>
      r == summary.value.daysActive.value
    ensures (summary.None? || (!Truthy(summary.value.totalDays) && !Truthy(summary.value.daysActive))) ==>
      r == 1.0
  {
    if summary.Some? && Truthy(summary.value.totalDays) then summary.value.totalDays.value
    else if summary.Some? && Truthy(summary.value.daysActive) then summary.value.daysActive.value
    else 1.0
  }

  /** `parseFloat(summary?.avgKm) || 0`. */
  function AvgKmOf(summary: Option<SummaryView>): real {
    if summary.Some? then summary.value.avgKm else 0.0
  }

  /** `parseFloat(summary?.totalKwh || '0')`. */
  function TotalKwhOf(summary: Option<SummaryView>): real {
    if summary.Some? then summary.value.totalKwh else 0.0
  }

  /** The energy per day over a day count that is never 0. */
  function DailyKwh(totalKwh: real, totalDays: real): (r: real)
    requires totalDays != 0.0
    ensures r * totalDays == totalKwh
  {
    totalKwh / totalDays
  }

  /** `settings.electricPrice || 0.15`: a price of 0 falls back to the default. */
  function PriceOrDefault(price: real): (r: real)
    ensures r != 0.0
    ensures price != 0.0 ==> r == price
  {
    if price != 0.0 then price else 0.15
  }

  /** The mean monthly energy, 0 without months. */
  function MeanMonthlyKwh(monthlyKwh: seq<real>): real {
    if monthlyKwh == [] then 0.0 else Mean(monthlyKwh)
  }

  /** The monthly cost: the mean monthly energy at the given price. */
  function MonthlyCost(monthlyKwh: seq<real>, price: real): real {
    MeanMonthlyKwh(monthlyKwh) * price
  }

  /** The monthly cost is 0 without months; otherwise, spread over the
      months, it gives back the cost of all of them at that price. */
  lemma MonthlyCostTotal(monthlyKwh: seq<real>, price: real)
    ensures monthlyKwh == [] ==> MonthlyCost(monthlyKwh, price) == 0.0
    ensures monthlyKwh != [] ==>
      MonthlyCost(monthlyKwh, price) * |monthlyKwh| as real == Sum(monthlyKwh) * price
  {
    if monthlyKwh != [] {
      Rescaled(Sum(monthlyKwh), |monthlyKwh| as real, price);
    }
  }

  /** At a non-negative price, bounds on every month's energy bound the
      monthly cost by the same bounds at that price. */
  lemma MonthlyCostWithin(monthlyKwh: seq<real>, price: real, lo: real, hi: real)
    requires monthlyKwh != [] && price >= 0.0
    requires forall k :: 0 <= k < |monthlyKwh| ==> lo <= monthlyKwh[k] <= hi
    ensures lo * price <= MonthlyCost(monthlyKwh, price) <= hi * price
  {
    var m := Mean(monthlyKwh);
    assert lo <= m <= hi by {
      MeanWithin(monthlyKwh, lo, hi);
    }
    ScaleBetween(lo, m, hi, price);
  }

  lemma Rescaled(total: real, n: real, p: real)
    requires n > 0.0
    ensures (total / n * p) * n == total * p
  {
    assert total / n * n == total;
  }

  lemma ScaleBetween(lo: real, m: real, hi: real, p: real)
    requires lo <= m <= hi && p >= 0.0
    ensures lo * p <= m * p <= hi * p
  {
  }

  // ------------------------------------------------------------- newer tab

  datatype TrendsCards = TrendsCards(daysPerLongTrip: int, dailyKwh: real, monthlyCost: real)

  /** The newer tab's `insights` memo. */
  function TrendsOf(trips: seq<Trip>, summary: Option<SummaryView>, monthlyKwh: seq<real>, electricPrice: real): TrendsCards {
    var totalDays := TotalDaysOf(summary);
    TrendsCards(
      DaysPerLongTrip(totalDays, |LongTrips(trips, AvgKmOf(summary))|),
      DailyKwh(TotalKwhOf(summary), totalDays),
      MonthlyCost(monthlyKwh, PriceOrDefault(electricPrice)))
  }

  /** Without a summary every trip of non-negative distance is long and the
      day count is 1; no long trip gives 0 days per long trip; the daily
      energy spread over the days gives back the total. */
  lemma TrendsSpec(trips: seq<Trip>, summary: Option<SummaryView>, monthlyKwh: seq<real>, electricPrice: real)
    ensures var c := TrendsOf(trips, summary, monthlyKwh, electricPrice);
      (LongTrips(trips, AvgKmOf(summary)) == [] ==> c.daysPerLongTrip == 0)
      && c.dailyKwh * TotalDaysOf(summary) == TotalKwhOf(summary)
      && (summary.None? ==> c.dailyKwh == 0.0)
      && (summary.None? && (forall k :: 0 <= k < |trips| ==> Km(trips[k]) >= 0.0) ==>
            LongTrips(trips, AvgKmOf(summary)) == trips)
      && (monthlyKwh == [] ==> c.monthlyCost == 0.0)
  {
    if summary.None? && (forall k :: 0 <= k < |trips| ==> Km(trips[k]) >= 0.0) {
      assert forall k :: 0 <= k < |trips| ==> ReachesKm(AvgKmOf(summary) * 3.0)(trips[k]);
      FilterAll(trips, ReachesKm(AvgKmOf(summary) * 3.0));
    }
    assert monthlyKwh == [] ==> MonthlyCost(monthlyKwh, PriceOrDefault(electricPrice)) == 0.0;
  }

  // ------------------------------------------------------------- older tab

  /** `t.trip && t.trip > 0 && t.electricity != null ? t.electricity / t.trip * 100 : 0`. */
  function TripEfficiency(t: Trip): real {
    if t.trip.Some? && t.trip.value > 0.0 && t.electricity.Some? then t.electricity.value / t.trip.value * 100.0
    else 0.0
  }

  /** `trips.map(TripEfficiency)`. */
  function TripEfficiencies(ts: seq<Trip>): (r: seq<real>)
    ensures |r| == |ts| && forall k :: 0 <= k < |ts| ==> r[k] == TripEfficiency(ts[k])
  {
    if ts == [] then [] else [TripEfficiency(ts[0])] + TripEfficiencies(ts[1..])
  }

  /** The positive efficiencies in ascending order. */
  function SortedEfficiencies(ts: seq<Trip>): seq<real> {
    SortNumbers(Filter(TripEfficiencies(ts), Positive()))
  }

  /** `efficiencies[Math.floor(efficiencies.length / 2)]`, or 0 for none. */
  function MedianEfficiency(ts: seq<Trip>): real {
    UpperMedian(SortedEfficiencies(ts))
  }

  /** There are no positive efficiencies exactly when no trip has one, and
      then the median is 0. */
  lemma NoEfficiencies(ts: seq<Trip>)
    ensures SortedEfficiencies(ts) == [] <==> forall k :: 0 <= k < |ts| ==> TripEfficiency(ts[k]) <= 0.0
    ensures SortedEfficiencies(ts) == [] ==> MedianEfficiency(ts) == 0.0
  {
    var effs := TripEfficiencies(ts);
    if SortedEfficiencies(ts) == [] {
      assert |Filter(effs, Positive())| == 0;
      FilterEmpty(effs, Positive());
    }
    if forall k :: 0 <= k < |ts| ==> TripEfficiency(ts[k]) <= 0.0 {
      FilterNone(effs, Positive());
    }
  }

  /** With positive efficiencies the median is the efficiency of one of the
      trips, positive, between the least and the greatest, and splits the
      sorted efficiencies at their middle index. */
  lemma MedianEfficiencySpec(ts: seq<Trip>)
    requires SortedEfficiencies(ts) != []
    ensures var s, m := SortedEfficiencies(ts), MedianEfficiency(ts);
      (exists k :: 0 <= k < |ts| && TripEfficiency(ts[k]) == m)
      && 0.0 < m
      && MinOf(s) <= m <= MaxOf(s)
      && (forall i :: 0 <= i <= |s| / 2 ==> s[i] <= m)
      && (forall i :: |s| / 2 <= i < |s| ==> m <= s[i])
  {
    var effs := TripEfficiencies(ts);
    var pos := Filter(effs, Positive());
    var s := SortedEfficiencies(ts);
    var m := MedianEfficiency(ts);
    assert m in pos by {
      assert multiset(s) == multiset(pos);
      assert m == s[|s| / 2];
      assert m in multiset(s);
    }
    assert m in effs && m > 0.0 by {
      FilterMembers(effs, Positive());
    }
    var k :| 0 <= k < |effs| && effs[k] == m;
    assert TripEfficiency(ts[k]) == m;
    UpperMedianSplits(s);
  }

  datatype LegacyTrendsCards = LegacyTrendsCards(daysPerLongTrip: int, medianEfficiency: real, dailyKwh: real, monthlyCost: real)

  /** The older tab's `insights` memo. */
  function LegacyTrendsOf(trips: seq<Trip>, summary: Option<SummaryView>, monthlyKwh: seq<real>, electricityPrice: real): LegacyTrendsCards {
    var totalDays := TotalDaysOrActive(summary);
    LegacyTrendsCards(
      DaysPerLongTrip(totalDays, |LongTrips(trips, AvgKmOf(summary))|),
      MedianEfficiency(trips),
      DailyKwh(TotalKwhOf(summary), totalDays),
      MonthlyCost(monthlyKwh, PriceOrDefault(electricityPrice)))
  }

  /** The older tab shares the long-trip, daily and monthly figures of the
      newer one whenever the summary carries no `totalDays`. */
  lemma LegacyAgreesWithoutTotalDays(trips: seq<Trip>, summary: Option<SummaryView>, monthlyKwh: seq<real>, price: real)
    requires summary.Some? ==> !Truthy(summary.value.totalDays)
    ensures var a, b := LegacyTrendsOf(trips, summary, monthlyKwh, price), TrendsOf(trips, summary, monthlyKwh, price);
      a.daysPerLongTrip == b.daysPerLongTrip && a.dailyKwh == b.dailyKwh && a.monthlyCost == b.monthlyCost
  {
  }
}
