/** The statistics behind the charge insight panel: energy, cost and price
    figures, the energy that reached the battery, battery cycles and the span
    of months and days the sessions cover. */
module ChargeInsights {
  import opened Wrappers
  import opened Records
  import opened Seqs
  import opened RealStats

  type Month = m: int | 0 <= m < 12

  /** How the panel reads a millisecond timestamp in local time:
      `getFullYear()` and `getMonth()`. */
  datatype LocalCalendar = LocalCalendar(yearOf: int -> int, monthOf: int -> Month)

  const DayMs: int := 86400000

  // ------------------------------------------------------------ per session

  function KwhCharged(): Charge -> real { (c: Charge) => c.kwhCharged }
  function CostPaid(): Charge -> real { (c: Charge) => c.totalCost }
  function PricePaid(): Charge -> real { (c: Charge) => c.pricePerKwh }

  /** `chargerTypes.find(ct => ct.id === c.chargerTypeId)?.efficiency || 1`:
      the efficiency of the session's charger type, 1 when the type is unknown
      or its efficiency is missing or 0. */
  function EfficiencyFor(types: seq<ChargerType>, id: string): (e: real)
    ensures e != 0.0
    ensures e != 1.0 ==> exists k :: 0 <= k < |types| && types[k].id == id && types[k].efficiency == Some(e)
  {
    match FindType(types, id)
    case Some(ct) => if ct.efficiency.Some? && ct.efficiency.value != 0.0 then ct.efficiency.value else 1.0
    case None => 1.0
  }

  /** The energy that reached the battery: none for a fuel session, the
      charged energy times the charger's efficiency otherwise. */
  function BatteryKwh(c: Charge, types: seq<ChargerType>): (r: real)
    ensures IsFuel(c) ==> r == 0.0
    ensures c.kwhCharged >= 0.0 && EfficiencyFor(types, c.chargerTypeId) <= 1.0 ==> r <= c.kwhCharged
  {
    if IsFuel(c) then 0.0
    else
      var e := EfficiencyFor(types, c.chargerTypeId);
      AtMostWhole(c.kwhCharged, e);
      c.kwhCharged * e
  }

  /** A share of at most 1 of a non-negative amount is at most that amount. */
  lemma AtMostWhole(x: real, e: real)
    ensures x >= 0.0 && e <= 1.0 ==> x * e <= x
  {
  }

  function RealKwh(types: seq<ChargerType>): Charge -> real { (c: Charge) => BatteryKwh(c, types) }

  /** When no charger type has an efficiency above 1, the energy that reached
      the battery never exceeds the energy charged. */
  lemma RealKwhAtMost(cs: seq<Charge>, types: seq<ChargerType>)
    requires forall k :: 0 <= k < |cs| ==> cs[k].kwhCharged >= 0.0
    requires forall k :: 0 <= k < |types| && types[k].efficiency.Some? ==> types[k].efficiency.value <= 1.0
    ensures Sum(Mapped(cs, RealKwh(types))) <= Sum(Mapped(cs, KwhCharged()))
  {
    var battery, charged := Mapped(cs, RealKwh(types)), Mapped(cs, KwhCharged());
    forall k | 0 <= k < |cs| ensures battery[k] <= charged[k] {
      var e := EfficiencyFor(types, cs[k].chargerTypeId);
      assert e <= 1.0;
      assert battery[k] == BatteryKwh(cs[k], types);
    }
    SumMonotone(battery, charged);
  }

  /** `c.finalPercentage === 100`. */
  function Full(): Charge -> bool { (c: Charge) => c.finalPercentage == Some(100.0) }

  /** Both percentages are present. */
  function BothPercentages(): Charge -> bool {
    (c: Charge) => c.initialPercentage.Some? && c.finalPercentage.Some?
  }

  /** `(c.finalPercentage || 0) - (c.initialPercentage || 0)`. */
  function Recovered(): Charge -> real {
    (c: Charge) => OrZero(c.finalPercentage) - OrZero(c.initialPercentage)
  }

  /** `!c.totalCost || c.totalCost === 0`. */
  function Free(): Charge -> bool { (c: Charge) => c.totalCost == 0.0 }

  // -------------------------------------------------------------- time span

  /** `charges.map(c => c.timestamp).filter(Boolean)`. */
  function Stamps(cs: seq<Charge>): (r: seq<int>)
    ensures forall x :: x in r <==> x != 0 && exists c :: c in cs && c.timestamp == x
  {
    if cs == [] then []
    else
      var rest := Stamps(cs[1..]);
      assert forall c :: c in cs <==> c == cs[0] || c in cs[1..];
      (if cs[0].timestamp != 0 then [cs[0].timestamp] else []) + rest
  }

  function MinStamp(s: seq<int>): (r: int)
    requires s != []
    ensures r in s && forall k :: 0 <= k < |s| ==> r <= s[k]
  {
    if |s| == 1 then s[0] else var m := MinStamp(s[1..]); if s[0] <= m then s[0] else m
  }

  function MaxStamp(s: seq<int>): (r: int)
    requires s != []
    ensures r in s && forall k :: 0 <= k < |s| ==> s[k] <= r
  {
    if |s| == 1 then s[0] else var m := MaxStamp(s[1..]); if s[0] >= m then s[0] else m
  }

  /** The first and last session timestamps. */
  datatype Span = Span(first: int, last: int)

  /** `Math.min(...timestamps)` and `Math.max(...timestamps)`; none when no
      session has a timestamp (the dates are then invalid). */
  function SpanOf(cs: seq<Charge>): (r: Option<Span>)
    ensures r.None? <==> forall c :: c in cs ==> c.timestamp == 0
    ensures r.Some? ==>
      r.value.first <= r.value.last
      && (exists c :: c in cs && c.timestamp == r.value.first)
      && (exists c :: c in cs && c.timestamp == r.value.last)
      && forall c :: c in cs && c.timestamp != 0 ==> r.value.first <= c.timestamp <= r.value.last
  {
    var s := Stamps(cs);
    assert forall c :: c in cs && c.timestamp != 0 ==> c.timestamp in s;
    if s == [] then None
    else
      var first, last := MinStamp(s), MaxStamp(s);
      assert forall x :: x in s ==> first <= x <= last;
      Some(Span(first, last))
  }

  /** A calendar month counted from year 0. */
  function MonthNumber(cal: LocalCalendar, ts: int): int {
    cal.yearOf(ts) * 12 + cal.monthOf(ts)
  }

  /** `monthsDiff`: the calendar months from the first to the last session,
      both included, at least 1; none when there is no timestamp, since
      `Math.max(1, NaN)` is `NaN`. */
  function MonthsDiff(span: Option<Span>, cal: LocalCalendar): (r: Option<int>)
    ensures r.Some? <==> span.Some?
    ensures r.Some? ==> r.value >= 1 && r.value >= MonthNumber(cal, span.value.last) - MonthNumber(cal, span.value.first) + 1
  {
    match span
    case None => None
    case Some(sp) =>
      var months := (cal.yearOf(sp.last) - cal.yearOf(sp.first)) * 12 + (cal.monthOf(sp.last) - cal.monthOf(sp.first)) + 1;
      Some(if months > 1 then months else 1)
  }

  /** `Math.ceil(x / 86400000)` for a whole number of milliseconds. */
  function CeilDays(x: int): (r: int)
    ensures (r - 1) * DayMs < x <= r * DayMs
  {
    -((-x) / DayMs)
  }

  /** `daysActive`: the days from the first to the last session, both
      included: the fewest whole days that cover the span, plus one. */
  function DaysActive(span: Option<Span>): (r: Option<int>)
    requires span.Some? ==> span.value.first <= span.value.last
    ensures r.Some? <==> span.Some?
    ensures r.Some? ==>
      r.value >= 1 && (r.value - 2) * DayMs < span.value.last - span.value.first <= (r.value - 1) * DayMs
  {
    match span
    case None => None
    case Some(sp) => Some(CeilDays(sp.last - sp.first) + 1)
  }

  /** `new Date(year, month - 1, 1)`: the month before the given one. */
  function LastMonth(year: int, month: Month): (r: (int, Month))
    ensures r.0 * 12 + r.1 == year * 12 + month - 1
  {
    if month == 0 then (year - 1, 11) else (year, month - 1)
  }

  /** The sessions with a timestamp in the given calendar month. */
  function InMonth(cal: LocalCalendar, year: int, month: Month): Charge -> bool {
    (c: Charge) => c.timestamp != 0 && cal.yearOf(c.timestamp) == year && cal.monthOf(c.timestamp) == month
  }

  /** `lastMonthCost`: what the sessions of the last complete month cost. */
  function LastMonthCost(cs: seq<Charge>, cal: LocalCalendar, nowYear: int, nowMonth: Month): real {
    var (y, m) := LastMonth(nowYear, nowMonth);
    Sum(Mapped(Filter(cs, InMonth(cal, y, m)), CostPaid()))
  }

  /** The month counted is the one right before the current month, and only
      sessions with a timestamp in it count. */
  lemma LastMonthCostSpec(cs: seq<Charge>, cal: LocalCalendar, nowYear: int, nowMonth: Month)
    ensures var (y, m) := LastMonth(nowYear, nowMonth);
      var counted := Filter(cs, InMonth(cal, y, m));
      LastMonthCost(cs, cal, nowYear, nowMonth) == Sum(Mapped(counted, CostPaid()))
      && (forall c :: c in counted <==>
            c in cs && c.timestamp != 0 && MonthNumber(cal, c.timestamp) == nowYear * 12 + nowMonth - 1)
  {
    var (y, m) := LastMonth(nowYear, nowMonth);
    FilterMembers(cs, InMonth(cal, y, m));
    forall c ensures InMonth(cal, y, m)(c) <==> c.timestamp != 0 && MonthNumber(cal, c.timestamp) == nowYear * 12 + nowMonth - 1 {
      SameMonth(cal.yearOf(c.timestamp), cal.monthOf(c.timestamp), y, m);
    }
  }

  /** Year and month are determined by the month number. */
  lemma SameMonth(y1: int, m1: Month, y2: int, m2: Month)
    ensures y1 * 12 + m1 == y2 * 12 + m2 <==> y1 == y2 && m1 == m2
  {
    if y1 < y2 {
      assert y1 * 12 + m1 < y2 * 12 + m2;
    } else if y1 > y2 {
      assert y1 * 12 + m1 > y2 * 12 + m2;
    }
  }

  // ------------------------------------------------------------------ result

  /** `part / len * 100`. */
  function Percent(part: nat, len: nat): (r: real)
    requires part <= len
    ensures 0.0 <= r <= 100.0
    ensures len > 0 ==> r * len as real == part as real * 100.0
  {
    if len > 0 then
      assert part as real / len as real <= 1.0;
      part as real / len as real * 100.0
    else 0.0
  }

  datatype KwhStats = KwhStats(avg: real, min: real, max: real, total: real,
                               fullChargeCount: nat, fullChargePercent: real, avgPercentageRecovered: real)
  datatype CostStats = CostStats(avg: real, max: real, total: real, monthlyAvg: Option<real>,
                                 lastMonthCost: real, freeCount: nat, freePercent: real)
  datatype PriceStats = PriceStats(avg: real, min: real, max: real, freePercent: real, potentialSavings: real)
  datatype CountStats = CountStats(total: nat, monthlyAvg: Option<real>, completeCharges: nat, cycles: real,
                                   firstCharge: Option<int>, lastCharge: Option<int>, daysActive: Option<int>)
  datatype Insights = Insights(kwh: KwhStats, cost: CostStats, price: PriceStats, count: CountStats)

  /** `x / monthsDiff`, `NaN` (none) when the month count is. */
  function PerMonth(x: real, months: Option<int>): (r: Option<real>)
    requires months.Some? ==> months.value >= 1
    ensures r.Some? <==> months.Some?
    ensures r.Some? ==> r.value * months.value as real == x
  {
    match months
    case None => None
    case Some(n) => Some(x / n as real)
  }

  /** The `kwh` group. */
  function KwhStatsOf(cs: seq<Charge>): KwhStats
    requires cs != []
  {
    var kwh := Mapped(cs, KwhCharged());
    var full := Filter(cs, Full());
    var both := Filter(cs, BothPercentages());
    KwhStats(Mean(kwh), MinOf(kwh), MaxOf(kwh), Sum(kwh), |full|, Percent(|full|, |cs|),
             if both != [] then Mean(Mapped(both, Recovered())) else 0.0)
  }

  /** The mean energy lies between the least and the greatest session; the
      full charges are exactly the sessions that reached 100 %; the mean
      recovered percentage lies between the least and greatest recovery of
      the sessions with both percentages, and is 0 without one. */
  lemma KwhStatsSpec(cs: seq<Charge>)
    requires cs != []
    ensures var k := KwhStatsOf(cs);
      var both := Filter(cs, BothPercentages());
      k.min <= k.avg <= k.max
      && k.fullChargeCount <= |cs| && 0.0 <= k.fullChargePercent <= 100.0
      && (forall c :: c in Filter(cs, Full()) <==> c in cs && c.finalPercentage == Some(100.0))
      && (both != [] ==> MinOf(Mapped(both, Recovered())) <= k.avgPercentageRecovered <= MaxOf(Mapped(both, Recovered())))
      && (both == [] ==> k.avgPercentageRecovered == 0.0)
  {
    var k := KwhStatsOf(cs);
    var both := Filter(cs, BothPercentages());
    assert k.min <= k.avg <= k.max by {
      MeanBetweenExtremes(Mapped(cs, KwhCharged()));
    }
    if both != [] {
      var rec := Mapped(both, Recovered());
      assert MinOf(rec) <= k.avgPercentageRecovered <= MaxOf(rec) by {
        MeanBetweenExtremes(rec);
      }
    }
    assert forall c :: c in Filter(cs, Full()) <==> c in cs && c.finalPercentage == Some(100.0) by {
      FilterMembers(cs, Full());
    }
  }

  /** The `cost` group. */
  function CostStatsOf(cs: seq<Charge>, months: Option<int>, lastMonthCost: real): CostStats
    requires cs != []
    requires months.Some? ==> months.value >= 1
  {
    var cost := Mapped(cs, CostPaid());
    var free := Filter(cs, Free());
    CostStats(Mean(cost), MaxOf(cost), Sum(cost), PerMonth(Sum(cost), months), lastMonthCost,
              |free|, Percent(|free|, |cs|))
  }

  /** The mean cost is at most the greatest; the free sessions are exactly
      those that cost nothing; the monthly average spreads the total over the
      months. */
  lemma CostStatsSpec(cs: seq<Charge>, months: Option<int>, lastMonthCost: real)
    requires cs != []
    requires months.Some? ==> months.value >= 1
    ensures var c := CostStatsOf(cs, months, lastMonthCost);
      MinOf(Mapped(cs, CostPaid())) <= c.avg <= c.max
      && (forall x :: x in Filter(cs, Free()) <==> x in cs && x.totalCost == 0.0)
      && c.freeCount <= |cs| && 0.0 <= c.freePercent <= 100.0
      && c.monthlyAvg == PerMonth(c.total, months)
  {
    MeanBetweenExtremes(Mapped(cs, CostPaid()));
    FilterMembers(cs, Free());
  }

  /** `(max - mean) * totalKwh`: what paying the mean price instead of the
      greatest would save; never negative when the mean is at most the
      greatest price and the energy is not negative. */
  function Savings(max: real, mean: real, totalKwh: real): (r: real)
    ensures mean <= max && totalKwh >= 0.0 ==> r >= 0.0
    ensures mean == max || totalKwh == 0.0 ==> r == 0.0
  {
    (max - mean) * totalKwh
  }

  /** The `price` group over the prices above 0. */
  function PriceStatsOf(cs: seq<Charge>, totalKwh: real): PriceStats
    requires cs != []
  {
    var paid := Filter(Mapped(cs, PricePaid()), Positive());
    var free := Filter(cs, Free());
    if paid != [] then
      PriceStats(Mean(paid), MinOf(paid), MaxOf(paid), Percent(|free|, |cs|), Savings(MaxOf(paid), Mean(paid), totalKwh))
    else
      PriceStats(0.0, 0.0, 0.0, Percent(|free|, |cs|), 0.0)
  }

  /** Every paid price lies between the least, which is positive, and the
      greatest, and so does the mean; the potential saving is never negative
      for a non-negative energy. */
  lemma PriceStatsSpec(cs: seq<Charge>, totalKwh: real)
    requires cs != []
    ensures var p := PriceStatsOf(cs, totalKwh);
      (forall k :: 0 <= k < |cs| && cs[k].pricePerKwh > 0.0 ==> 0.0 < p.min <= cs[k].pricePerKwh <= p.max)
      && p.min <= p.avg <= p.max
      && (totalKwh >= 0.0 ==> p.potentialSavings >= 0.0)
  {
    var prices := Mapped(cs, PricePaid());
    var paid := Filter(prices, Positive());
    if paid != [] {
      PositiveBetween(prices);
      MeanBetweenExtremes(paid);
    } else {
      FilterEmpty(prices, Positive());
    }
  }

  /** Every positive value of a list lies between the least and the greatest
      positive value, and the least is positive. */
  lemma PositiveBetween(xs: seq<real>)
    requires Filter(xs, Positive()) != []
    ensures var paid := Filter(xs, Positive());
      forall k :: 0 <= k < |xs| && xs[k] > 0.0 ==> 0.0 < MinOf(paid) <= xs[k] <= MaxOf(paid)
  {
    var paid := Filter(xs, Positive());
    FilterMembers(xs, Positive());
    forall k | 0 <= k < |xs| && xs[k] > 0.0 ensures 0.0 < MinOf(paid) <= xs[k] <= MaxOf(paid) {
      assert xs[k] in paid;
    }
  }

  /** Without a paid session every price figure is 0. */
  lemma NoPaidPrices(cs: seq<Charge>, totalKwh: real)
    requires cs != []
    requires forall k :: 0 <= k < |cs| ==> cs[k].pricePerKwh <= 0.0
    ensures var p := PriceStatsOf(cs, totalKwh);
      p.avg == 0.0 && p.min == 0.0 && p.max == 0.0 && p.potentialSavings == 0.0
  {
    FilterNone(Mapped(cs, PricePaid()), Positive());
  }

  /** Battery cycles: the energy that reached the battery over the battery
      size, 0 without a positive size. */
  function Cycles(realKwh: real, batterySize: real): (r: real)
    ensures batterySize > 0.0 ==> r * batterySize == realKwh
    ensures batterySize <= 0.0 ==> r == 0.0
  {
    if batterySize > 0.0 then realKwh / batterySize else 0.0
  }

  /** The `count` group. */
  function CountStatsOf(cs: seq<Charge>, span: Option<Span>, months: Option<int>, cycles: real): CountStats
    requires months.Some? ==> months.value >= 1
    requires span.Some? ==> span.value.first <= span.value.last
  {
    var full := Filter(cs, Full());
    CountStats(|cs|, PerMonth(|cs| as real, months), |full|, cycles,
               if span.Some? then Some(span.value.first) else None,
               if span.Some? then Some(span.value.last) else None,
               DaysActive(span))
  }

  /** `useChargeInsights`: none for no sessions. `nowYear` and `nowMonth`
      are the current local year and month. */
  function ChargeInsightsOf(cs: seq<Charge>, batterySize: real, types: seq<ChargerType>, cal: LocalCalendar,
                            nowYear: int, nowMonth: Month): (r: Option<Insights>)
    ensures r.None? <==> cs == []
  {
    if cs == [] then None
    else
      var span := SpanOf(cs);
      var months := MonthsDiff(span, cal);
      var kwh := KwhStatsOf(cs);
      var realKwh := Sum(Mapped(cs, RealKwh(types)));
      Some(Insights(kwh, CostStatsOf(cs, months, LastMonthCost(cs, cal, nowYear, nowMonth)),
                    PriceStatsOf(cs, kwh.total), CountStatsOf(cs, span, months, Cycles(realKwh, batterySize))))
  }

  /** The month count is at least 1 and covers the calendar months from the
      first to the last session; the day count covers the span between them;
      both are missing exactly when no session has a timestamp. The cycles
      count the battery-side energy, and the complete charges are the full
      ones. */
  lemma InsightsSpan(cs: seq<Charge>, batterySize: real, types: seq<ChargerType>, cal: LocalCalendar,
                     nowYear: int, nowMonth: Month)
    requires cs != []
    ensures var r := ChargeInsightsOf(cs, batterySize, types, cal, nowYear, nowMonth).value;
      var realKwh := Sum(Mapped(cs, RealKwh(types)));
      (r.count.daysActive.None? <==> forall c :: c in cs ==> c.timestamp == 0)
      && (r.count.daysActive.Some? ==>
            r.count.firstCharge.Some? && r.count.lastCharge.Some?
            && r.count.firstCharge.value <= r.count.lastCharge.value
            && r.count.daysActive.value >= 1
            && r.count.lastCharge.value - r.count.firstCharge.value <= (r.count.daysActive.value - 1) * DayMs
            && r.cost.monthlyAvg.Some? && r.count.monthlyAvg.Some?
            && (forall c :: c in cs && c.timestamp != 0 ==>
                  r.count.firstCharge.value <= c.timestamp <= r.count.lastCharge.value))
      && r.count.cycles == Cycles(realKwh, batterySize)
      && r.count.completeCharges == r.kwh.fullChargeCount && r.count.total == |cs|
  {
  }
}
