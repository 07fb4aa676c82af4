/** `processData(rows, priceSettings, charges, language)` of
    src/core/dataProcessing.ts and its JavaScript twin src/core/dataProcessing.js:
    the trips with a numeric, non-negative distance are kept, the main loop
    (module TripStats) aggregates them, and the results are finished: month and
    day tables sorted by key with their consumption rates and labels, trips
    sorted by start time, four top-10 lists, the active and calendar day counts
    and the summary. The TypeScript version also derives the battery's state of
    health and the estimated ranges; the JavaScript version has no battery part.

    The method `ProcessData` is proved to compute `ProcessSpec`, and the lemmas
    state what the result promises. */
module ProcessData {
  import opened Wrappers
  import opened Records
  import opened JsText
  import opened KeyedMap
  import opened StableSort
  import opened TopN
  import opened TripPricing
  import opened TripStats
  import opened DateUtils
  import opened Battery

  // ------------------------------------------------------------ input rows

  /** `typeof r.trip === 'number' && r.trip >= 0`. */
  predicate Kept(t: Trip) { t.trip.Some? && t.trip.value >= 0.0 }

  /** `rows.filter(r => r && typeof r.trip === 'number' && r.trip >= 0)`; a
      `null` row is `None`. */
  function KeptTrips(rows: seq<Option<Trip>>): (r: seq<Trip>)
    ensures |r| <= |rows|
    ensures forall t :: t in r <==> Some(t) in rows && Kept(t)
  {
    if rows == [] then []
    else
      (if rows[0].Some? && Kept(rows[0].value) then [rows[0].value] else []) + KeptTrips(rows[1..])
  }

  // ------------------------------------------------------------ period tables

  /** The locale formatting `formatMonth` and `formatDate` hand to
      `toLocaleDateString`, fixed by the `language` argument. */
  datatype Locale = Locale(month: (Option<int>, Option<int>) -> string, date: DateArgs -> string)

  /** A month or day row: its totals, kWh/100 km, L/100 km and its label. */
  datatype PeriodRow = PeriodRow(period: Period, efficiency: real, fuelEfficiency: real, labelText: string)

  /** `km > 0 ? (x / km * 100) : 0`. */
  function Rate(x: real, km: real): (r: real)
    ensures km <= 0.0 ==> r == 0.0
  {
    if km > 0.0 then x / km * 100.0 else 0.0
  }

  /** `(a, b) => a.month.localeCompare(b.month)` (and the same on `date`). */
  function KeyLe(): (Period, Period) -> bool {
    (a: Period, b: Period) => StrLe(a.key, b.key)
  }

  lemma KeyLeTotalPreorder()
    ensures TotalPreorder(KeyLe())
  {
    StrLeTotalOrder();
  }

  /** `array.forEach(m => { m.efficiency = ...; m.fuelEfficiency = ...; m.label = ... })`. */
  function Rows(ps: seq<Period>, labelOf: string -> string): (r: seq<PeriodRow>)
    ensures |r| == |ps|
    ensures forall i :: 0 <= i < |ps| ==>
      r[i].period == ps[i] && r[i].labelText == labelOf(ps[i].key)
      && r[i].efficiency == Rate(ps[i].kwh, ps[i].km) && r[i].fuelEfficiency == Rate(ps[i].fuel, ps[i].km)
  {
    if ps == [] then []
    else [PeriodRow(ps[0], Rate(ps[0].kwh, ps[0].km), Rate(ps[0].fuel, ps[0].km), labelOf(ps[0].key))]
         + Rows(ps[1..], labelOf)
  }

  /** `Object.values(data).sort(byKey)` followed by the `forEach` above. */
  function PeriodTable(m: Entries<string, Period>, labelOf: string -> string): seq<PeriodRow> {
    Rows(SortBy(Values(m), KeyLe()), labelOf)
  }

  function MonthLabel(locale: Locale): string -> string {
    m => FormatMonth(m, locale.month)
  }

  function DateLabel(locale: Locale): string -> string {
    d => FormatDate(d, locale.date)
  }

  // ------------------------------------------------------------ trip order and top lists

  /** `(a, b) => (a.start_timestamp || 0) - (b.start_timestamp || 0)`. */
  function StartLe(): (Trip, Trip) -> bool {
    (a: Trip, b: Trip) => a.startTs <= b.startTs
  }

  lemma StartLeTotalPreorder()
    ensures TotalPreorder(StartLe())
  {
  }

  function KmKey(): Trip -> real { t => Km(t) }
  function KwhKey(): Trip -> real { t => Kwh(t) }
  function DurationKey(): Trip -> real { (t: Trip) => t.duration }
  function FuelKey(): Trip -> real { (t: Trip) => t.fuel }

  /** `validTrips.filter(t => (t.fuel || 0) > 0)`. */
  function FuelTrips(v: seq<Trip>): (r: seq<Trip>)
    ensures |r| <= |v|
    ensures forall t :: t in r <==> t in v && t.fuel > 0.0
  {
    if v == [] then []
    else (if v[0].fuel > 0.0 then [v[0]] else []) + FuelTrips(v[1..])
  }

  datatype TopRecords = TopRecords(km: seq<Trip>, kwh: seq<Trip>, dur: seq<Trip>, fuel: seq<Trip>)

  /** `getTopN(arr, (a, b) => key(b) - key(a), 10)`. */
  function Top10(arr: seq<Trip>, key: Trip -> real): seq<Trip> {
    SortBy(arr, DescLe(key))[..Min(10, |arr|)]
  }

  // ------------------------------------------------------------ day counts

  /** `uniqueDates.size || 1`. */
  function DaysActive(dates: set<string>): (r: nat)
    ensures r >= 1
    ensures |dates| > 0 ==> r == |dates|
  {
    if |dates| == 0 then 1 else |dates|
  }

  /** `Math.ceil(x / 86400)` for a whole number of seconds `x`. */
  function CeilDays(x: int): (r: int)
    ensures (r - 1) * 86400 < x <= r * 86400
  {
    -((-x) / 86400)
  }

  /** `(firstTs && lastTs) ? Math.max(1, Math.ceil((lastTs - firstTs) / 86400) + 1) : daysActive`:
      a missing or zero timestamp falls back to the active days. */
  function TotalDays(firstTs: int, lastTs: int, daysActive: nat): (r: int)
    ensures daysActive >= 1 ==> r >= 1
    ensures firstTs != 0 && lastTs != 0 && lastTs >= firstTs ==>
      r == CeilDays(lastTs - firstTs) + 1 && (r - 2) * 86400 < lastTs - firstTs <= (r - 1) * 86400
  {
    if firstTs != 0 && lastTs != 0 then
      var d := CeilDays(lastTs - firstTs) + 1;
      if d < 1 then 1 else d
    else daysActive
  }

  // ------------------------------------------------------------ battery (TypeScript only)

  /** The battery part of the settings. `thermal` is `thermalStressFactor`,
      `None` when missing. */
  datatype BatterySettings = BatterySettings(
    batterySize: NumberInput, soh: NumberInput, mfgDate: string, sohMode: string,
    chargerTypes: seq<ChargerType>, thermal: Option<real>)

  /** `typeof x === 'string' ? parseFloat(x) : (x || fallback)`; `None` is `NaN`. */
  function SettingNumber(x: NumberInput, fallback: real): (r: Option<real>)
    ensures x.InputMissing? || x == InputNumber(0.0) ==> r == Some(fallback)
    ensures x.InputNumber? && x.x != 0.0 ==> r == Some(x.x)
    ensures x.InputText? ==> r == ParseFloat(x.s)
  {
    match x
    case InputNumber(v) => Some(if v == 0.0 then fallback else v)
    case InputText(s) => ParseFloat(s)
    case InputMissing => Some(fallback)
  }

  /** The number handed on as `batteryNetCapacity`; `NaN` behaves as a missing value there. */
  function CapacityArg(size: Option<real>): NumberInput {
    if size.Some? then InputNumber(size.value) else InputMissing
  }

  /** `thermalStressFactor || 1.0`. */
  function ThermalOr(thermal: Option<real>): real {
    if thermal.None? || thermal == Some(0.0) then 1.0 else thermal.value
  }

  /** The ranges and the state of health in the TypeScript summary. */
  datatype BatteryView = BatteryView(
    estimatedRange: real, estimatedRangeHighway: real, estimatedRangeCity: real,
    soh: Option<real>, sohData: Option<SoHData>)

  /** `effectiveBattery / (avgEff * factor) * 100` when both are positive, else 0. */
  function RangeAt(battery: Option<real>, avgEff: real, factor: real): (r: real)
    requires factor > 0.0
    ensures r >= 0.0
    ensures !(battery.Some? && battery.value > 0.0 && avgEff > 0.0) ==> r == 0.0
  {
    if battery.Some? && battery.value > 0.0 && avgEff > 0.0 then battery.value / (avgEff * factor) * 100.0 else 0.0
  }

  /** The highway range (factor 1.2) is shorter and the city range (factor
      0.8) longer than the mixed one, and all three are zero together. */
  lemma {:induction false} RangeOrder(battery: Option<real>, avgEff: real)
    ensures var mixed, highway, city := RangeAt(battery, avgEff, 1.0), RangeAt(battery, avgEff, 1.2), RangeAt(battery, avgEff, 0.8);
      (mixed == 0.0 && highway == 0.0 && city == 0.0) || 0.0 < highway < mixed < city
  {
    var mixed, highway, city := RangeAt(battery, avgEff, 1.0), RangeAt(battery, avgEff, 1.2), RangeAt(battery, avgEff, 0.8);
    if battery.Some? && battery.value > 0.0 && avgEff > 0.0 {
      var e := battery.value * 100.0;
      RangeScale(battery.value, avgEff, 1.0);
      RangeScale(battery.value, avgEff, 1.2);
      RangeScale(battery.value, avgEff, 0.8);
      assert mixed * avgEff == e;
      assert (highway * 1.2) * avgEff == e;
      assert (city * 0.8) * avgEff == e;
      assert highway * 1.2 == mixed by { Cancel(highway * 1.2, mixed, avgEff); }
      assert city * 0.8 == mixed by { Cancel(city * 0.8, mixed, avgEff); }
      assert mixed > 0.0 by { assert e > 0.0; }
    }
  }

  lemma RangeScale(e: real, avgEff: real, factor: real)
    requires e > 0.0 && avgEff > 0.0 && factor > 0.0
    ensures RangeAt(Some(e), avgEff, factor) * avgEff * factor == e * 100.0
  {
    var q := avgEff * factor;
    assert q > 0.0;
    assert (e / q) * q == e;
  }

  lemma Cancel(x: real, y: real, a: real)
    requires a > 0.0 && x * a == y * a
    ensures x == y
  {
    assert (x - y) * a == 0.0;
  }

  lemma AddShares(e: real, f: real, x: real, y: real, km: real)
    requires km > 0.0 && km == x + y && e * km == x * 100.0 && f * km == y * 100.0
    ensures e + f == 100.0
  {
    calc {
      (e + f) * km;
      e * km + f * km;
      x * 100.0 + y * 100.0;
      (x + y) * 100.0;
      100.0 * km;
    }
    Cancel(e + f, 100.0, km);
  }

  /** The usable energy: `batterySize * (soh / 100)`, `NaN` when either is. */
  function Effective(size: Option<real>, soh: Option<real>): Option<real> {
    if size.Some? && soh.Some? then Some(size.value * (soh.value / 100.0)) else None
  }

  /** The battery lines of `finalizeSummary`: a manufacturing date triggers the
      advanced estimate, which replaces the configured SoH in "calculated"
      mode; the usable energy is the size times SoH/100, and the three ranges
      divide it by the average consumption at factors 1, 1.2 (highway) and 0.8
      (city). `ageYears` is the calendar age the estimate reads from the clock. */
  function BatteryOf(bs: BatterySettings, avgEff: real, charges: seq<Charge>, ageYears: Option<real>): (r: BatteryView)
    ensures bs.mfgDate == "" ==> r.sohData.None? && r.soh == SettingNumber(bs.soh, 100.0)
    ensures bs.mfgDate != "" ==> r.sohData.Some?
    ensures bs.mfgDate != "" && bs.sohMode == "calculated" ==> r.soh == Some(r.sohData.value.estimatedSoh)
    ensures (r.estimatedRange == 0.0 && r.estimatedRangeHighway == 0.0 && r.estimatedRangeCity == 0.0)
            || 0.0 < r.estimatedRangeHighway < r.estimatedRange < r.estimatedRangeCity
    ensures avgEff <= 0.0 ==> r.estimatedRange == 0.0
  {
    var size := SettingNumber(bs.batterySize, 0.0);
    var sohData :=
      if bs.mfgDate != "" then
        Some(AdvancedSoH(charges, bs.mfgDate, CapacityArg(size), bs.chargerTypes, ThermalOr(bs.thermal), ageYears))
      else None;
    var soh := if sohData.Some? && bs.sohMode == "calculated" then Some(sohData.value.estimatedSoh)
               else SettingNumber(bs.soh, 100.0);
    var effective := Effective(size, soh);
    RangeOrder(effective, avgEff);
    BatteryView(RangeAt(effective, avgEff, 1.0), RangeAt(effective, avgEff, 1.2), RangeAt(effective, avgEff, 0.8),
                soh, sohData)
  }

  // ------------------------------------------------------------ summary

  /** Which of the two engines runs: the TypeScript one reads the battery
      settings and the calendar age of the pack; the JavaScript one does not. */
  datatype Engine = TypeScript(battery: BatterySettings, ageYears: Option<real>) | JavaScript

  /** The summary; the `toFixed` texts are represented by their numbers. */
  datatype Summary = Summary(
    totalTrips: nat, totalKm: real, totalKwh: real, drivingKwh: real, stationaryConsumption: real,
    totalHours: real, avgEff: real, avgKm: real, avgMin: real, avgSpeed: real,
    daysActive: nat, totalDays: int, dateRange: string,
    maxKm: real, minKm: real, maxKwh: real, maxMin: real, tripsDay: real, kmDay: real,
    isHybrid: bool, totalFuel: real, avgFuelEff: real, electricPercentage: real, fuelPercentage: real,
    electricOnlyTrips: nat, fuelUsedTrips: nat, evModeUsage: real, maxFuel: real,
    maxCost: real, maxCostDate: string, battery: Option<BatteryView>)

  /** `x > -Infinity ? x : 0` (and `x < Infinity ? x : 0`). */
  function OrZeroValue(x: Option<real>): real { if x.Some? then x.value else 0.0 }

  /** `n > 0 ? x / n : 0`. */
  function PerTrip(x: real, n: nat): (r: real)
    ensures n == 0 ==> r == 0.0
  {
    if n > 0 then x / n as real else 0.0
  }

  /** `x / daysActive`; the caller counts at least one active day. */
  function PerDay(x: real, days: nat): real
    requires days >= 1
  {
    x / days as real
  }

  /** `totalKm > 0 ? electricOnlyKm / totalKm * 100 : 100`. */
  function ElectricShare(electricKm: real, km: real): (r: real)
    ensures km <= 0.0 ==> r == 100.0
  {
    if km > 0.0 then electricKm / km * 100.0 else 100.0
  }

  /** `n > 0 ? electricOnlyTrips / n * 100 : 100`. */
  function EvModeUsage(electricTrips: nat, n: nat): (r: real)
    ensures n == 0 ==> r == 100.0
  {
    if n > 0 then electricTrips as real / n as real * 100.0 else 100.0
  }

  /** `totalDuration > 0 ? totalDuration / n / 60 : 0`. */
  function AvgMinutes(duration: real, n: nat): (r: real)
    requires n == 0 ==> duration <= 0.0
    ensures duration <= 0.0 ==> r == 0.0
  {
    if duration > 0.0 then duration / n as real / 60.0 else 0.0
  }

  /** `totalDuration > 0 ? totalKm / (totalDuration / 3600) : 0`: km/h. */
  function AvgSpeed(km: real, duration: real): (r: real)
    ensures duration <= 0.0 ==> r == 0.0
  {
    if duration > 0.0 then km / (duration / 3600.0) else 0.0
  }

  /** `${formatDate(first.date)} - ${formatDate(last.date)}`, or '' without trips. */
  function DateRange(all: seq<Trip>, dateText: string -> string): (r: string)
    ensures all == [] <==> r == []
  {
    if all != [] then dateText(all[0].date) + " - " + dateText(all[|all| - 1].date) else ""
  }

  /** The figures of `finalizeSummary(stats, validTrips, daysActive,
      totalDays, allTrips, ...)` around its battery part: totals, averages per
      valid trip, per hour and per active day, the extremes (0 when there was
      no valid trip), the electric and fuel shares of the distance and of the
      trips, and the date range of the first and last trip. */
  function SummaryOf(st: Stats, validCount: nat, daysActive: nat, totalDays: int, all: seq<Trip>,
                     dateText: string -> string, battery: Option<BatteryView>): (r: Summary)
    requires daysActive >= 1
    requires validCount == 0 ==> st.totalDuration == 0.0
    ensures r.totalTrips == validCount && r.daysActive == daysActive && r.totalDays == totalDays
    ensures r.battery == battery
  {
    Summary(
      validCount, st.totalKm, st.totalKwh, st.drivingKwh, st.stationaryKwh,
      st.totalDuration / 3600.0, Rate(st.drivingKwh, st.totalKm),
      PerTrip(st.totalKm, validCount), AvgMinutes(st.totalDuration, validCount),
      AvgSpeed(st.totalKm, st.totalDuration),
      daysActive, totalDays, DateRange(all, dateText),
      OrZeroValue(st.maxKm), OrZeroValue(st.minKm), OrZeroValue(st.maxKwh),
      OrZeroValue(st.maxDur) / 60.0,
      PerDay(validCount as real, daysActive), PerDay(st.totalKm, daysActive),
      st.hasAnyFuel, st.totalFuel, Rate(st.totalFuel, st.totalKm),
      ElectricShare(st.electricOnlyKm, st.totalKm), Rate(st.fuelUsedKm, st.totalKm),
      st.electricOnlyTrips, st.fuelUsedTrips, EvModeUsage(st.electricOnlyTrips, validCount),
      st.maxFuel, OrZeroValue(st.maxCost), st.maxCostDate, battery)
  }

  /** The battery view, in the TypeScript engine only, at the summary's
      average consumption. */
  function BatteryPart(engine: Engine, avgEff: real, charges: seq<Charge>): (r: Option<BatteryView>)
    ensures r.Some? <==> engine.TypeScript?
  {
    if engine.TypeScript? then Some(BatteryOf(engine.battery, avgEff, charges, engine.ageYears)) else None
  }

  /** `finalizeSummary`: the summary figures and, in the TypeScript engine,
      the battery view at the average consumption. */
  function FinalizeSummary(st: Stats, validCount: nat, daysActive: nat, totalDays: int, all: seq<Trip>,
                           dateText: string -> string, engine: Engine, charges: seq<Charge>): (r: Summary)
    requires daysActive >= 1
    requires validCount == 0 ==> st.totalDuration == 0.0
    ensures r == SummaryOf(st, validCount, daysActive, totalDays, all, dateText, r.battery)
    ensures r.battery.Some? <==> engine.TypeScript?
    ensures r.battery.Some? ==> r.battery.value == BatteryOf(engine.battery, r.avgEff, charges, engine.ageYears)
  {
    SummaryOf(st, validCount, daysActive, totalDays, all, dateText,
              BatteryPart(engine, Rate(st.drivingKwh, st.totalKm), charges))
  }

  /** `x / km * 100` is `x` per 100 km: scaled back by `km` it gives `100 x`. */
  lemma RateScale(x: real, km: real)
    requires km > 0.0
    ensures Rate(x, km) * km == x * 100.0
  {
    assert (x / km) * km == x;
  }

  /** A quotient scaled back by its positive divisor. */
  lemma DivScale(x: real, d: real)
    requires d > 0.0
    ensures (x / d) * d == x
  {
  }

  /** An average per trip times the number of trips is the total. */
  lemma PerTripScale(x: real, n: nat)
    requires n > 0
    ensures PerTrip(x, n) * n as real == x
  {
    DivScale(x, n as real);
  }

  /** An average per active day times the number of active days is the total. */
  lemma PerDayScale(x: real, days: nat)
    requires days >= 1
    ensures PerDay(x, days) * days as real == x
  {
    DivScale(x, days as real);
  }

  /** With every kilometre either electric-only or fuel-using, the two
      distance shares add up to 100 %. */
  lemma SharesAddUp(electricKm: real, fuelKm: real)
    requires electricKm + fuelKm > 0.0
    ensures ElectricShare(electricKm, electricKm + fuelKm) + Rate(fuelKm, electricKm + fuelKm) == 100.0
  {
    var km := electricKm + fuelKm;
    var e, f := ElectricShare(electricKm, km), Rate(fuelKm, km);
    DivScale(electricKm, km);
    RateScale(fuelKm, km);
    assert e * km == electricKm * 100.0;
    AddShares(e, f, electricKm, fuelKm, km);
  }

  /** The EV-mode share of `e` electric-only trips out of `n >= e` lies in
      [0, 100], and it is 100 exactly when every trip was electric-only. */
  lemma EvModeBounds(e: nat, n: nat)
    requires e <= n
    ensures 0.0 <= EvModeUsage(e, n) <= 100.0
    ensures EvModeUsage(e, n) == 100.0 <==> e == n
  {
    if n > 0 {
      var q := e as real / n as real;
      DivScale(e as real, n as real);
      assert q * n as real == e as real;
      if q == 1.0 { assert e as real == n as real; }
    }
  }

  /** What the summary's averages mean: with any distance, the average
      consumption is the driving energy per 100 km (0 without distance); the
      average trip distance times the valid trips is the distance; trips and
      distance per active day times the active days are the totals. */
  lemma SummaryAverages(st: Stats, validCount: nat, daysActive: nat, totalDays: int, all: seq<Trip>,
                        dateText: string -> string, battery: Option<BatteryView>)
    requires daysActive >= 1
    requires validCount == 0 ==> st.totalDuration == 0.0
    ensures var r := SummaryOf(st, validCount, daysActive, totalDays, all, dateText, battery);
      (r.totalKm > 0.0 ==> r.avgEff * r.totalKm == r.drivingKwh * 100.0)
      && (r.totalKm <= 0.0 ==> r.avgEff == 0.0)
      && (validCount > 0 ==> r.avgKm * validCount as real == r.totalKm)
      && r.tripsDay * daysActive as real == validCount as real
      && r.kmDay * daysActive as real == r.totalKm
  {
    if st.totalKm > 0.0 {
      RateScale(st.drivingKwh, st.totalKm);
    }
    if validCount > 0 {
      PerTripScale(st.totalKm, validCount);
    }
    PerDayScale(validCount as real, daysActive);
    PerDayScale(st.totalKm, daysActive);
  }

  /** What the summary's shares mean, given that the main loop files every
      kilometre and every valid trip as either electric-only or fuel-using:
      with any distance the electric and fuel shares make 100 % (without
      distance the summary shows 100 % electric); the EV-mode share lies in
      [0, 100] and is 100 exactly when no valid trip used fuel. */
  lemma SummaryShares(st: Stats, validCount: nat, daysActive: nat, totalDays: int, all: seq<Trip>,
                      dateText: string -> string, battery: Option<BatteryView>)
    requires daysActive >= 1
    requires validCount == 0 ==> st.totalDuration == 0.0
    requires st.totalKm == st.electricOnlyKm + st.fuelUsedKm
    requires st.electricOnlyTrips + st.fuelUsedTrips == validCount
    ensures var r := SummaryOf(st, validCount, daysActive, totalDays, all, dateText, battery);
      (r.totalKm > 0.0 ==> r.electricPercentage + r.fuelPercentage == 100.0)
      && (r.totalKm <= 0.0 ==> r.electricPercentage == 100.0)
      && 0.0 <= r.evModeUsage <= 100.0
      && (r.evModeUsage == 100.0 <==> r.fuelUsedTrips == 0)
  {
    if st.totalKm > 0.0 {
      SharesAddUp(st.electricOnlyKm, st.fuelUsedKm);
    }
    EvModeBounds(st.electricOnlyTrips, validCount);
  }

  // ------------------------------------------------------------ the whole function

  datatype Processed = Processed(
    summary: Summary, monthly: seq<PeriodRow>, daily: seq<PeriodRow>, hourly: seq<Bin>,
    weekday: seq<Bin>, tripDist: seq<nat>, effScatter: seq<ScatterPoint>, top: TopRecords,
    isHybrid: bool)

  /** The four top lists of `finalizeSummary`'s caller, over the valid trips
      sorted by start time; the fuel list only for a hybrid. */
  function TopOf(sortedValid: seq<Trip>, hybrid: bool): TopRecords {
    TopRecords(Top10(sortedValid, KmKey()), Top10(sortedValid, KwhKey()), Top10(sortedValid, DurationKey()),
               if hybrid then Top10(FuelTrips(sortedValid), FuelKey()) else [])
  }

  /** The post-processing after the main loop has left the aggregators `s`. */
  function Finish(all: seq<Trip>, s: AggState, locale: Locale, engine: Engine, charges: seq<Charge>): Processed
    requires all != []
    requires s.validTrips == [] ==> s.stats.totalDuration == 0.0
  {
    var sortedAll := SortBy(all, StartLe());
    var daysActive := DaysActive(s.uniqueDates);
    var totalDays := TotalDays(sortedAll[0].startTs, sortedAll[|sortedAll| - 1].startTs, daysActive);
    Processed(
      FinalizeSummary(s.stats, |s.validTrips|, daysActive, totalDays, sortedAll, DateLabel(locale), engine, charges),
      PeriodTable(s.monthly, MonthLabel(locale)), PeriodTable(s.daily, DateLabel(locale)),
      s.hourly, s.weekday, s.distribution, s.scatter,
      TopOf(SortBy(s.validTrips, StartLe()), s.stats.hasAnyFuel), s.stats.hasAnyFuel)
  }

  /** The post-processing of the main loop's fold over the kept trips. */
  function FinishFold(all: seq<Trip>, ps: PriceStrategies, clock: LocalClock,
                      locale: Locale, engine: Engine, charges: seq<Charge>): Processed
    requires all != []
  {
    FoldTotals(all, ps);
    Finish(all, Fold(all, ps, clock), locale, engine, charges)
  }

  /** What `processData` returns for the prepared price strategies `ps`:
      `None` when no trip is kept, else the post-processing of the main loop's
      fold. */
  function ProcessSpec(rows: seq<Option<Trip>>, ps: PriceStrategies, clock: LocalClock,
                       locale: Locale, engine: Engine, charges: seq<Charge>): (r: Option<Processed>)
    ensures r.None? <==> KeptTrips(rows) == []
  {
    var all := KeptTrips(rows);
    if all == [] then None
    else Some(FinishFold(all, ps, clock, locale, engine, charges))
  }

  /** `processData`: `None` is `null`. The kept trips are run through the
      aggregators, then the tables are sorted and the top lists and summary
      built. The loop also writes each kept trip's cost fields onto the
      caller's trip objects: `costed` is every kept trip, in input order, with
      the cost it now carries (none when nothing is kept). */
  method ProcessData(rows: seq<Option<Trip>>, settings: PriceSettings, charges: seq<Charge>,
                     chargeClock: ChargeClock, clock: LocalClock, locale: Locale, engine: Engine)
    returns (r: Option<Processed>, costed: seq<CostedTrip>)
    ensures r == ProcessSpec(rows, PrepareStrategies(settings, charges, chargeClock), clock, locale, engine, charges)
    ensures var all, ps := KeptTrips(rows), PrepareStrategies(settings, charges, chargeClock);
      |costed| == |all|
      && forall k :: 0 <= k < |all| ==> costed[k].trip == all[k] && costed[k].cost == CostOf(all[k], ps)
  {
    costed := [];
    if rows == [] {
      return None, costed;
    }
    var strategies := PrepareStrategies(settings, charges, chargeClock);
    var all := KeptTrips(rows);
    if all == [] {
      return None, costed;
    }
    var agg;
    agg, costed := RunAggregation(all, strategies, clock);
    FoldTotals(all, strategies);
    var monthly := PeriodTable(agg.monthly, MonthLabel(locale));
    var daily := PeriodTable(agg.daily, DateLabel(locale));
    var sortedAll := SortBy(all, StartLe());
    var sortedValid := SortBy(agg.validTrips, StartLe());
    var topKm := GetTopN(sortedValid, KmKey(), 10);
    var topKwh := GetTopN(sortedValid, KwhKey(), 10);
    var topDur := GetTopN(sortedValid, DurationKey(), 10);
    var topFuel := [];
    if agg.stats.hasAnyFuel {
      topFuel := GetTopN(FuelTrips(sortedValid), FuelKey(), 10);
    }
    var daysActive := DaysActive(agg.uniqueDates);
    var totalDays := TotalDays(sortedAll[0].startTs, sortedAll[|sortedAll| - 1].startTs, daysActive);
    var summary := FinalizeSummary(agg.stats, |agg.validTrips|, daysActive, totalDays, sortedAll,
                                   DateLabel(locale), engine, charges);
    r := Some(Processed(summary, monthly, daily, agg.hourly[..], agg.weekday[..], agg.distribution[..],
                        agg.scatter, TopRecords(topKm, topKwh, topDur, topFuel), agg.stats.hasAnyFuel));
  }

  // ------------------------------------------------------------ what the result promises

  /** The distance buckets, and the electric-only plus the fuel-using trips,
      each add up to the number of valid trips. */
  lemma ProcessCounts(rows: seq<Option<Trip>>, ps: PriceStrategies, clock: LocalClock,
                      locale: Locale, engine: Engine, charges: seq<Charge>)
    requires KeptTrips(rows) != []
    ensures var r := ProcessSpec(rows, ps, clock, locale, engine, charges).value;
      SumCounts(r.tripDist) == r.summary.totalTrips
      && r.summary.electricOnlyTrips + r.summary.fuelUsedTrips == r.summary.totalTrips
  {
    var all := KeptTrips(rows);
    FoldTotals(all, ps);
    BucketTotal(Active(all));
  }

  /** The hour and weekday tables count the same trips, the valid ones with a
      start time, and no more trips are valid than were kept. */
  lemma ProcessTimedCounts(rows: seq<Option<Trip>>, ps: PriceStrategies, clock: LocalClock,
                           locale: Locale, engine: Engine, charges: seq<Charge>)
    requires KeptTrips(rows) != []
    ensures var r := ProcessSpec(rows, ps, clock, locale, engine, charges).value;
      SumTrips(r.hourly) == SumTrips(r.weekday) == |Timed(Active(KeptTrips(rows)))|
      && |Timed(Active(KeptTrips(rows)))| <= r.summary.totalTrips <= |KeptTrips(rows)|
  {
    HourWeekdayTotals(Active(KeptTrips(rows)), clock);
  }

  /** The energy total is driving plus stationary energy; with any distance
      the electric and fuel shares make 100 %; the EV-mode share lies in
      [0, 100]. */
  lemma ProcessEnergy(rows: seq<Option<Trip>>, ps: PriceStrategies, clock: LocalClock,
                      locale: Locale, engine: Engine, charges: seq<Charge>)
    requires KeptTrips(rows) != []
    ensures var r := ProcessSpec(rows, ps, clock, locale, engine, charges).value;
      r.summary.totalKwh == r.summary.drivingKwh + r.summary.stationaryConsumption
      && (r.summary.totalKm > 0.0 ==> r.summary.electricPercentage + r.summary.fuelPercentage == 100.0)
      && 0.0 <= r.summary.evModeUsage <= 100.0
  {
    var all := KeptTrips(rows);
    var s := Fold(all, ps, clock);
    FoldTotals(all, ps);
    var sa := SortBy(all, StartLe());
    var d := DaysActive(s.uniqueDates);
    var summary := ProcessSpec(rows, ps, clock, locale, engine, charges).value.summary;
    SummaryShares(s.stats, |s.validTrips|, d, TotalDays(sa[0].startTs, sa[|sa| - 1].startTs, d), sa,
                  DateLabel(locale), summary.battery);
  }

  /** `isHybrid` holds exactly when some kept trip used fuel, and then the fuel
      top list holds only fuel-using valid trips; otherwise it is empty. */
  lemma ProcessHybrid(rows: seq<Option<Trip>>, ps: PriceStrategies, clock: LocalClock,
                      locale: Locale, engine: Engine, charges: seq<Charge>)
    requires KeptTrips(rows) != []
    ensures var r := ProcessSpec(rows, ps, clock, locale, engine, charges).value;
      (r.isHybrid <==> exists t :: t in KeptTrips(rows) && t.fuel > 0.0)
      && r.summary.isHybrid == r.isHybrid
      && (!r.isHybrid ==> r.top.fuel == [])
      && (forall t :: t in r.top.fuel ==> t.fuel > 0.0 && t in Active(KeptTrips(rows)))
  {
    var all := KeptTrips(rows);
    FoldHasAnyFuel(all, ps);
    FuelTop(Fold(all, ps, clock).validTrips);
  }

  /** The fuel top list holds only fuel-using trips drawn from the list. */
  lemma FuelTop(v: seq<Trip>)
    ensures forall t :: t in Top10(FuelTrips(SortBy(v, StartLe())), FuelKey()) ==> t.fuel > 0.0 && t in v
  {
    StartLeTotalPreorder();
    SortBySorted(v, StartLe());
    var sv := SortBy(v, StartLe());
    var f := FuelTrips(sv);
    var top := Top10(f, FuelKey());
    TopNProperties(f, FuelKey(), 10);
    forall t | t in top ensures t.fuel > 0.0 && t in v {
      assert t in multiset(top);
      assert t in multiset(f);
      assert t in sv;
      assert t in multiset(sv);
    }
  }

  /** A top-10 list of `v` by `key`: ten items or all of them, drawn from `v`,
      in decreasing key order, and no item left out beats the last one kept. */
  ghost predicate IsTop10(top: seq<Trip>, v: seq<Trip>, key: Trip -> real) {
    |top| == Min(10, |v|)
    && multiset(top) <= multiset(v)
    && SortedBy(top, DescLe(key))
    && (v != [] ==> forall t :: t in v ==> key(t) <= key(top[0]))
    && (forall t :: t in multiset(v) - multiset(top) ==> |top| > 0 && key(t) <= key(top[|top| - 1]))
  }

  /** Sorting the input first does not change what a top-10 list promises. */
  lemma Top10OfPermutation(s: seq<Trip>, v: seq<Trip>, key: Trip -> real)
    requires multiset(s) == multiset(v)
    ensures IsTop10(Top10(s, key), v, key)
  {
    TopNProperties(s, key, 10);
    assert |s| == |multiset(s)| == |v|;
    var top := Top10(s, key);
    forall t | t in v ensures t in s { assert t in multiset(v); }
    forall t | t in multiset(v) - multiset(top) ensures |top| > 0 && key(t) <= key(top[|top| - 1]) {
      assert t in multiset(s);
    }
  }

  /** The distance, energy and duration lists are the top 10 valid trips by
      those keys. */
  lemma ProcessTop(rows: seq<Option<Trip>>, ps: PriceStrategies, clock: LocalClock,
                   locale: Locale, engine: Engine, charges: seq<Charge>)
    requires KeptTrips(rows) != []
    ensures var r := ProcessSpec(rows, ps, clock, locale, engine, charges).value;
      var v := Active(KeptTrips(rows));
      IsTop10(r.top.km, v, KmKey()) && IsTop10(r.top.kwh, v, KwhKey()) && IsTop10(r.top.dur, v, DurationKey())
  {
    var all := KeptTrips(rows);
    var s := Fold(all, ps, clock);
    StartLeTotalPreorder();
    SortBySorted(s.validTrips, StartLe());
    var sv := SortBy(s.validTrips, StartLe());
    Top10OfPermutation(sv, s.validTrips, KmKey());
    Top10OfPermutation(sv, s.validTrips, KwhKey());
    Top10OfPermutation(sv, s.validTrips, DurationKey());
  }

  /** The periods of a table, in table order. */
  function PeriodsOf(rows: seq<PeriodRow>): (ps: seq<Period>)
    ensures |ps| == |rows| && forall i :: 0 <= i < |rows| ==> ps[i] == rows[i].period
  {
    if rows == [] then [] else [rows[0].period] + PeriodsOf(rows[1..])
  }

  /** A month or day table lists exactly the dictionary's periods, in
      ascending key order. */
  lemma TableOrder(v: seq<Trip>, key: Trip -> string, labelOf: string -> string)
    ensures var m := Periods(v, key);
      var t := PeriodTable(m, labelOf);
      |t| == |m|
      && multiset(PeriodsOf(t)) == multiset(Values(m))
      && (forall i, j :: 0 <= i < j < |t| ==> StrLe(t[i].period.key, t[j].period.key))
  {
    var m := Periods(v, key);
    var sorted := SortBy(Values(m), KeyLe());
    KeyLeTotalPreorder();
    SortBySorted(Values(m), KeyLe());
    assert PeriodsOf(Rows(sorted, labelOf)) == sorted;
  }

  /** Each row of a month or day table counts the valid trips with its key,
      and every key carried by a valid trip has a row. */
  lemma TableCounts(v: seq<Trip>, key: Trip -> string, labelOf: string -> string)
    ensures var t := PeriodTable(Periods(v, key), labelOf);
      (forall i :: 0 <= i < |t| ==> t[i].period.trips == CountKey(v, key, t[i].period.key) > 0)
      && (forall k :: CountKey(v, key, k) > 0 ==> exists i :: 0 <= i < |t| && t[i].period.key == k)
  {
    var m := Periods(v, key);
    var sorted := SortBy(Values(m), KeyLe());
    var t := Rows(sorted, labelOf);
    assert multiset(sorted) == multiset(Values(m)) by {
      KeyLeTotalPreorder();
      SortBySorted(Values(m), KeyLe());
    }
    ValuesCounted(v, key);
    forall i | 0 <= i < |t| ensures t[i].period.trips == CountKey(v, key, t[i].period.key) > 0 {
      assert sorted[i] in multiset(Values(m));
    }
    forall k | CountKey(v, key, k) > 0 ensures exists i :: 0 <= i < |t| && t[i].period.key == k {
      var p := ValueOfKey(v, key, k);
      assert p in multiset(sorted);
      var i :| 0 <= i < |sorted| && sorted[i] == p;
      assert t[i].period.key == k;
    }
  }

  /** Every period in a dictionary counts the trips with its key. */
  lemma ValuesCounted(v: seq<Trip>, key: Trip -> string)
    ensures forall p :: p in Values(Periods(v, key)) ==> p.trips == CountKey(v, key, p.key) > 0
  {
    var m := Periods(v, key);
    var vals := Values(m);
    PeriodKeys(v, key);
    PeriodCounts(v, key);
    forall p | p in vals ensures p.trips == CountKey(v, key, p.key) > 0 {
      var i :| 0 <= i < |vals| && vals[i] == p;
      GetUnique(m, m[i].0, m[i].1);
    }
  }

  /** A key carried by some trip has a period named after it in the dictionary. */
  lemma ValueOfKey(v: seq<Trip>, key: Trip -> string, k: string) returns (p: Period)
    requires CountKey(v, key, k) > 0
    ensures p in Values(Periods(v, key)) && p.key == k
  {
    var m := Periods(v, key);
    PeriodKeys(v, key);
    PeriodCounts(v, key);
    ValuesOfUnique(m, k);
    p := Get(m, k).value;
  }

  /** Both tables keep these promises, and the active-day count is the number
      of day rows (1 when there is none). */
  lemma ProcessTables(rows: seq<Option<Trip>>, ps: PriceStrategies, clock: LocalClock,
                      locale: Locale, engine: Engine, charges: seq<Charge>)
    requires KeptTrips(rows) != []
    ensures var r := ProcessSpec(rows, ps, clock, locale, engine, charges).value;
      var v := Active(KeptTrips(rows));
      r.monthly == PeriodTable(Periods(v, MonthKey), MonthLabel(locale))
      && r.daily == PeriodTable(Periods(v, DateKey), DateLabel(locale))
      && r.summary.daysActive == (if r.daily == [] then 1 else |r.daily|)
  {
    var all := KeptTrips(rows);
    var v := Active(all);
    var m := Periods(v, DateKey);
    PeriodKeys(v, DateKey);
    UniqueKeysCount(m);
    DateSetIsDays(v);
    assert DateSet(v) == KeySet(m);
  }

  /** The first and last trips after the stable sort by start time start
      earliest and latest. */
  lemma SortedEnds(all: seq<Trip>)
    requires all != []
    ensures var sa := SortBy(all, StartLe());
      sa[0] in all && sa[|sa| - 1] in all
      && forall t :: t in all ==> sa[0].startTs <= t.startTs <= sa[|sa| - 1].startTs
  {
    StartLeTotalPreorder();
    SortBySorted(all, StartLe());
    var sa := SortBy(all, StartLe());
    assert sa[0] in multiset(all) && sa[|sa| - 1] in multiset(all);
    forall t | t in all ensures sa[0].startTs <= t.startTs <= sa[|sa| - 1].startTs {
      assert t in multiset(sa);
      var i :| 0 <= i < |sa| && sa[i] == t;
      assert StartLe()(sa[0], sa[i]) || i == 0;
      assert StartLe()(sa[i], sa[|sa| - 1]) || i == |sa| - 1;
    }
  }

  /** The date range runs from an earliest-starting kept trip to a
      latest-starting one (returned here), and the calendar days are counted
      between their start times. */
  lemma ProcessDateRange(rows: seq<Option<Trip>>, ps: PriceStrategies, clock: LocalClock,
                         locale: Locale, engine: Engine, charges: seq<Charge>)
    returns (first: Trip, last: Trip)
    requires KeptTrips(rows) != []
    ensures first in KeptTrips(rows) && last in KeptTrips(rows)
    ensures forall t :: t in KeptTrips(rows) ==> first.startTs <= t.startTs <= last.startTs
    ensures var summary := ProcessSpec(rows, ps, clock, locale, engine, charges).value.summary;
      summary.dateRange == FormatDate(first.date, locale.date) + " - " + FormatDate(last.date, locale.date)
      && summary.totalDays == TotalDays(first.startTs, last.startTs, summary.daysActive)
  {
    var all := KeptTrips(rows);
    FoldTotals(all, ps);
    var sa := SortBy(all, StartLe());
    SortedEnds(all);
    first, last := sa[0], sa[|sa| - 1];
  }

  /** Every scatter point comes from a valid trip with positive distance and
      energy and a consumption strictly between 0 and 50 kWh/100 km. */
  lemma ProcessScatter(rows: seq<Option<Trip>>, ps: PriceStrategies, clock: LocalClock,
                       locale: Locale, engine: Engine, charges: seq<Charge>)
    requires KeptTrips(rows) != []
    ensures var r := ProcessSpec(rows, ps, clock, locale, engine, charges).value;
      var v := Active(KeptTrips(rows));
      |r.effScatter| <= r.summary.totalTrips
      && forall p :: p in r.effScatter ==>
           0.0 < p.y < 50.0
           && exists t :: t in v && Km(t) > 0.0 && Kwh(t) > 0.0 && p == ScatterPoint(Km(t), Kwh(t) / Km(t) * 100.0, t.fuel)
  {
    ScatterBounds(Active(KeptTrips(rows)));
  }
}
