/** Battery estimators of src/core/batteryCalculations.ts and its twin
    src/core/batteryCalculations.js: the state of health of an LFP battery
    from its charging history (SEI formation, cycle ageing weighted by charging
    speed and climate, calendar ageing), and the state of charge at the start
    of a charge from the distance driven since the previous one. */
module Battery {
  import opened Wrappers
  import opened Records
  import JsText

  /** The fallback net capacity in kWh. */
  const DefaultCapacity: real := 60.48

  /** `(typeof c === 'string' ? parseFloat(c) : c) || 60.48`, and `parseFloat(c) || 60.48`
      in the JavaScript twin: 0, `NaN` and an absent value fall back. */
  function NetCapacity(c: NumberInput): (r: real)
    ensures r != 0.0
    ensures c.InputNumber? && c.x != 0.0 ==> r == c.x
    ensures c == InputNumber(0.0) || c.InputMissing? ==> r == DefaultCapacity
  {
    match c
    case InputNumber(x) => if x != 0.0 then x else DefaultCapacity
    case InputText(s) =>
      var p := JsText.ParseFloat(s);
      if p.Some? && p.value != 0.0 then p.value else DefaultCapacity
    case InputMissing => DefaultCapacity
  }

  /** `checkNum(c.kwhCharged) || checkNum(c.kwh)`: the legacy alias fills in a zero. */
  function ChargeKwh(c: Charge): real {
    if c.kwhCharged != 0.0 then c.kwhCharged else c.kwh
  }

  /** The charging efficiency: the charger type's own value when it lies strictly
      between 0 and 1, else 0.85 for a slow charge (0 < speed < 3.5 kW) and 0.95
      otherwise. */
  function Efficiency(c: Charge, types: seq<ChargerType>): (e: real)
    ensures 0.0 < e < 1.0
  {
    var t := FindType(types, c.chargerTypeId);
    if t.Some? && t.value.efficiency.Some? && 0.0 < t.value.efficiency.value < 1.0 then
      t.value.efficiency.value
    else if 0.0 < c.speedKw < 3.5 then 0.85
    else 0.95
  }

  /** The speed class: up to 3.5 kW, up to 22 kW, up to 70 kW, above. */
  function SpeedClass(speed: real): (k: nat)
    ensures k < 4
  {
    if speed <= 3.5 then 0 else if speed <= 22.0 then 1 else if speed <= 70.0 then 2 else 3
  }

  /** The counters of the `forEach` over the electric charges. */
  datatype Tally = Tally(slow: nat, ac: nat, dc: nat, hpc: nat, toFull: nat, realKwh: real)

  function Count(c: Charge, types: seq<ChargerType>, t: Tally): Tally {
    var k := SpeedClass(c.speedKw);
    Tally(
      t.slow + (if k == 0 then 1 else 0), t.ac + (if k == 1 then 1 else 0),
      t.dc + (if k == 2 then 1 else 0), t.hpc + (if k == 3 then 1 else 0),
      t.toFull + (if OrZero(c.finalPercentage) >= 99.0 then 1 else 0),
      t.realKwh + ChargeKwh(c) * Efficiency(c, types))
  }

  /** The counters after the charges `cs`, in order. */
  function TallyOf(cs: seq<Charge>, types: seq<ChargerType>): Tally {
    if cs == [] then Tally(0, 0, 0, 0, 0, 0.0)
    else Count(cs[|cs| - 1], types, TallyOf(cs[..|cs| - 1], types))
  }

  /** Each charge falls in exactly one speed class, and at most every charge
      reached 99 %. */
  lemma {:induction false} TallyPartition(cs: seq<Charge>, types: seq<ChargerType>)
    ensures var t := TallyOf(cs, types); t.slow + t.ac + t.dc + t.hpc == |cs| && t.toFull <= |cs|
  {
    if cs != [] {
      TallyPartition(cs[..|cs| - 1], types);
    }
  }

  datatype Degradation = Degradation(sei: real, cycle: real, calendar: real)

  datatype SoHData = SoHData(
    estimatedSoh: real, realCyclesCount: real, stressScore: real, chargingStress: real,
    thermalStress: real, calibrationWarning: bool, degradation: Degradation)

  /** `parseFloat(x.toFixed(2))`: the nearest hundredth, halves away from zero. */
  function Fixed2(x: real): (r: real)
    ensures x >= 0.0 ==> r >= 0.0
  {
    if x >= 0.0 then ((x * 100.0 + 0.5).Floor as real) / 100.0
    else -(((-x) * 100.0 + 0.5).Floor as real) / 100.0
  }

  lemma Fixed2Monotone(x: real, y: real)
    requires x <= y
    ensures Fixed2(x) <= Fixed2(y)
  {
    if x < 0.0 && y >= 0.0 {
    } else if x < 0.0 {
      assert ((-y) * 100.0 + 0.5).Floor <= ((-x) * 100.0 + 0.5).Floor;
    } else {
      assert (x * 100.0 + 0.5).Floor <= (y * 100.0 + 0.5).Floor;
    }
  }

  lemma Fixed2AtMost2(x: real)
    requires x <= 2.0
    ensures Fixed2(x) <= 2.0
  {
    Fixed2Monotone(x, 2.0);
    assert (2.0 * 100.0 + 0.5).Floor == 200;
  }

  /** `(slow·0.9 + ac·1.0 + dc·1.2 + hpc·2.8) / sessions`, or 1 without sessions. */
  function ChargingStress(t: Tally): real {
    var n := t.slow + t.ac + t.dc + t.hpc;
    if n > 0 then (t.slow as real * 0.9 + t.ac as real * 1.0 + t.dc as real * 1.2 + t.hpc as real * 2.8) / n as real
    else 1.0
  }

  lemma QuotientBetween(w: real, n: real, lo: real, hi: real)
    requires n > 0.0 && lo * n <= w <= hi * n
    ensures lo <= w / n <= hi
  {
    assert w / n - lo == (w - lo * n) / n;
    assert hi - w / n == (hi * n - w) / n;
  }

  /** The charging stress is a weighted mean of the four class weights. */
  lemma ChargingStressBounds(t: Tally)
    ensures 0.9 <= ChargingStress(t) <= 2.8
    ensures t.slow + t.ac + t.dc + t.hpc == 0 ==> ChargingStress(t) == 1.0
  {
    var n := (t.slow + t.ac + t.dc + t.hpc) as real;
    if n > 0.0 {
      var w := t.slow as real * 0.9 + t.ac as real * 1.0 + t.dc as real * 1.2 + t.hpc as real * 2.8;
      assert 0.9 * n <= w <= 2.8 * n;
      QuotientBetween(w, n, 0.9, 2.8);
    }
  }

  /** `calendar_degradation`: 0.75 % a year, never negative; 0 when the
      manufacturing date does not parse. `ageYears` is `(now - mfg) / year`. */
  function CalendarDegradation(ageYears: Option<real>): (r: real)
    ensures r >= 0.0
  {
    if ageYears.Some? && ageYears.value * 0.75 > 0.0 then ageYears.value * 0.75 else 0.0
  }

  /** SEI formation: a linear drop of up to 2 % over the first 50 cycles. */
  function SeiDrop(cycles: real): (r: real)
    ensures r <= 2.0
  {
    if 2.0 <= cycles / 50.0 * 2.0 then 2.0 else cycles / 50.0 * 2.0
  }

  /** Cycle ageing: 0.005 % a cycle, weighted by the stress score. */
  function CycleDegradation(cycles: real, stress: real): real {
    cycles * 0.00005 * stress * 100.0
  }

  lemma CycleDegradationMonotone(cycles: real, charging: real, th1: real, th2: real)
    requires cycles >= 0.0 && charging >= 0.0 && th1 <= th2
    ensures CycleDegradation(cycles, StressScore(charging, th1)) <= CycleDegradation(cycles, StressScore(charging, th2))
  {
    MulMonotone(charging, th1, th2);
    MulMonotone(cycles * 0.00005, charging * th1, charging * th2);
    MulMonotone(100.0, cycles * 0.00005 * (charging * th1), cycles * 0.00005 * (charging * th2));
  }

  lemma MulMonotone(k: real, a: real, b: real)
    requires k >= 0.0 && a <= b
    ensures k * a <= k * b && a * k <= b * k
  {
    assert k * b - k * a == k * (b - a);
  }

  /** The early result for no charges or no manufacturing date. */
  function Untouched(thermal: real): SoHData {
    SoHData(100.0, 0.0, 1.0 * thermal, 1.0, thermal, false, Degradation(0.0, 0.0, 0.0))
  }

  /** `100 - sei_drop - cycle_degradation - calendar_degradation`. */
  function RawSoh(cycles: real, stress: real, ageYears: Option<real>): real {
    100.0 - SeiDrop(cycles) - CycleDegradation(cycles, stress) - CalendarDegradation(ageYears)
  }

  /** `parseFloat(Math.max(0, raw).toFixed(2))`. */
  function ClampedSoh(raw: real): (r: real)
    ensures r >= 0.0
  {
    Fixed2(if raw > 0.0 then raw else 0.0)
  }

  /** `stress_score = charging_stress * thermalStressFactor`. */
  function StressScore(charging: real, thermal: real): real {
    charging * thermal
  }

  /** The estimated SoH from the tallied charges. */
  function SohOf(t: Tally, capacity: real, thermal: real, ageYears: Option<real>): real
    requires capacity != 0.0
  {
    ClampedSoh(RawSoh(t.realKwh / capacity, StressScore(ChargingStress(t), thermal), ageYears))
  }

  /** The result from the tallied charges. */
  function FromTally(t: Tally, capacity: real, thermal: real, ageYears: Option<real>): SoHData
    requires capacity != 0.0
  {
    var sessions := t.slow + t.ac + t.dc + t.hpc;
    var cycles := t.realKwh / capacity;
    var charging := ChargingStress(t);
    var stress := StressScore(charging, thermal);
    SoHData(
      SohOf(t, capacity, thermal, ageYears), Fixed2(cycles), Fixed2(stress), Fixed2(charging),
      thermal, sessions > 0 && (t.toFull as real) / (sessions as real) < 0.1,
      Degradation(Fixed2(SeiDrop(cycles)), Fixed2(CycleDegradation(cycles, stress)),
                  Fixed2(CalendarDegradation(ageYears))))
  }

  /** `calculateAdvancedSoH(charges, mfgDate, capacity, chargerTypes, thermalStressFactor)`. */
  function AdvancedSoH(charges: seq<Charge>, mfgDate: string, capacity: NumberInput,
                       types: seq<ChargerType>, thermal: real, ageYears: Option<real>): SoHData
  {
    if charges == [] || mfgDate == "" then Untouched(thermal)
    else FromTally(TallyOf(ElectricCharges(charges), types), NetCapacity(capacity), thermal, ageYears)
  }

  /** The result of the JavaScript twin: the same fields, except that its early
      return leaves out `charging_stress` and `thermal_stress` (`None` here,
      `undefined` there). */
  datatype SoHDataJs = SoHDataJs(
    estimatedSoh: real, realCyclesCount: real, stressScore: real, chargingStress: Option<real>,
    thermalStress: Option<real>, calibrationWarning: bool, degradation: Degradation)

  /** The JavaScript twin's early result for no charges or no manufacturing date. */
  function UntouchedJs(thermal: real): SoHDataJs {
    SoHDataJs(100.0, 0.0, 1.0 * thermal, None, None, false, Degradation(0.0, 0.0, 0.0))
  }

  /** A full result, every field present. */
  function Present(d: SoHData): SoHDataJs {
    SoHDataJs(d.estimatedSoh, d.realCyclesCount, d.stressScore, Some(d.chargingStress),
              Some(d.thermalStress), d.calibrationWarning, d.degradation)
  }

  /** `calculateAdvancedSoH` of src/core/batteryCalculations.js: the same
      computation, with the shorter early return. */
  function AdvancedSoHJs(charges: seq<Charge>, mfgDate: string, capacity: NumberInput,
                         types: seq<ChargerType>, thermal: real, ageYears: Option<real>): (r: SoHDataJs)
    ensures r.chargingStress.None? <==> charges == [] || mfgDate == ""
    ensures r.thermalStress.None? <==> charges == [] || mfgDate == ""
  {
    if charges == [] || mfgDate == "" then UntouchedJs(thermal)
    else Present(FromTally(TallyOf(ElectricCharges(charges), types), NetCapacity(capacity), thermal, ageYears))
  }

  /** The two twins report the same SoH, cycles, stress score, calibration
      warning and degradation; the charging and thermal stress are absent
      from the JavaScript result exactly on the early return, and equal to
      the typed result's everywhere else. */
  lemma AdvancedSoHTwins(charges: seq<Charge>, mfgDate: string, capacity: NumberInput,
                         types: seq<ChargerType>, thermal: real, ageYears: Option<real>)
    ensures var ts := AdvancedSoH(charges, mfgDate, capacity, types, thermal, ageYears);
      var js := AdvancedSoHJs(charges, mfgDate, capacity, types, thermal, ageYears);
      js.estimatedSoh == ts.estimatedSoh && js.realCyclesCount == ts.realCyclesCount
      && js.stressScore == ts.stressScore && js.calibrationWarning == ts.calibrationWarning
      && js.degradation == ts.degradation
      && (charges == [] || mfgDate == "" ==>
            js.chargingStress.None? && js.thermalStress.None?
            && ts.chargingStress == 1.0 && ts.thermalStress == thermal)
      && (charges != [] && mfgDate != "" ==>
            js.chargingStress == Some(ts.chargingStress) && js.thermalStress == Some(ts.thermalStress))
  {
  }

  /** The estimator: tallies the electric charges in one pass, then combines the
      three degradation components. */
  method CalculateAdvancedSoH(charges: seq<Charge>, mfgDate: string, capacity: NumberInput,
                              types: seq<ChargerType>, thermal: real, ageYears: Option<real>)
    returns (r: SoHData)
    ensures r == AdvancedSoH(charges, mfgDate, capacity, types, thermal, ageYears)
  {
    var netCapacity := NetCapacity(capacity);
    if charges == [] || mfgDate == "" {
      return Untouched(thermal);
    }
    var t := TallyCharges(ElectricCharges(charges), types);
    r := FromTally(t, netCapacity, thermal, ageYears);
  }

  /** The loop over the electric charges: counts the sessions per speed class
      and those that reached 99 %, and sums the energy stored. */
  method TallyCharges(valid: seq<Charge>, types: seq<ChargerType>) returns (t: Tally)
    ensures t == TallyOf(valid, types)
  {
    var slow, ac, dc, hpc, toFull := 0, 0, 0, 0, 0;
    var realKwh := 0.0;
    var i := 0;
    while i < |valid|
      invariant 0 <= i <= |valid|
      invariant TallyOf(valid[..i], types) == Tally(slow, ac, dc, hpc, toFull, realKwh)
    {
      var c := valid[i];
      realKwh := realKwh + ChargeKwh(c) * Efficiency(c, types);
      if c.speedKw <= 3.5 {
        slow := slow + 1;
      } else if c.speedKw <= 22.0 {
        ac := ac + 1;
      } else if c.speedKw <= 70.0 {
        dc := dc + 1;
      } else {
        hpc := hpc + 1;
      }
      if OrZero(c.finalPercentage) >= 99.0 {
        toFull := toFull + 1;
      }
      assert valid[..i + 1][..i] == valid[..i];
      assert TallyOf(valid[..i + 1], types) == Count(c, types, TallyOf(valid[..i], types));
      i := i + 1;
    }
    assert valid[..i] == valid;
    t := Tally(slow, ac, dc, hpc, toFull, realKwh);
  }

  /** Without charges or without a manufacturing date the battery is reported
      as new. */
  lemma NoHistoryIsNew(charges: seq<Charge>, mfgDate: string, capacity: NumberInput,
                       types: seq<ChargerType>, thermal: real, ageYears: Option<real>)
    requires charges == [] || mfgDate == ""
    ensures var r := AdvancedSoH(charges, mfgDate, capacity, types, thermal, ageYears);
      r.estimatedSoh == 100.0 && r.realCyclesCount == 0.0 && !r.calibrationWarning
      && r.degradation == Degradation(0.0, 0.0, 0.0)
  {
  }

  /** The bounds every estimate keeps: the SoH is never negative, the SEI drop
      never exceeds 2 %, the charging stress lies between the slowest and the
      fastest class weight, and the calibration warning is raised exactly when
      there were sessions and fewer than a tenth of them reached 99 %. */
  lemma SoHBounds(charges: seq<Charge>, mfgDate: string, capacity: NumberInput,
                  types: seq<ChargerType>, thermal: real, ageYears: Option<real>)
    ensures var r := AdvancedSoH(charges, mfgDate, capacity, types, thermal, ageYears);
      r.estimatedSoh >= 0.0 && r.degradation.sei <= 2.0 && 0.9 <= r.chargingStress <= 2.8
    ensures charges != [] && mfgDate != "" ==>
      var t := TallyOf(ElectricCharges(charges), types);
      var n := |ElectricCharges(charges)|;
      var warning := AdvancedSoH(charges, mfgDate, capacity, types, thermal, ageYears).calibrationWarning;
      warning <==> n > 0 && (t.toFull as real) / (n as real) < 0.1
  {
    if charges != [] && mfgDate != "" {
      var t := TallyOf(ElectricCharges(charges), types);
      TallyPartition(ElectricCharges(charges), types);
      ChargingStressBounds(t);
      var cycles := t.realKwh / NetCapacity(capacity);
      Fixed2AtMost2(SeiDrop(cycles));
      Fixed2Monotone(0.9, ChargingStress(t));
      Fixed2Monotone(ChargingStress(t), 2.8);
      Fixed2StressEnds();
    }
  }

  /** The stress bounds 0.9 and 2.8 are their own two-decimal roundings. */
  lemma Fixed2StressEnds()
    ensures Fixed2(0.9) == 0.9 && Fixed2(2.8) == 2.8
  {
    assert (0.9 * 100.0 + 0.5).Floor == 90;
    assert (2.8 * 100.0 + 0.5).Floor == 280;
  }

  /** A harsher climate never raises the estimate: with charges of non-negative
      energy and a positive capacity, a larger thermal stress factor gives a SoH
      no higher than a smaller one. */
  lemma ThermalStressMonotone(charges: seq<Charge>, mfgDate: string, capacity: NumberInput,
                              types: seq<ChargerType>, th1: real, th2: real, ageYears: Option<real>)
    requires th1 <= th2
    requires NetCapacity(capacity) > 0.0
    requires forall c :: c in charges ==> ChargeKwh(c) >= 0.0
    ensures AdvancedSoH(charges, mfgDate, capacity, types, th2, ageYears).estimatedSoh
         <= AdvancedSoH(charges, mfgDate, capacity, types, th1, ageYears).estimatedSoh
  {
    if charges != [] && mfgDate != "" {
      var valid := ElectricCharges(charges);
      RealKwhNonNegative(valid, types);
      FromTallyThermal(TallyOf(valid, types), NetCapacity(capacity), th1, th2, ageYears);
    }
  }

  lemma FromTallyThermal(t: Tally, capacity: real, th1: real, th2: real, ageYears: Option<real>)
    requires t.realKwh >= 0.0 && capacity > 0.0 && th1 <= th2
    ensures SohOf(t, capacity, th2, ageYears) <= SohOf(t, capacity, th1, ageYears)
  {
    ChargingStressBounds(t);
    var cycles := t.realKwh / capacity;
    assert cycles >= 0.0;
    SohThermal(cycles, ChargingStress(t), th1, th2, ageYears);
  }

  lemma SohThermal(cycles: real, charging: real, th1: real, th2: real, ageYears: Option<real>)
    requires cycles >= 0.0 && charging >= 0.0 && th1 <= th2
    ensures ClampedSoh(RawSoh(cycles, StressScore(charging, th2), ageYears))
         <= ClampedSoh(RawSoh(cycles, StressScore(charging, th1), ageYears))
  {
    CycleDegradationMonotone(cycles, charging, th1, th2);
    ClampedSohMonotone(RawSoh(cycles, StressScore(charging, th2), ageYears), RawSoh(cycles, StressScore(charging, th1), ageYears));
  }

  lemma ClampedSohMonotone(a: real, b: real)
    requires a <= b
    ensures ClampedSoh(a) <= ClampedSoh(b)
  {
    Fixed2Monotone(if a > 0.0 then a else 0.0, if b > 0.0 then b else 0.0);
  }

  lemma {:induction false} RealKwhNonNegative(cs: seq<Charge>, types: seq<ChargerType>)
    requires forall c :: c in cs ==> ChargeKwh(c) >= 0.0
    ensures TallyOf(cs, types).realKwh >= 0.0
  {
    if cs != [] {
      var n := |cs| - 1;
      assert forall c :: c in cs[..n] ==> c in cs;
      RealKwhNonNegative(cs[..n], types);
      assert cs[n] in cs;
    }
  }

  // ------------------------------------------------------------ initial state of charge

  /** What is known of the previous charge: `None` when there is none. */
  datatype PreviousCharge = PreviousCharge(odometer: Option<real>, finalPercentage: Option<real>)

  /** The estimate: `null`, the `NaN` the JavaScript twin produces when a field
      of the previous charge is missing, or a whole percentage. */
  datatype SocEstimate = NoEstimate | NotANumber | Soc(percent: int)

  /** `Math.round(Math.max(0, Math.min(100, final - consumed)))`. */
  function ClampRound(final: real, consumed: real): (r: int)
    ensures 0 <= r <= 100
  {
    var v := final - consumed;
    var c := if v < 0.0 then 0.0 else if v > 100.0 then 100.0 else v;
    (c + 0.5).Floor
  }

  /** The share of the battery used to drive `distance` km at `avgEfficiency`
      kWh/100 km. */
  function SocConsumed(distance: real, avgEfficiency: real, batterySize: real): real
    requires batterySize != 0.0
  {
    distance * avgEfficiency / 100.0 / batterySize * 100.0
  }

  /** src/core/batteryCalculations.ts `estimateInitialSoC`: `null` for a falsy
      argument (0 stands for a falsy number), for a previous charge without a
      numeric odometer or final percentage, and when the car has not moved
      forward; otherwise the previous final percentage less the energy used,
      clamped to 0-100 and rounded. */
  function EstimateInitialSoC(prev: Option<PreviousCharge>, currentOdometer: real,
                              avgEfficiency: real, batterySize: real): (r: SocEstimate)
    ensures r != NotANumber
    ensures r.Soc? ==> 0 <= r.percent <= 100
    ensures r.Soc? <==> prev.Some? && currentOdometer != 0.0 && avgEfficiency != 0.0 && batterySize != 0.0
                        && prev.value.odometer.Some? && prev.value.finalPercentage.Some?
                        && currentOdometer - prev.value.odometer.value > 0.0
  {
    if prev.None? || currentOdometer == 0.0 || avgEfficiency == 0.0 || batterySize == 0.0 then NoEstimate
    else if prev.value.odometer.None? || prev.value.finalPercentage.None? then NoEstimate
    else
      var distance := currentOdometer - prev.value.odometer.value;
      if distance <= 0.0 then NoEstimate
      else Soc(ClampRound(prev.value.finalPercentage.value, SocConsumed(distance, avgEfficiency, batterySize)))
  }

  /** src/core/batteryCalculations.js `estimateInitialSoC`: the same without the
      type checks, so a missing odometer or final percentage gives `NaN`. */
  function EstimateInitialSoCJs(prev: Option<PreviousCharge>, currentOdometer: real,
                                avgEfficiency: real, batterySize: real): (r: SocEstimate)
    ensures r.Soc? ==> 0 <= r.percent <= 100
    ensures prev.Some? && prev.value.odometer.Some? && prev.value.finalPercentage.Some? ==>
      r == EstimateInitialSoC(prev, currentOdometer, avgEfficiency, batterySize)
  {
    if prev.None? || currentOdometer == 0.0 || avgEfficiency == 0.0 || batterySize == 0.0 then NoEstimate
    else if prev.value.odometer.None? then NotANumber
    else
      var distance := currentOdometer - prev.value.odometer.value;
      if distance <= 0.0 then NoEstimate
      else if prev.value.finalPercentage.None? then NotANumber
      else Soc(ClampRound(prev.value.finalPercentage.value, SocConsumed(distance, avgEfficiency, batterySize)))
  }

  /** The cases of the test suite: 80 % before 100 km at 15 kWh/100 km on a
      60 kWh battery leaves 55 %, and 200 km from 10 % leaves nothing. */
  lemma EstimateExamples()
    ensures EstimateInitialSoC(Some(PreviousCharge(Some(1000.0), Some(80.0))), 1100.0, 15.0, 60.0) == Soc(55)
    ensures EstimateInitialSoC(Some(PreviousCharge(Some(1000.0), Some(10.0))), 1200.0, 15.0, 60.0) == Soc(0)
  {
    assert SocConsumed(100.0, 15.0, 60.0) == 25.0;
    assert (55.0 + 0.5).Floor == 55;
    assert (0.0 + 0.5).Floor == 0;
  }
}
