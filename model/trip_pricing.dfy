/** How the statistics engine prices a trip (src/core/dataProcessing.ts and its
    twin src/core/dataProcessing.js): each energy source has a strategy —
    a fixed custom price, the average price paid over all charges, or the
    "dynamic" price of the last charge before the trip started. */
module TripPricing {
  import opened Wrappers
  import opened JsText
  import opened Records
  import opened StableSort
  import opened Seqs

  /** The strategy names the code compares against; any other name falls
      through to the dynamic branch but never has processed charges. */
  datatype Strategy = Custom | Average | Dynamic | OtherStrategy

  /** `name || 'custom'`, then compared with 'custom', 'average' and 'dynamic'. */
  function StrategyOf(name: string): (s: Strategy)
    ensures s == Dynamic <==> name == "dynamic"
    ensures s == Custom <==> name == "" || name == "custom"
  {
    if name == "" || name == "custom" then Custom
    else if name == "average" then Average
    else if name == "dynamic" then Dynamic
    else OtherStrategy
  }

  /** The custom price: a number is used as it is (`x || 0`), a text is read by
      `parseFloat`, and an absent setting is 0. A text with no number in it
      makes `parseFloat` give `NaN`, which the price keeps; this model, which
      has no `NaN`, reads it as 0 instead. */
  function CustomPrice(p: NumberInput): (r: real)
    ensures p.InputNumber? ==> r == p.x
    ensures p.InputMissing? ==> r == 0.0
  {
    match p
    case InputNumber(x) => x
    case InputText(s) => ParseFloatOr0(s)
    case InputMissing => 0.0
  }

  datatype PriceSettings = PriceSettings(
    electricStrategy: string, fuelStrategy: string,
    electricPrice: NumberInput, fuelPrice: NumberInput)

  /** A charge prepared for the dynamic strategy: its start time in Unix seconds
      (`NaN` read as 0) and the price per unit it was bought at. */
  datatype PricedCharge = PricedCharge(timestamp: int, effectivePrice: real)

  datatype PriceStrategy = PriceStrategy(strategy: Strategy, custom: real, avg: real, processed: seq<PricedCharge>)

  datatype PriceStrategies = PriceStrategies(elec: PriceStrategy, fuel: PriceStrategy)

  /** `new Date(`${date}T${time}:00`).getTime() / 1000`, supplied by the caller. */
  type ChargeClock = (string, string) -> int

  /** `c.time || "00:00"`. */
  function TimeOr(time: string): string {
    if time == "" then "00:00" else time
  }

  function SumKwh(cs: seq<Charge>): real {
    if cs == [] then 0.0 else cs[0].kwhCharged + SumKwh(cs[1..])
  }

  function SumLiters(cs: seq<Charge>): real {
    if cs == [] then 0.0 else cs[0].litersCharged + SumLiters(cs[1..])
  }

  function SumCost(cs: seq<Charge>): real {
    if cs == [] then 0.0 else cs[0].totalCost + SumCost(cs[1..])
  }

  /** Total cost over total quantity, or 0 when nothing was bought. */
  function AveragePrice(cost: real, quantity: real): real {
    if quantity > 0.0 then cost / quantity else 0.0
  }

  function PricedElectric(cs: seq<Charge>, clock: ChargeClock): (r: seq<PricedCharge>)
    ensures |r| == |cs|
    ensures forall i :: 0 <= i < |cs| ==> r[i] == PricedCharge(clock(cs[i].date, TimeOr(cs[i].time)),
      if cs[i].kwhCharged > 0.0 then cs[i].totalCost / cs[i].kwhCharged else 0.0)
  {
    if cs == [] then []
    else
      [PricedCharge(clock(cs[0].date, TimeOr(cs[0].time)),
        if cs[0].kwhCharged > 0.0 then cs[0].totalCost / cs[0].kwhCharged else 0.0)]
      + PricedElectric(cs[1..], clock)
  }

  function PricedFuel(cs: seq<Charge>, clock: ChargeClock): (r: seq<PricedCharge>)
    ensures |r| == |cs|
    ensures forall i :: 0 <= i < |cs| ==> r[i] == PricedCharge(clock(cs[i].date, TimeOr(cs[i].time)),
      if cs[i].litersCharged > 0.0 then cs[i].totalCost / cs[i].litersCharged else 0.0)
  {
    if cs == [] then []
    else
      [PricedCharge(clock(cs[0].date, TimeOr(cs[0].time)),
        if cs[0].litersCharged > 0.0 then cs[0].totalCost / cs[0].litersCharged else 0.0)]
      + PricedFuel(cs[1..], clock)
  }

  /** The ascending-timestamp order of the dynamic charges. */
  function TsLe(): (PricedCharge, PricedCharge) -> bool {
    (a: PricedCharge, b: PricedCharge) => a.timestamp <= b.timestamp
  }

  lemma TsLeTotalPreorder()
    ensures TotalPreorder(TsLe())
  {
  }

  /** `preparePriceStrategies(priceSettings, charges)`. */
  function PrepareStrategies(settings: PriceSettings, charges: seq<Charge>, clock: ChargeClock): (r: PriceStrategies)
    ensures r.elec.strategy == StrategyOf(settings.electricStrategy)
    ensures r.fuel.strategy == StrategyOf(settings.fuelStrategy)
    ensures r.elec.custom == CustomPrice(settings.electricPrice) && r.fuel.custom == CustomPrice(settings.fuelPrice)
    ensures r.elec.processed != [] ==> r.elec.strategy == Dynamic
    ensures r.fuel.processed != [] ==> r.fuel.strategy == Dynamic
  {
    var e := ElectricCharges(charges);
    var f := FuelCharges(charges);
    var some := |charges| > 0;
    PriceStrategies(
      PriceStrategy(StrategyOf(settings.electricStrategy), CustomPrice(settings.electricPrice),
        if some then AveragePrice(SumCost(e), SumKwh(e)) else 0.0,
        if some && settings.electricStrategy == "dynamic" then SortBy(PricedElectric(e, clock), TsLe()) else []),
      PriceStrategy(StrategyOf(settings.fuelStrategy), CustomPrice(settings.fuelPrice),
        if some then AveragePrice(SumCost(f), SumLiters(f)) else 0.0,
        if some && settings.fuelStrategy == "dynamic" then SortBy(PricedFuel(f, clock), TsLe()) else []))
  }

  /** The prepared strategies: the average price is cost over kWh (litres) of
      the electric (fuel) charges, or 0 when that quantity is not positive, and
      the dynamic charges are exactly the priced charges of that kind, in
      ascending time order. */
  lemma PrepareStrategiesProperties(settings: PriceSettings, charges: seq<Charge>, clock: ChargeClock)
    ensures var r := PrepareStrategies(settings, charges, clock);
      var e := ElectricCharges(charges);
      var f := FuelCharges(charges);
      r.elec.avg == AveragePrice(SumCost(e), SumKwh(e))
      && r.fuel.avg == AveragePrice(SumCost(f), SumLiters(f))
      && SortedBy(r.elec.processed, TsLe()) && SortedBy(r.fuel.processed, TsLe())
      && (settings.electricStrategy == "dynamic" ==> multiset(r.elec.processed) == multiset(PricedElectric(e, clock)))
      && (settings.fuelStrategy == "dynamic" ==> multiset(r.fuel.processed) == multiset(PricedFuel(f, clock)))
  {
    TsLeTotalPreorder();
    SortBySorted(PricedElectric(ElectricCharges(charges), clock), TsLe());
    SortBySorted(PricedFuel(FuelCharges(charges), clock), TsLe());
  }

  // ------------------------------------------------------------ the price of one trip

  /** The index the backward scan stops at: the last charge whose timestamp is
      strictly before `start`. */
  function LastBefore(cs: seq<PricedCharge>, start: int): (r: Option<nat>)
    ensures r.Some? ==> r.value < |cs| && cs[r.value].timestamp < start
                        && forall j :: r.value < j < |cs| ==> cs[j].timestamp >= start
    ensures r.None? ==> forall j :: 0 <= j < |cs| ==> cs[j].timestamp >= start
  {
    if cs == [] then None
    else if cs[|cs| - 1].timestamp < start then Some(|cs| - 1)
    else LastBefore(cs[..|cs| - 1], start)
  }

  /** `getPriceForTrip` as a function of the trip's start time. */
  function PriceAt(start: int, p: PriceStrategy): real {
    match p.strategy
    case Custom => p.custom
    case Average => if p.avg > 0.0 then p.avg else p.custom
    case _ =>
      var i := LastBefore(p.processed, start);
      if i.Some? then p.processed[i.value].effectivePrice else p.custom
  }

  /** `getPriceForTrip(trip, ...)`: the custom price, the average price when it
      is positive, or the effective price found by scanning the dynamic charges
      backwards from the newest. */
  method GetPriceForTrip(t: Trip, p: PriceStrategy) returns (price: real)
    ensures price == PriceAt(t.startTs, p)
  {
    if p.strategy == Custom {
      return p.custom;
    }
    if p.strategy == Average {
      return if p.avg > 0.0 then p.avg else p.custom;
    }
    price := ScanBack(p.processed, t.startTs, p.custom);
  }

  /** The dynamic strategy's backward scan: the effective price of the
      newest charge strictly before `start`, or `fallback` when there is none. */
  method ScanBack(cs: seq<PricedCharge>, start: int, fallback: real) returns (price: real)
    ensures var i := LastBefore(cs, start);
      price == if i.Some? then cs[i.value].effectivePrice else fallback
  {
    var i := |cs|;
    while i > 0
      invariant 0 <= i <= |cs|
      invariant LastBefore(cs, start) == LastBefore(cs[..i], start)
    {
      if cs[i - 1].timestamp < start {
        assert cs[..i][..i - 1] == cs[..i - 1];
        return cs[i - 1].effectivePrice;
      }
      assert cs[..i][..i - 1] == cs[..i - 1];
      i := i - 1;
    }
    return fallback;
  }

  /** The three strategies. Custom always gives the custom price; average gives
      the average when it is positive and the custom price otherwise; dynamic
      over charges in ascending time order gives the effective price of a
      charge that is the latest one strictly before the trip — a price of 0
      included — and the custom price when there is none. */
  lemma PriceRules(start: int, p: PriceStrategy)
    ensures p.strategy == Custom ==> PriceAt(start, p) == p.custom
    ensures p.strategy == Average ==> PriceAt(start, p) == (if p.avg > 0.0 then p.avg else p.custom)
    ensures (p.strategy == Dynamic || p.strategy == OtherStrategy) && SortedBy(p.processed, TsLe()) ==>
      if exists j :: 0 <= j < |p.processed| && p.processed[j].timestamp < start then
        exists i :: 0 <= i < |p.processed| && p.processed[i].timestamp < start
          && PriceAt(start, p) == p.processed[i].effectivePrice
          && forall j :: 0 <= j < |p.processed| && p.processed[j].timestamp < start ==>
               p.processed[j].timestamp <= p.processed[i].timestamp
      else PriceAt(start, p) == p.custom
  {
    if (p.strategy == Dynamic || p.strategy == OtherStrategy) && SortedBy(p.processed, TsLe()) {
      var cs := p.processed;
      var r := LastBefore(cs, start);
      if r.Some? {
        var i := r.value;
        forall j | 0 <= j < |cs| && cs[j].timestamp < start ensures cs[j].timestamp <= cs[i].timestamp {
          if j < i { assert TsLe()(cs[j], cs[i]); }
        }
      }
    }
  }

  /** A strategy name other than the three known ones prices like 'custom',
      for electricity and for fuel alike: only 'dynamic' prepares charges to
      scan. */
  lemma UnknownStrategyIsCustom(settings: PriceSettings, charges: seq<Charge>, clock: ChargeClock, start: int)
    ensures StrategyOf(settings.electricStrategy) == OtherStrategy ==>
      PriceAt(start, PrepareStrategies(settings, charges, clock).elec) == CustomPrice(settings.electricPrice)
    ensures StrategyOf(settings.fuelStrategy) == OtherStrategy ==>
      PriceAt(start, PrepareStrategies(settings, charges, clock).fuel) == CustomPrice(settings.fuelPrice)
  {
  }

  // ------------------------------------------------------------ the cost of one trip

  /** The cost fields `calculateTripCost` writes onto the trip. */
  datatype TripCost = TripCost(electricCost: real, fuelCost: real, calculatedCost: real)

  function CostOf(t: Trip, ps: PriceStrategies): TripCost {
    var e := Kwh(t) * PriceAt(t.startTs, ps.elec);
    var f := t.fuel * PriceAt(t.startTs, ps.fuel);
    TripCost(e, f, e + f)
  }

  /** A trip object after `calculateTripCost` has written its cost fields
      (`calculatedCost`, `electricCost`, `fuelCost`) onto it. */
  datatype CostedTrip = CostedTrip(trip: Trip, cost: TripCost)

  /** The decoration of one trip under the strategies `ps`. */
  function Decorate(ps: PriceStrategies): Trip -> CostedTrip {
    (t: Trip) => CostedTrip(t, CostOf(t, ps))
  }

  /** `calculateTripCost(trip, strategies)`: energy times the electricity price
      plus fuel times the fuel price, and the two parts. */
  method CalculateTripCost(t: Trip, ps: PriceStrategies) returns (c: TripCost)
    ensures c == CostOf(t, ps) && Decorate(ps)(t) == CostedTrip(t, c)
    ensures c.calculatedCost == c.electricCost + c.fuelCost
    ensures c.electricCost == Kwh(t) * PriceAt(t.startTs, ps.elec)
    ensures c.fuelCost == t.fuel * PriceAt(t.startTs, ps.fuel)
  {
    var ePrice := GetPriceForTrip(t, ps.elec);
    var fPrice := GetPriceForTrip(t, ps.fuel);
    var e := Kwh(t) * ePrice;
    var f := t.fuel * fPrice;
    c := TripCost(e, f, e + f);
  }
}
