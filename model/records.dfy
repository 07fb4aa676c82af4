/** The records the web layer works on: trips (one row of the car's trip log),
    charging sessions and charger types. JavaScript's `undefined`, `null` and
    non-numbers are modelled per field: a field the code tests with `typeof`,
    `!== 0` or `!= null` is an `Option`; a field it only reads through `|| 0`
    or `> 0` is a number whose missing value is 0; a missing string is "". */
module Records {
  import opened Wrappers

  /** A numeric setting as stored: a number, a text, or absent. */
  datatype NumberInput = InputNumber(x: real) | InputText(s: string) | InputMissing

  datatype Trip = Trip(
    trip: Option<real>,         // distance in km; None when not a number
    electricity: Option<real>,  // energy in kWh; None when missing
    fuel: real,                 // litres
    duration: real,             // seconds
    date: string,               // YYYYMMDD
    month: string,              // YYYYMM
    startTs: int,               // start_timestamp, Unix seconds (0 when missing)
    endTs: int)

  /** `trip.trip || 0`. */
  function Km(t: Trip): real { OrZero(t.trip) }

  /** `trip.electricity || 0`. */
  function Kwh(t: Trip): real { OrZero(t.electricity) }

  /** `t.electricity !== 0`: true for a missing value too. */
  predicate ElecNonZero(t: Trip) { t.electricity != Some(0.0) }

  /** `isStationaryTrip`: a distance under half a kilometre. */
  predicate IsStationary(t: Trip) { Km(t) < 0.5 }

  /** The charge's `type` field: unset (`undefined` or ''), 'electric', 'fuel' or any other text. */
  datatype ChargeKind = Unset | Electric | Fuel | OtherKind(name: string)

  /** `!c.type || c.type === 'electric'`, equivalently `(c.type || 'electric') === 'electric'`. */
  predicate IsElectric(c: Charge) { c.kind.Unset? || c.kind.Electric? }

  predicate IsFuel(c: Charge) { c.kind.Fuel? }

  datatype Charge = Charge(
    id: string,
    date: string,                  // YYYY-MM-DD
    time: string,                  // HH:MM
    odometer: real,
    kwhCharged: real,
    kwh: real,                     // legacy alias of kwhCharged
    totalCost: real,
    pricePerKwh: real,
    chargerTypeId: string,         // "" when missing or null
    finalPercentage: Option<real>,
    initialPercentage: Option<real>,
    kind: ChargeKind,
    litersCharged: real,
    pricePerLiter: real,
    speedKw: real,
    timestamp: int)                // 0 when missing

  /** `charges.filter(c => !c.type || c.type === 'electric')`. */
  function ElectricCharges(cs: seq<Charge>): (r: seq<Charge>)
    ensures |r| <= |cs| && forall c :: c in r <==> c in cs && IsElectric(c)
  {
    if cs == [] then [] else (if IsElectric(cs[0]) then [cs[0]] else []) + ElectricCharges(cs[1..])
  }

  /** `charges.filter(c => c.type === 'fuel')`. */
  function FuelCharges(cs: seq<Charge>): (r: seq<Charge>)
    ensures |r| <= |cs| && forall c :: c in r <==> c in cs && IsFuel(c)
  {
    if cs == [] then [] else (if IsFuel(cs[0]) then [cs[0]] else []) + FuelCharges(cs[1..])
  }

  datatype ChargerType = ChargerType(id: string, name: string, speedKw: real, efficiency: Option<real>)

  /** `types.find(t => t.id === id)`. */
  function FindType(types: seq<ChargerType>, id: string): (r: Option<ChargerType>)
    ensures r.Some? ==> r.value in types && r.value.id == id
    ensures r.None? ==> forall k :: 0 <= k < |types| ==> types[k].id != id
  {
    if types == [] then None
    else if types[0].id == id then Some(types[0])
    else FindType(types[1..], id)
  }
}
