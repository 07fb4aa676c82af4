/** The form for adding or editing a charging session (`AddChargeModal`):
    the fields it holds, the cost and price it fills in as the user types,
    the real energy after the charger's losses, and the session it hands on
    when submitted. Today's date and the current time are parameters; the
    `alert` on a rejected form and the closing of the modal are left out. */
module ChargeForm {
  import opened Wrappers
  import opened Records
  import JsText

  /** The nine fields of `formData`. */
  datatype FormField =
    | Date | Time | Odometer | KwhCharged | ChargerTypeId | PricePerKwh | TotalCost
    | FinalPercentage | InitialPercentage

  /** What a field holds: the text the user typed; a number — the text
      `toString` writes for it, or the default price itself; or the text
      `toFixed(2)` or `toFixed(4)` writes for a number. */
  datatype Entry = Text(s: string) | Num(x: real) | TwoPlaces(v: real) | FourPlaces(v: real)

  type Form = map<FormField, Entry>

  /** Whether an entry is truthy: a non-empty text; the text of a number is
      never empty. */
  predicate Truthy(e: Entry) { !e.Text? || e.s != "" }

  /** `parseFloat` of an entry, given `parseFloat` on texts (`None` is
      `NaN`); the text of a number reads back as that number. The form's
      state uses `JsText.ParseFloat`; the properties below hold for any
      parser. */
  function Parse(parse: string -> Option<real>, e: Entry): Option<real> {
    match e
    case Text(s) => parse(s)
    case Num(x) => Some(x)
    case TwoPlaces(v) => Some(ToFixed2(v))
    case FourPlaces(v) => Some(ToFixed4(v))
  }

  /** The field's entry; a field the object lacks reads as an empty text,
      which, like `undefined`, parses to `NaN` and is falsy. */
  function Get(f: Form, k: FormField): Entry {
    if k in f then f[k] else Text("")
  }

  /** A text field's content. */
  function TextOf(e: Entry): string {
    if e.Text? then e.s else ""
  }

  /** Every field is there, and the date, time and charger id are texts. */
  predicate Complete(f: Form) {
    Date in f && Time in f && Odometer in f && KwhCharged in f && ChargerTypeId in f && PricePerKwh in f
    && TotalCost in f && FinalPercentage in f && InitialPercentage in f
    && f[Date].Text? && f[Time].Text? && f[ChargerTypeId].Text?
  }

  // ------------------------------------------------------------ rounding

  /** `x.toFixed(2)` read back as a number: the nearest hundredth, halves
      away from zero. */
  function ToFixed2(x: real): real {
    if x >= 0.0 then ((x * 100.0 + 0.5).Floor as real) / 100.0
    else -((((-x) * 100.0 + 0.5).Floor as real) / 100.0)
  }

  /** `x.toFixed(4)` read back as a number. */
  function ToFixed4(x: real): real {
    if x >= 0.0 then ((x * 10000.0 + 0.5).Floor as real) / 10000.0
    else -((((-x) * 10000.0 + 0.5).Floor as real) / 10000.0)
  }

  /** Rounding to hundredths moves a number by at most half a hundredth. */
  lemma ToFixed2Close(x: real)
    ensures ToFixed2(x) - x <= 0.005 && x - ToFixed2(x) <= 0.005
  {
    var a := if x >= 0.0 then x else -x;
    StepBound(a, (a * 100.0 + 0.5).Floor as real, 100.0);
  }

  /** Rounding to ten-thousandths moves a number by at most half of one. */
  lemma ToFixed4Close(x: real)
    ensures ToFixed4(x) - x <= 0.00005 && x - ToFixed4(x) <= 0.00005
  {
    var a := if x >= 0.0 then x else -x;
    StepBound(a, (a * 10000.0 + 0.5).Floor as real, 10000.0);
  }

  lemma StepBound(a: real, f: real, scale: real)
    requires scale > 0.0 && a * scale - 0.5 < f <= a * scale + 0.5
    ensures f / scale - a <= 0.5 / scale && a - f / scale <= 0.5 / scale
  {
    assert f / scale - a == (f - a * scale) / scale;
    assert a - f / scale == (a * scale - f) / scale;
  }

  // ------------------------------------------------------------ opening

  /** `chargerTypes[0]?.id || ''`. */
  function FirstTypeId(types: seq<ChargerType>): string {
    if types == [] then "" else types[0].id
  }

  /** `getInitialState()`. */
  function NewForm(today: string, now: string, types: seq<ChargerType>, defaultPrice: real): (r: Form)
    ensures Complete(r)
    ensures forall k :: k in {Odometer, KwhCharged, TotalCost, FinalPercentage, InitialPercentage} ==> !Truthy(r[k])
    ensures r[PricePerKwh] == Num(defaultPrice)
  {
    map[Date := Text(today), Time := Text(now), Odometer := Text(""), KwhCharged := Text(""),
        ChargerTypeId := Text(FirstTypeId(types)), PricePerKwh := Num(defaultPrice), TotalCost := Text(""),
        FinalPercentage := Text(""), InitialPercentage := Text("")]
  }

  /** `x?.toString() || ''` for a percentage that may be missing. */
  function PercentEntry(p: Option<real>): Entry {
    if p.Some? then Num(p.value) else Text("")
  }

  /** The form filled from the session being edited; a missing date, time
      or charger falls back to today, now and the first charger type. */
  function EditForm(c: Charge, today: string, now: string, types: seq<ChargerType>): (r: Form)
    ensures Complete(r)
  {
    map[Date := Text(if c.date != "" then c.date else today),
        Time := Text(if c.time != "" then c.time else now),
        Odometer := Num(c.odometer), KwhCharged := Num(c.kwhCharged),
        ChargerTypeId := Text(if c.chargerTypeId != "" then c.chargerTypeId else FirstTypeId(types)),
        PricePerKwh := Num(c.pricePerKwh), TotalCost := Num(c.totalCost),
        FinalPercentage := PercentEntry(c.finalPercentage), InitialPercentage := PercentEntry(c.initialPercentage)]
  }

  // ------------------------------------------------------------ typing

  /** `handleChange(field, value)`: the field takes the typed text; typing
      the energy or the price fills in the total cost, and typing the total
      cost fills in the price. */
  function Changed(parse: string -> Option<real>, prev: Form, field: FormField, value: string): (r: Form)
    ensures Complete(prev) ==> Complete(r)
  {
    var next := prev[field := Text(value)];
    if field == KwhCharged then WithCost(next, Parse(parse, Text(value)), Parse(parse, Get(prev, PricePerKwh)))
    else if field == PricePerKwh then WithCost(next, Parse(parse, Get(prev, KwhCharged)), Parse(parse, Text(value)))
    else if field == TotalCost then WithPrice(next, Parse(parse, Text(value)), Parse(parse, Get(prev, KwhCharged)))
    else next
  }

  /** The total cost filled in from the energy and the price, when both
      are positive numbers. */
  function WithCost(f: Form, kwh: Option<real>, price: Option<real>): (r: Form)
    ensures Complete(f) ==> Complete(r)
  {
    if kwh.Some? && price.Some? && kwh.value > 0.0 && price.value > 0.0 then f[TotalCost := TwoPlaces(kwh.value * price.value)]
    else f
  }

  /** The price filled in from the total cost and a positive energy. */
  function WithPrice(f: Form, cost: Option<real>, kwh: Option<real>): (r: Form)
    ensures Complete(f) ==> Complete(r)
  {
    if cost.Some? && kwh.Some? && kwh.value > 0.0 then f[PricePerKwh := FourPlaces(cost.value / kwh.value)]
    else f
  }

  /** What typing changes: the field itself always, and no field but the
      total cost and the price besides; a field other than the energy, the
      price and the total cost changes nothing else. */
  lemma ChangedSpec(parse: string -> Option<real>, prev: Form, field: FormField, value: string)
    ensures var r := Changed(parse, prev, field, value);
      prev.Keys + {field} <= r.Keys
      && r[field] == Text(value)
      && (forall k :: k in prev && k != field && k != TotalCost && k != PricePerKwh ==> r[k] == prev[k])
      && (field != KwhCharged && field != PricePerKwh && field != TotalCost ==> r == prev[field := Text(value)])
  {
  }

  /** Typing the energy or the price sets the total cost exactly when both
      now read as positive numbers, and then to their product to the cent;
      the price typed is kept as typed. */
  lemma ChangedCost(parse: string -> Option<real>, prev: Form, field: FormField, value: string)
    requires field == KwhCharged || field == PricePerKwh
    ensures var r := Changed(parse, prev, field, value);
      var kwh, price := Parse(parse, Get(r, KwhCharged)), Parse(parse, Get(r, PricePerKwh));
      Get(r, PricePerKwh) == (if field == PricePerKwh then Text(value) else Get(prev, PricePerKwh))
      && if kwh.Some? && price.Some? && kwh.value > 0.0 && price.value > 0.0
         then r[TotalCost] == TwoPlaces(kwh.value * price.value)
         else Get(r, TotalCost) == Get(prev, TotalCost)
  {
    var next := prev[field := Text(value)];
    assert Get(next, KwhCharged) == (if field == KwhCharged then Text(value) else Get(prev, KwhCharged));
    assert Get(next, PricePerKwh) == (if field == PricePerKwh then Text(value) else Get(prev, PricePerKwh));
  }

  /** Typing the total cost sets the price exactly when the cost parses and
      the energy is positive, and then to their quotient to a
      ten-thousandth. */
  lemma ChangedPrice(parse: string -> Option<real>, prev: Form, value: string)
    ensures var r := Changed(parse, prev, TotalCost, value);
      var cost, kwh := Parse(parse, Text(value)), Parse(parse, Get(prev, KwhCharged));
      if cost.Some? && kwh.Some? && kwh.value > 0.0
      then r[PricePerKwh] == FourPlaces(cost.value / kwh.value)
      else Get(r, PricePerKwh) == Get(prev, PricePerKwh)
  {
  }

  /** After the energy or price is typed and the cost filled in, the cost
      is within half a cent of energy times price. */
  lemma FilledCostNearProduct(parse: string -> Option<real>, prev: Form, field: FormField, value: string)
    requires field == KwhCharged || field == PricePerKwh
    ensures var r := Changed(parse, prev, field, value);
      var kwh, price := Parse(parse, Get(r, KwhCharged)), Parse(parse, Get(r, PricePerKwh));
      kwh.Some? && price.Some? && kwh.value > 0.0 && price.value > 0.0 ==>
        var cost := Parse(parse, r[TotalCost]).value;
        cost - kwh.value * price.value <= 0.005 && kwh.value * price.value - cost <= 0.005
  {
    var r := Changed(parse, prev, field, value);
    ChangedCost(parse, prev, field, value);
    var kwh, price := Parse(parse, Get(r, KwhCharged)), Parse(parse, Get(r, PricePerKwh));
    if kwh.Some? && price.Some? && kwh.value > 0.0 && price.value > 0.0 {
      ToFixed2Close(kwh.value * price.value);
    }
  }

  /** After the total cost is typed and the price filled in, price times
      energy is back within half a ten-thousandth per kWh of the cost. */
  lemma FilledPriceNearQuotient(parse: string -> Option<real>, prev: Form, value: string)
    ensures var r := Changed(parse, prev, TotalCost, value);
      var cost, kwh := Parse(parse, Text(value)), Parse(parse, Get(prev, KwhCharged));
      cost.Some? && kwh.Some? && kwh.value > 0.0 ==>
        var price := Parse(parse, r[PricePerKwh]).value;
        price * kwh.value - cost.value <= 0.00005 * kwh.value
        && cost.value - price * kwh.value <= 0.00005 * kwh.value
  {
    var r := Changed(parse, prev, TotalCost, value);
    ChangedPrice(parse, prev, value);
    var cost, kwh := Parse(parse, Text(value)), Parse(parse, Get(prev, KwhCharged));
    if cost.Some? && kwh.Some? && kwh.value > 0.0 {
      assert Parse(parse, r[PricePerKwh]) == Some(ToFixed4(cost.value / kwh.value));
      QuotientRounded(cost.value, kwh.value);
    }
  }

  lemma QuotientRounded(cost: real, kwh: real)
    requires kwh > 0.0
    ensures ToFixed4(cost / kwh) * kwh - cost <= 0.00005 * kwh
    ensures cost - ToFixed4(cost / kwh) * kwh <= 0.00005 * kwh
  {
    var q := cost / kwh;
    var p := ToFixed4(q);
    ToFixed4Close(q);
    ScaleBound(p, q, kwh, 0.00005, cost);
  }

  lemma ScaleBound(p: real, q: real, k: real, e: real, c: real)
    requires k > 0.0 && p - q <= e && q - p <= e && q * k == c
    ensures p * k - c <= e * k && c - p * k <= e * k
  {
    assert p * k - c == (p - q) * k;
    assert c - p * k == (q - p) * k;
  }

  // ------------------------------------------------------------ real energy

  /** `getRealKwh()`: the energy times the charger's efficiency, to the
      cent; `None` (`null`) when the energy does not parse, no charger is
      chosen, or the charger is unknown or has no (or a zero) efficiency. */
  function RealKwh(parse: string -> Option<real>, f: Form, types: seq<ChargerType>): Option<real> {
    var kwh := Parse(parse, Get(f, KwhCharged));
    var id := Get(f, ChargerTypeId);
    if kwh.None? || !Truthy(id) || !id.Text? then None
    else match FindType(types, TextOf(id))
      case None => None
      case Some(t) =>
        if t.efficiency.None? || t.efficiency.value == 0.0 then None
        else Some(Corrected(kwh.value, t))
  }

  /** The energy times the charger's efficiency, to the cent; within half a
      hundredth of the exact product. */
  function Corrected(kwh: real, t: ChargerType): (r: real)
    requires t.efficiency.Some?
    ensures r - kwh * t.efficiency.value <= 0.005 && kwh * t.efficiency.value - r <= 0.005
  {
    ToFixed2Close(kwh * t.efficiency.value);
    ToFixed2(kwh * t.efficiency.value)
  }

  /** The real energy is given exactly when the energy parses and the
      chosen charger is known with a non-zero efficiency, and then it is
      within half a hundredth of energy times efficiency. */
  lemma RealKwhSpec(parse: string -> Option<real>, f: Form, types: seq<ChargerType>)
    ensures var r := RealKwh(parse, f, types);
      var kwh, id := Parse(parse, Get(f, KwhCharged)), Get(f, ChargerTypeId);
      var t := FindType(types, TextOf(id));
      (r.Some? <==> kwh.Some? && id.Text? && id.s != "" && t.Some? && t.value.efficiency.Some? && t.value.efficiency.value != 0.0)
      && (r.Some? ==>
            r.value - kwh.value * t.value.efficiency.value <= 0.005
            && kwh.value * t.value.efficiency.value - r.value <= 0.005)
  {
    var kwh, id := Parse(parse, Get(f, KwhCharged)), Get(f, ChargerTypeId);
    var t := FindType(types, TextOf(id));
    if kwh.Some? && id.Text? && id.s != "" && t.Some? && t.value.efficiency.Some? && t.value.efficiency.value != 0.0 {
      assert RealKwh(parse, f, types) == Some(Corrected(kwh.value, t.value));
    }
  }

  // ------------------------------------------------------------ submitting

  /** `initialPercentage`: `null` for an empty field, else what it parses
      to (`None` standing for `NaN`). */
  datatype Initial = NullInitial | ParsedInitial(parsed: Option<real>)

  /** The `chargeData` handed to `onSave`. */
  datatype ChargeData = ChargeData(
    id: Option<string>, date: string, time: string, odometer: real, kwhCharged: real,
    chargerTypeId: string, pricePerKwh: real, totalCost: real, finalPercentage: real,
    initialPercentage: Initial)

  /** `handleSubmit`: nothing when the energy, odometer or final percentage
      is empty; otherwise the session, numbers parsed with 0 for what does
      not parse, and the edited session's id when it has one. */
  function Submission(parse: string -> Option<real>, f: Form, editingId: Option<string>): Option<ChargeData> {
    if !Truthy(Get(f, KwhCharged)) || !Truthy(Get(f, Odometer)) || !Truthy(Get(f, FinalPercentage)) then None
    else
      var initial := Get(f, InitialPercentage);
      Some(ChargeData(
        if editingId.Some? && editingId.value != "" then editingId else None,
        TextOf(Get(f, Date)), TextOf(Get(f, Time)),
        OrZero(Parse(parse, Get(f, Odometer))), OrZero(Parse(parse, Get(f, KwhCharged))), TextOf(Get(f, ChargerTypeId)),
        OrZero(Parse(parse, Get(f, PricePerKwh))), OrZero(Parse(parse, Get(f, TotalCost))),
        OrZero(Parse(parse, Get(f, FinalPercentage))),
        if Truthy(initial) then ParsedInitial(Parse(parse, initial)) else NullInitial))
  }

  /** A new form is rejected until the energy, odometer and final
      percentage are filled in. */
  lemma NewFormRejected(parse: string -> Option<real>, today: string, now: string, types: seq<ChargerType>, defaultPrice: real, editingId: Option<string>)
    ensures Submission(parse, NewForm(today, now, types, defaultPrice), editingId).None?
  {
  }

  /** Opening a session for editing and submitting it unchanged gives back
      its date, time, charger, numbers, percentages and id (an empty id is
      not kept); a session with no final percentage cannot be submitted
      unchanged. */
  lemma EditRoundTrip(parse: string -> Option<real>, c: Charge, today: string, now: string, types: seq<ChargerType>)
    ensures var r := Submission(parse, EditForm(c, today, now, types), Some(c.id));
      (c.finalPercentage.None? ==> r.None?)
      && (c.finalPercentage.Some? && c.date != "" && c.time != "" && c.chargerTypeId != "" ==>
            r == Some(ChargeData(if c.id != "" then Some(c.id) else None, c.date, c.time, c.odometer,
                                 c.kwhCharged, c.chargerTypeId, c.pricePerKwh, c.totalCost,
                                 c.finalPercentage.value,
                                 if c.initialPercentage.Some? then ParsedInitial(c.initialPercentage) else NullInitial)))
  {
  }

  /** The form's state. */
  class ChargeFormState {
    var form: Form

    predicate Valid()
      reads this
    {
      Complete(form)
    }

    /** `useState(getInitialState)`. */
    constructor (today: string, now: string, types: seq<ChargerType>, defaultPrice: real)
      ensures Valid()
      ensures form == NewForm(today, now, types, defaultPrice)
    {
      form := NewForm(today, now, types, defaultPrice);
    }

    /** The reset when the modal opens: the edited session's values, or a
        new form. */
    method Open(editing: Option<Charge>, today: string, now: string, types: seq<ChargerType>, defaultPrice: real)
      modifies this
      ensures Valid()
      ensures form == if editing.Some? then EditForm(editing.value, today, now, types)
                      else NewForm(today, now, types, defaultPrice)
    {
      if editing.Some? {
        form := EditForm(editing.value, today, now, types);
      } else {
        form := NewForm(today, now, types, defaultPrice);
      }
    }

    /** `handleChange(field, value)`. */
    method HandleChange(field: FormField, value: string)
      requires Valid()
      modifies this
      ensures Valid()
      ensures form == Changed(JsText.ParseFloat, old(form), field, value)
    {
      form := Changed(JsText.ParseFloat, form, field, value);
    }
  }
}
