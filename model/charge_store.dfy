/** The per-car list of charging sessions (`useChargesData`, TypeScript and
    JavaScript twins). The list is kept ordered newest first: every operation
    that adds or changes sessions re-sorts with the comparator
    `(b.timestamp || 0) - (a.timestamp || 0)`. Fresh ids and the
    `new Date(date + 'T' + time).getTime()` parse are parameters. */
module ChargeStore {
  import opened Wrappers
  import opened Records
  import opened StableSort
  import KeyedMap
  import opened Seqs

  /** `(a, b) => b.timestamp - a.timestamp <= 0`: `a` may stay before `b`. */
  function NewestFirst(): (Charge, Charge) -> bool {
    (a: Charge, b: Charge) => a.timestamp >= b.timestamp
  }

  lemma NewestFirstTotalPreorder()
    ensures TotalPreorder(NewestFirst())
  {
  }

  /** The order the store keeps. */
  predicate NewestFirstOrder(cs: seq<Charge>) {
    forall i, j :: 0 <= i < j < |cs| ==> cs[i].timestamp >= cs[j].timestamp
  }

  /** The store's re-sort, with what it guarantees: newest first, same sessions. */
  function Sorted(cs: seq<Charge>): (r: seq<Charge>)
    ensures NewestFirstOrder(r) && multiset(r) == multiset(cs) && |r| == |cs|
  {
    NewestFirstTotalPreorder();
    SortBySorted(cs, NewestFirst());
    SortBy(cs, NewestFirst())
  }

  /** The date-and-time parse `new Date(`${date}T${time}`).getTime()`; an
      invalid date gives 0, which is what `|| 0` makes of its `NaN`. */
  type Stamp = (string, string) -> int

  /** A new session built from the form or import data: the data's fields, a
      fresh id and the parsed timestamp. The TypeScript store also fills the
      defaults `kwhCharged || kwh || 0` and `chargerTypeId || 'unknown'`
      (`totalCost || 0` and `pricePerKwh || 0` leave a number unchanged). */
  function NewCharge(fillDefaults: bool, data: Charge, id: string, stamp: Stamp): (c: Charge)
    ensures c.id == id && c.timestamp == stamp(data.date, data.time)
    ensures c.date == data.date && c.time == data.time && c.totalCost == data.totalCost
    ensures fillDefaults ==> (c.chargerTypeId != ""
      && (data.kwhCharged != 0.0 ==> c.kwhCharged == data.kwhCharged)
      && (data.kwhCharged == 0.0 ==> c.kwhCharged == data.kwh))
    ensures !fillDefaults ==> c == data.(id := id, timestamp := stamp(data.date, data.time))
  {
    var c := data.(id := id, timestamp := stamp(data.date, data.time));
    if fillDefaults then
      c.(kwhCharged := if data.kwhCharged != 0.0 then data.kwhCharged else data.kwh,
         chargerTypeId := if data.chargerTypeId != "" then data.chargerTypeId else "unknown")
    else c
  }

  /** `chargesArray.map(...)` with one fresh id per element. */
  function NewCharges(fillDefaults: bool, items: seq<Charge>, ids: seq<string>, stamp: Stamp): (r: seq<Charge>)
    requires |ids| == |items|
    ensures |r| == |items|
    ensures forall k :: 0 <= k < |r| ==> r[k] == NewCharge(fillDefaults, items[k], ids[k], stamp)
  {
    if items == [] then []
    else [NewCharge(fillDefaults, items[0], ids[0], stamp)] + NewCharges(fillDefaults, items[1..], ids[1..], stamp)
  }

  /** True when some session of `cs` has timestamp `ts` (the `existingTimestamps` set). */
  predicate HasStamp(cs: seq<Charge>, ts: int) {
    exists k :: 0 <= k < |cs| && cs[k].timestamp == ts
  }

  /** `newCharges.filter(c => !existingTimestamps.has(c.timestamp))`. */
  function UniqueNew(prev: seq<Charge>, news: seq<Charge>): (r: seq<Charge>)
    ensures |r| <= |news|
  {
    Filter(news, (c: Charge) => !HasStamp(prev, c.timestamp))
  }

  /** The store after `addCharge`: the new session prepended, then re-sorted. */
  function Added(prev: seq<Charge>, c: Charge): seq<Charge> {
    Sorted([c] + prev)
  }

  /** The store after `addMultipleCharges` with a non-empty array. */
  function Imported(prev: seq<Charge>, news: seq<Charge>): seq<Charge> {
    Sorted(prev + UniqueNew(prev, news))
  }

  /** `addCharge` grows the store by exactly the new session and keeps it newest first. */
  lemma AddedSpec(prev: seq<Charge>, c: Charge)
    ensures NewestFirstOrder(Added(prev, c))
    ensures |Added(prev, c)| == |prev| + 1
    ensures multiset(Added(prev, c)) == multiset(prev) + multiset{c}
  {
    assert multiset([c] + prev) == multiset{c} + multiset(prev);
  }

  /** `addMultipleCharges` keeps every stored session, adds a new session iff
      its timestamp was not stored before, and leaves the store newest first. */
  lemma ImportedSpec(prev: seq<Charge>, news: seq<Charge>)
    ensures NewestFirstOrder(Imported(prev, news))
    ensures multiset(prev) <= multiset(Imported(prev, news))
    ensures forall c :: c in Imported(prev, news) <==>
      c in prev || (c in news && !HasStamp(prev, c.timestamp))
    ensures |Imported(prev, news)| <= |prev| + |news|
  {
    FilterMembers(news, (c: Charge) => !HasStamp(prev, c.timestamp));
    var r := Imported(prev, news);
    assert multiset(r) == multiset(prev) + multiset(UniqueNew(prev, news));
    forall c ensures c in r <==> c in prev || (c in news && !HasStamp(prev, c.timestamp)) {
      assert c in r <==> c in multiset(r);
    }
  }

  /** No new session survives when every timestamp is stored already. */
  lemma {:induction false} UniqueNewNone(prev: seq<Charge>, news: seq<Charge>)
    requires forall k :: 0 <= k < |news| ==> HasStamp(prev, news[k].timestamp)
    ensures UniqueNew(prev, news) == []
  {
    if news != [] {
      assert HasStamp(prev, news[0].timestamp);
      UniqueNewNone(prev, news[1..]);
    }
  }

  /** Importing sessions whose timestamps are all stored already changes nothing
      but the order: the store keeps the same sessions. */
  lemma ImportDuplicatesOnly(prev: seq<Charge>, news: seq<Charge>)
    requires forall k :: 0 <= k < |news| ==> HasStamp(prev, news[k].timestamp)
    ensures multiset(Imported(prev, news)) == multiset(prev)
  {
    UniqueNewNone(prev, news);
    assert prev + UniqueNew(prev, news) == prev;
  }

  /** Which fields a `Partial<Charge>` update carries. */
  datatype Field = IdF | DateF | TimeF | OdometerF | KwhChargedF | KwhF | TotalCostF | PricePerKwhF
    | ChargerTypeIdF | FinalPercentageF | InitialPercentageF | KindF | LitersChargedF
    | PricePerLiterF | SpeedKwF | TimestampF

  /** A partial update: the values in `fields` for the keys in `present`. */
  datatype Patch = Patch(present: set<Field>, fields: Charge)

  /** `{ ...charge, ...updates }`. */
  function Spread(c: Charge, p: Patch): (r: Charge) {
    var u := p.fields;
    Charge(
      if IdF in p.present then u.id else c.id,
      if DateF in p.present then u.date else c.date,
      if TimeF in p.present then u.time else c.time,
      if OdometerF in p.present then u.odometer else c.odometer,
      if KwhChargedF in p.present then u.kwhCharged else c.kwhCharged,
      if KwhF in p.present then u.kwh else c.kwh,
      if TotalCostF in p.present then u.totalCost else c.totalCost,
      if PricePerKwhF in p.present then u.pricePerKwh else c.pricePerKwh,
      if ChargerTypeIdF in p.present then u.chargerTypeId else c.chargerTypeId,
      if FinalPercentageF in p.present then u.finalPercentage else c.finalPercentage,
      if InitialPercentageF in p.present then u.initialPercentage else c.initialPercentage,
      if KindF in p.present then u.kind else c.kind,
      if LitersChargedF in p.present then u.litersCharged else c.litersCharged,
      if PricePerLiterF in p.present then u.pricePerLiter else c.pricePerLiter,
      if SpeedKwF in p.present then u.speedKw else c.speedKw,
      if TimestampF in p.present then u.timestamp else c.timestamp)
  }

  /** `updates.date || updates.time`: the update carries a non-empty date or time. */
  predicate MovesInTime(p: Patch) {
    (DateF in p.present && p.fields.date != "") || (TimeF in p.present && p.fields.time != "")
  }

  /** The session `c` after the update: the spread, with the timestamp re-parsed
      from `updates.date || charge.date` and `updates.time || charge.time` when
      the update moves the session in time. */
  function Patched(c: Charge, p: Patch, stamp: Stamp): (r: Charge)
    ensures MovesInTime(p) ==> r.timestamp == stamp(
      if DateF in p.present && p.fields.date != "" then p.fields.date else c.date,
      if TimeF in p.present && p.fields.time != "" then p.fields.time else c.time)
    ensures !MovesInTime(p) ==> r == Spread(c, p)
    ensures r.(timestamp := 0) == Spread(c, p).(timestamp := 0)
  {
    var s := Spread(c, p);
    if MovesInTime(p) then
      var date := if DateF in p.present && p.fields.date != "" then p.fields.date else c.date;
      var time := if TimeF in p.present && p.fields.time != "" then p.fields.time else c.time;
      s.(timestamp := stamp(date, time))
    else s
  }

  /** `prev.map(charge => charge.id !== id ? charge : patched)`. */
  function PatchById(prev: seq<Charge>, id: string, p: Patch, stamp: Stamp): (r: seq<Charge>)
    ensures |r| == |prev|
  {
    if prev == [] then []
    else [if prev[0].id == id then Patched(prev[0], p, stamp) else prev[0]] + PatchById(prev[1..], id, p, stamp)
  }

  lemma {:induction false} PatchByIdAt(prev: seq<Charge>, id: string, p: Patch, stamp: Stamp)
    ensures forall k :: 0 <= k < |prev| ==>
      PatchById(prev, id, p, stamp)[k] == if prev[k].id == id then Patched(prev[k], p, stamp) else prev[k]
  {
    if prev != [] {
      PatchByIdAt(prev[1..], id, p, stamp);
    }
  }

  /** The store after `updateCharge(id, updates)`. */
  function Updated(prev: seq<Charge>, id: string, p: Patch, stamp: Stamp): seq<Charge> {
    Sorted(PatchById(prev, id, p, stamp))
  }

  /** `updateCharge` keeps the size and the order, keeps every session with another
      id, and every other session it holds is the patch of one with that id. */
  lemma UpdatedSpec(prev: seq<Charge>, id: string, p: Patch, stamp: Stamp)
    ensures NewestFirstOrder(Updated(prev, id, p, stamp))
    ensures |Updated(prev, id, p, stamp)| == |prev|
    ensures forall c :: c in prev && c.id != id ==> c in Updated(prev, id, p, stamp)
    ensures forall c :: c in Updated(prev, id, p, stamp) ==>
      (c in prev && c.id != id) || exists o :: o in prev && o.id == id && c == Patched(o, p, stamp)
  {
    var m := PatchById(prev, id, p, stamp);
    var r := Updated(prev, id, p, stamp);
    PatchByIdAt(prev, id, p, stamp);
    forall c | c in prev && c.id != id ensures c in r {
      var k :| 0 <= k < |prev| && prev[k] == c;
      assert m[k] == c;
      assert c in multiset(m);
    }
    forall c | c in r
      ensures (c in prev && c.id != id) || exists o :: o in prev && o.id == id && c == Patched(o, p, stamp)
    {
      assert c in multiset(r);
      assert c in m;
      var k :| 0 <= k < |m| && m[k] == c;
      assert prev[k] in prev;
    }
  }

  /** An update naming no stored id changes nothing but the order. */
  lemma UpdateUnknownId(prev: seq<Charge>, id: string, p: Patch, stamp: Stamp)
    requires forall k :: 0 <= k < |prev| ==> prev[k].id != id
    ensures multiset(Updated(prev, id, p, stamp)) == multiset(prev)
  {
    PatchByIdAt(prev, id, p, stamp);
    assert PatchById(prev, id, p, stamp) == prev;
  }

  /** `prev.filter(charge => charge.id !== id)`. */
  function Deleted(prev: seq<Charge>, id: string): (r: seq<Charge>)
    ensures |r| <= |prev|
  {
    Filter(prev, (c: Charge) => c.id != id)
  }

  /** `deleteCharge` removes exactly the sessions with that id, keeps the others
      with their multiplicity, and keeps a newest-first store newest first. */
  lemma DeletedSpec(prev: seq<Charge>, id: string)
    ensures forall c :: c in Deleted(prev, id) <==> c in prev && c.id != id
    ensures forall c: Charge :: c.id != id ==> multiset(Deleted(prev, id))[c] == multiset(prev)[c]
    ensures NewestFirstOrder(prev) ==> NewestFirstOrder(Deleted(prev, id))
  {
    FilterMembers(prev, (c: Charge) => c.id != id);
    if NewestFirstOrder(prev) {
      assert SortedBy(prev, NewestFirst());
      FilterSorted(prev, (c: Charge) => c.id != id, NewestFirst());
    }
  }

  /** `charges.find(charge => charge.id === id)`: the first charge with the id. */
  function ChargeById(cs: seq<Charge>, id: string): (r: Option<Charge>)
    ensures r.Some? ==> r.value in cs && r.value.id == id
    ensures r.None? <==> forall k :: 0 <= k < |cs| ==> cs[k].id != id
    ensures forall k ::
      (0 <= k < |cs| && cs[k].id == id && forall j :: 0 <= j < k ==> cs[j].id != id)
      ==> r == Some(cs[k])
  {
    KeyedMap.FirstWithKey(cs, (c: Charge) => c.id, id)
  }

  /** `(c, f) => sum + f(c)` folded over `cs`. */
  function SumOf(cs: seq<Charge>, f: Charge -> real): real {
    if cs == [] then 0.0 else f(cs[0]) + SumOf(cs[1..], f)
  }

  /** Sessions whose type is neither unset, 'electric' nor 'fuel'. */
  function OtherCharges(cs: seq<Charge>): (r: seq<Charge>)
    ensures forall c :: c in r <==> c in cs && !IsElectric(c) && !IsFuel(c)
  {
    if cs == [] then []
    else (if !IsElectric(cs[0]) && !IsFuel(cs[0]) then [cs[0]] else []) + OtherCharges(cs[1..])
  }

  datatype ChargeSummary = ChargeSummary(
    chargeCount: nat, electricCount: nat, fuelCount: nat,
    totalKwh: real, totalLiters: real, totalCost: real,
    electricCost: real, fuelCost: real,
    avgPricePerKwh: real, avgPricePerLiter: real)

  function KwhOf(): Charge -> real { (c: Charge) => c.kwhCharged }
  function LitersOf(): Charge -> real { (c: Charge) => c.litersCharged }
  function CostOf(): Charge -> real { (c: Charge) => c.totalCost }
  function PricePerKwhOf(): Charge -> real { (c: Charge) => c.pricePerKwh }
  function PricePerLiterOf(): Charge -> real { (c: Charge) => c.pricePerLiter }

  /** `x * n`. */
  function Times(x: real, n: nat): real { x * n as real }

  /** `n > 0 ? sum / n : 0`. */
  function Mean(sum: real, n: nat): (r: real)
    ensures n > 0 ==> Times(r, n) == sum
    ensures n == 0 ==> r == 0.0
  {
    if n > 0 then sum / n as real else 0.0
  }

  /** The `summary` memo: none for an empty store. */
  function SummaryOf(cs: seq<Charge>): (r: Option<ChargeSummary>)
    ensures r.None? <==> cs == []
    ensures r.Some? ==> r.value.chargeCount == |cs|
  {
    if cs == [] then None
    else
      var e := ElectricCharges(cs);
      var f := FuelCharges(cs);
      var eCost := SumOf(e, CostOf());
      var fCost := SumOf(f, CostOf());
      Some(ChargeSummary(|cs|, |e|, |f|, SumOf(e, KwhOf()), SumOf(f, LitersOf()), eCost + fCost,
                         eCost, fCost, Mean(SumOf(e, PricePerKwhOf()), |e|), Mean(SumOf(f, PricePerLiterOf()), |f|)))
  }

  lemma SumOfCons(c: Charge, cs: seq<Charge>, g: Charge -> real)
    ensures SumOf([c] + cs, g) == g(c) + SumOf(cs, g)
  {
    assert ([c] + cs)[1..] == cs;
  }

  /** Electric, fuel and other sessions partition the store, in count and in any sum. */
  lemma {:induction false} KindPartition(cs: seq<Charge>, g: Charge -> real)
    ensures |ElectricCharges(cs)| + |FuelCharges(cs)| + |OtherCharges(cs)| == |cs|
    ensures SumOf(ElectricCharges(cs), g) + SumOf(FuelCharges(cs), g) + SumOf(OtherCharges(cs), g) == SumOf(cs, g)
  {
    if cs != [] {
      KindPartition(cs[1..], g);
      var c, rest := cs[0], cs[1..];
      if IsElectric(c) {
        assert ElectricCharges(cs) == [c] + ElectricCharges(rest);
        assert FuelCharges(cs) == FuelCharges(rest);
        assert OtherCharges(cs) == OtherCharges(rest);
        SumOfCons(c, ElectricCharges(rest), g);
      } else if IsFuel(c) {
        assert ElectricCharges(cs) == ElectricCharges(rest);
        assert FuelCharges(cs) == [c] + FuelCharges(rest);
        assert OtherCharges(cs) == OtherCharges(rest);
        SumOfCons(c, FuelCharges(rest), g);
      } else {
        assert ElectricCharges(cs) == ElectricCharges(rest);
        assert FuelCharges(cs) == FuelCharges(rest);
        assert OtherCharges(cs) == [c] + OtherCharges(rest);
        SumOfCons(c, OtherCharges(rest), g);
      }
    }
  }

  /** The summary's counts and costs: a session of another type is in neither
      count, and the total cost is the cost of all sessions minus that of the others. */
  lemma SummaryTotals(cs: seq<Charge>)
    requires cs != []
    ensures var s := SummaryOf(cs).value;
      s.electricCount + s.fuelCount + |OtherCharges(cs)| == s.chargeCount
      && s.totalCost + SumOf(OtherCharges(cs), CostOf()) == SumOf(cs, CostOf())
  {
    KindPartition(cs, CostOf());
  }

  /** The average unit prices are the per-session means: times the count they
      give back the sums of `pricePerKwh` over electric and `pricePerLiter` over
      fuel sessions, and they are 0 when there is no session of that kind. */
  lemma SummaryMeans(cs: seq<Charge>)
    requires cs != []
    ensures var s := SummaryOf(cs).value;
      (s.electricCount > 0 ==> Times(s.avgPricePerKwh, s.electricCount) == SumOf(ElectricCharges(cs), PricePerKwhOf()))
      && (s.electricCount == 0 ==> s.avgPricePerKwh == 0.0)
      && (s.fuelCount > 0 ==> Times(s.avgPricePerLiter, s.fuelCount) == SumOf(FuelCharges(cs), PricePerLiterOf()))
      && (s.fuelCount == 0 ==> s.avgPricePerLiter == 0.0)
  {
    var s := SummaryOf(cs).value;
    var e, f := ElectricCharges(cs), FuelCharges(cs);
    assert s.avgPricePerKwh == Mean(SumOf(e, PricePerKwhOf()), |e|) && s.electricCount == |e|;
    assert s.avgPricePerLiter == Mean(SumOf(f, PricePerLiterOf()), |f|) && s.fuelCount == |f|;
  }

  /** The counts cover the store iff every session is electric or fuel. */
  lemma SummaryCountsCover(cs: seq<Charge>)
    requires cs != []
    ensures var s := SummaryOf(cs).value;
      s.electricCount + s.fuelCount == s.chargeCount <==> forall c :: c in cs ==> IsElectric(c) || IsFuel(c)
  {
    KindPartition(cs, CostOf());
    if OtherCharges(cs) != [] {
      assert OtherCharges(cs)[0] in OtherCharges(cs);
    }
  }

  /** One field of an exported CSV line: text, or a number written by `join`. */
  datatype CsvField = Text(s: string) | Num(x: real)

  /** The header line of the export, in the import format's column order. */
  const ExportHeader: seq<CsvField> := [Text("Fecha/Hora"), Text("Km Totales"), Text("kWh Facturados"),
    Text("Precio Total"), Text("Duración (min)"), Text("Tipo Cargador"), Text("Precio/kWh"), Text("% Final")]

  /** One exported line: date-time, odometer, energy (litres for a fuel session),
      cost, a duration of 0, charger type (with a per-type fallback), unit price
      and final percentage. */
  function ExportRow(c: Charge): (r: seq<CsvField>)
    ensures |r| == |ExportHeader| && r[4] == Num(0.0)
    ensures r[0] == Text(c.date + " " + c.time)
    ensures r[2] == Num(if IsFuel(c) then c.litersCharged else c.kwhCharged)
    ensures r[5].Text? && r[5].s != ""
  {
    [Text(c.date + " " + c.time),
     Num(c.odometer),
     Num(if IsFuel(c) then c.litersCharged else c.kwhCharged),
     Num(c.totalCost),
     Num(0.0),
     Text(if c.chargerTypeId != "" then c.chargerTypeId else if IsFuel(c) then "Gasolina" else "Desconocido"),
     Num(if IsFuel(c) then c.pricePerLiter else c.pricePerKwh),
     Num(OrZero(c.finalPercentage))]
  }

  /** `charges.map(...)`. */
  function ExportRows(cs: seq<Charge>): (r: seq<seq<CsvField>>)
    ensures |r| == |cs| && forall k :: 0 <= k < |cs| ==> r[k] == ExportRow(cs[k])
  {
    if cs == [] then [] else [ExportRow(cs[0])] + ExportRows(cs[1..])
  }

  /** `exportCharges`: nothing for an empty store (it returns false), otherwise
      the header and one line per session. The file download is left out. */
  function Export(cs: seq<Charge>): (r: Option<seq<seq<CsvField>>>)
    ensures r.None? <==> cs == []
    ensures r.Some? ==> (|r.value| == |cs| + 1 && r.value[0] == ExportHeader
      && forall k :: 0 <= k < |r.value| ==> |r.value[k]| == 8)
  {
    if cs == [] then None else Some([ExportHeader] + ExportRows(cs))
  }

  /** The hook's state: the sessions of the active car, newest first. */
  class ChargesData {
    var charges: seq<Charge>
    /** The TypeScript twin fills the add defaults; the JavaScript twin does not. */
    const fillDefaults: bool

    ghost predicate Valid()
      reads this
    {
      NewestFirstOrder(charges)
    }

    constructor(fillDefaults: bool)
      ensures this.fillDefaults == fillDefaults && charges == [] && Valid()
    {
      this.fillDefaults := fillDefaults;
      charges := [];
    }

    /** The load effect: no active car, no saved entry, a parse error or a
        non-array all give `None` and an empty store; an array is sorted. */
    method Load(saved: Option<seq<Charge>>)
      modifies this
      ensures charges == (if saved.Some? then Sorted(saved.value) else [])
      ensures Valid()
    {
      if saved.Some? {
        charges := Sorted(saved.value);
      } else {
        charges := [];
      }
    }

    method AddCharge(data: Charge, id: string, stamp: Stamp) returns (c: Charge)
      modifies this
      ensures c == NewCharge(fillDefaults, data, id, stamp)
      ensures charges == Added(old(charges), c)
      ensures Valid() && |charges| == |old(charges)| + 1
    {
      c := NewCharge(fillDefaults, data, id, stamp);
      charges := Sorted([c] + charges);
    }

    /** `items` is `None` when the argument is not an array. */
    method AddMultipleCharges(items: Option<seq<Charge>>, ids: seq<string>, stamp: Stamp) returns (n: nat)
      requires items.Some? ==> |ids| == |items.value|
      modifies this
      ensures items.None? || items.value == [] ==> n == 0 && charges == old(charges)
      ensures items.Some? && items.value != [] ==> (n == |items.value|
        && charges == Imported(old(charges), NewCharges(fillDefaults, items.value, ids, stamp)))
      ensures old(Valid()) ==> Valid()
    {
      if items.None? || items.value == [] {
        return 0;
      }
      var news := NewCharges(fillDefaults, items.value, ids, stamp);
      charges := Sorted(charges + UniqueNew(charges, news));
      n := |news|;
    }

    method UpdateCharge(id: string, updates: Patch, stamp: Stamp)
      modifies this
      ensures charges == Updated(old(charges), id, updates, stamp)
      ensures Valid()
    {
      charges := Sorted(PatchById(charges, id, updates, stamp));
    }

    method DeleteCharge(id: string)
      modifies this
      ensures charges == Deleted(old(charges), id)
      ensures old(Valid()) ==> Valid()
    {
      DeletedSpec(charges, id);
      charges := Deleted(charges, id);
    }

    function GetChargeById(id: string): (r: Option<Charge>)
      reads this
      ensures r.Some? ==> r.value in charges && r.value.id == id
      ensures r.None? <==> forall k :: 0 <= k < |charges| ==> charges[k].id != id
      ensures forall k ::
        (0 <= k < |charges| && charges[k].id == id && forall j :: 0 <= j < k ==> charges[j].id != id)
        ==> r == Some(charges[k])
    {
      ChargeById(charges, id)
    }

    method ClearCharges()
      modifies this
      ensures charges == [] && Valid()
    {
      charges := [];
    }

    /** `newCharges` is `None` when the argument is not an array: then nothing changes. */
    method ReplaceCharges(newCharges: Option<seq<Charge>>)
      modifies this
      ensures newCharges.None? ==> charges == old(charges)
      ensures newCharges.Some? ==> charges == Sorted(newCharges.value)
      ensures old(Valid()) ==> Valid()
    {
      if newCharges.Some? {
        charges := Sorted(newCharges.value);
      }
    }

    function Summary(): (r: Option<ChargeSummary>)
      reads this
      ensures r.None? <==> charges == []
    {
      SummaryOf(charges)
    }
  }
}
