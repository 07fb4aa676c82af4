/** The full list of charging sessions: its month or date-range filter, its
    sort, and the two display helpers, the charger type's name and the
    `DD/MM/YYYY` date. */
module ChargeList {
  import opened Wrappers
  import opened Records
  import opened JsText
  import opened StableSort
  import opened Seqs
  import AppData

  // ---------------------------------------------------------------- filter

  /** A session the filter keeps: under 'month' with a month chosen, the date
      starts with it; under 'range', the date is not before a given start and
      not after a given end, compared as texts; otherwise every session. */
  predicate KeepsCharge(ft: AppData.FilterType, month: string, dateFrom: string, dateTo: string, c: Charge) {
    if ft.ByMonth? && month != "" then StartsWith(c.date, month)
    else if ft.ByRange? then
      (dateFrom != "" ==> StrLe(dateFrom, c.date)) && (dateTo != "" ==> StrLe(c.date, dateTo))
    else true
  }

  function KeepTest(ft: AppData.FilterType, month: string, dateFrom: string, dateTo: string): Charge -> bool {
    (c: Charge) => KeepsCharge(ft, month, dateFrom, dateTo, c)
  }

  function InMonth(month: string): Charge -> bool { (c: Charge) => StartsWith(c.date, month) }

  function FromDate(dateFrom: string): Charge -> bool { (c: Charge) => StrLe(dateFrom, c.date) }

  function ToDate(dateTo: string): Charge -> bool { (c: Charge) => StrLe(c.date, dateTo) }

  /** The filters of the memo, one after the other. */
  function FilteredCharges(charges: seq<Charge>, ft: AppData.FilterType, month: string,
                           dateFrom: string, dateTo: string): seq<Charge>
  {
    if ft.ByMonth? && month != "" then Filter(charges, InMonth(month))
    else if ft.ByRange? then
      var afterFrom := if dateFrom != "" then Filter(charges, FromDate(dateFrom)) else charges;
      if dateTo != "" then Filter(afterFrom, ToDate(dateTo)) else afterFrom
    else charges
  }

  /** The successive filters are one filter by `KeepsCharge`. */
  lemma FilteredIsFilter(charges: seq<Charge>, ft: AppData.FilterType, month: string,
                         dateFrom: string, dateTo: string)
    ensures FilteredCharges(charges, ft, month, dateFrom, dateTo) == Filter(charges, KeepTest(ft, month, dateFrom, dateTo))
  {
    var keep := KeepTest(ft, month, dateFrom, dateTo);
    if ft.ByMonth? && month != "" {
      FilterSame(charges, InMonth(month), keep);
    } else if ft.ByRange? {
      if dateFrom != "" && dateTo != "" {
        FilterFilter(charges, FromDate(dateFrom), ToDate(dateTo));
        FilterSame(charges, Both(FromDate(dateFrom), ToDate(dateTo)), keep);
      } else if dateFrom != "" {
        FilterSame(charges, FromDate(dateFrom), keep);
      } else if dateTo != "" {
        FilterSame(charges, ToDate(dateTo), keep);
      } else {
        FilterAll(charges, keep);
      }
    } else {
      FilterAll(charges, keep);
    }
  }

  // ---------------------------------------------------------------- sorting

  /** `sortBy`: 'date', 'kwh', 'cost', or any other value, under which every
      pair compares as equal. */
  datatype SortKey = ByDate | ByKwh | ByCost | Unsorted

  /** `sortOrder`: 'asc' negates every comparison, anything else keeps it. */
  datatype SortOrder = Asc | Desc

  function Sign(x: real): int { if x < 0.0 then -1 else if x > 0.0 then 1 else 0 }

  /** The comparator before the order is applied: the later date first and on
      the same date the later time (`localeCompare`, whose `0` lets `||` fall
      through), the larger energy, the larger cost. */
  function Comparison(key: SortKey, a: Charge, b: Charge): int {
    match key
    case ByDate =>
      var d := StrCompare(b.date, a.date);
      if d != 0 then d else StrCompare(b.time, a.time)
    case ByKwh => Sign(b.kwhCharged - a.kwhCharged)
    case ByCost => Sign(b.totalCost - a.totalCost)
    case Unsorted => 0
  }

  function Directed(order: SortOrder, c: int): int { if order.Asc? then -c else c }

  /** "a may stay before b" under the comparator and the order. */
  function ChargeLe(key: SortKey, order: SortOrder): (Charge, Charge) -> bool {
    (a: Charge, b: Charge) => Directed(order, Comparison(key, a, b)) <= 0
  }

  /** What the default order puts first: the later date, and on the same
      date the later or equal time; the larger or equal energy; the larger or
      equal cost. */
  predicate Precedes(key: SortKey, a: Charge, b: Charge) {
    match key
    case ByDate => StrLt(b.date, a.date) || (a.date == b.date && StrLe(b.time, a.time))
    case ByKwh => b.kwhCharged <= a.kwhCharged
    case ByCost => b.totalCost <= a.totalCost
    case Unsorted => true
  }

  /** Swapping the two sessions negates the comparison. */
  lemma ComparisonAntisymmetric(key: SortKey, a: Charge, b: Charge)
    ensures Comparison(key, a, b) == -Comparison(key, b, a)
  {
  }

  /** The comparison is at most 0 exactly when the first session precedes. */
  lemma ComparisonMeaning(key: SortKey, a: Charge, b: Charge)
    ensures Comparison(key, a, b) <= 0 <==> Precedes(key, a, b)
  {
  }

  /** The default order keeps `Precedes`; 'asc' reverses it. */
  lemma ChargeLeMeaning(key: SortKey, order: SortOrder, a: Charge, b: Charge)
    ensures order.Desc? ==> (ChargeLe(key, order)(a, b) <==> Precedes(key, a, b))
    ensures order.Asc? ==> (ChargeLe(key, order)(a, b) <==> Precedes(key, b, a))
  {
    ComparisonMeaning(key, a, b);
    ComparisonMeaning(key, b, a);
    ComparisonAntisymmetric(key, a, b);
  }

  /** Every key orders all sessions and chains. */
  lemma PrecedesPreorder(key: SortKey)
    ensures forall a, b :: Precedes(key, a, b) || Precedes(key, b, a)
    ensures forall a, b, c :: Precedes(key, a, b) && Precedes(key, b, c) ==> Precedes(key, a, c)
  {
    StrLeTotalOrder();
    forall a: Charge, b: Charge ensures Precedes(key, a, b) || Precedes(key, b, a) {
      StrLtTotal(a.date, b.date);
    }
    forall a: Charge, b: Charge, c: Charge | Precedes(key, a, b) && Precedes(key, b, c)
      ensures Precedes(key, a, c)
    {
      if key.ByDate? {
        if StrLt(b.date, a.date) && StrLt(c.date, b.date) {
          StrLtTransitive(c.date, b.date, a.date);
        }
      }
    }
  }

  lemma ChargeLePreorder(key: SortKey, order: SortOrder)
    ensures TotalPreorder(ChargeLe(key, order))
  {
    PrecedesPreorder(key);
    forall a, b ensures ChargeLe(key, order)(a, b) <==> (if order.Desc? then Precedes(key, a, b) else Precedes(key, b, a)) {
      ChargeLeMeaning(key, order, a, b);
    }
  }

  /** `filtered.sort(comparator)`: ordered by the comparator and a
      permutation of the list. */
  function SortCharges(cs: seq<Charge>, key: SortKey, order: SortOrder): (r: seq<Charge>)
    ensures |r| == |cs| && multiset(r) == multiset(cs)
    ensures SortedBy(r, ChargeLe(key, order))
  {
    ChargeLePreorder(key, order);
    SortBySorted(cs, ChargeLe(key, order));
    SortBy(cs, ChargeLe(key, order))
  }

  /** In the sorted list every earlier session precedes every later one under
      the key, in the default order, and follows it under 'asc'. */
  lemma SortChargesOrder(cs: seq<Charge>, key: SortKey, order: SortOrder)
    ensures var r := SortCharges(cs, key, order);
      forall i, j :: 0 <= i < j < |r| ==>
        if order.Desc? then Precedes(key, r[i], r[j]) else Precedes(key, r[j], r[i])
  {
    var r := SortCharges(cs, key, order);
    forall i, j | 0 <= i < j < |r|
      ensures if order.Desc? then Precedes(key, r[i], r[j]) else Precedes(key, r[j], r[i])
    {
      ChargeLeMeaning(key, order, r[i], r[j]);
    }
  }

  /** The `finalCharges` memo: the filter, then the sort. */
  function AllCharges(charges: seq<Charge>, ft: AppData.FilterType, month: string, dateFrom: string,
                      dateTo: string, key: SortKey, order: SortOrder): seq<Charge>
  {
    SortCharges(FilteredCharges(charges, ft, month, dateFrom, dateTo), key, order)
  }

  /** The list holds exactly the sessions the filter keeps, as often as they
      occur, ordered by the key; without a filter it is a reordering of all
      sessions. */
  lemma AllChargesSpec(charges: seq<Charge>, ft: AppData.FilterType, month: string, dateFrom: string,
                       dateTo: string, key: SortKey, order: SortOrder)
    ensures var r := AllCharges(charges, ft, month, dateFrom, dateTo, key, order);
      (forall c :: c in r <==> c in charges && KeepsCharge(ft, month, dateFrom, dateTo, c))
      && (forall c :: KeepsCharge(ft, month, dateFrom, dateTo, c) ==> multiset(r)[c] == multiset(charges)[c])
      && ((ft.AllTrips? || (ft.ByMonth? && month == "")) ==> multiset(r) == multiset(charges))
      && (forall i, j :: 0 <= i < j < |r| ==>
            if order.Desc? then Precedes(key, r[i], r[j]) else Precedes(key, r[j], r[i]))
  {
    var keep := KeepTest(ft, month, dateFrom, dateTo);
    var f := FilteredCharges(charges, ft, month, dateFrom, dateTo);
    var r := AllCharges(charges, ft, month, dateFrom, dateTo, key, order);
    FilteredIsFilter(charges, ft, month, dateFrom, dateTo);
    FilterMembers(charges, keep);
    SortChargesOrder(f, key, order);
    forall c ensures c in r <==> c in f {
      assert c in r <==> c in multiset(r);
    }
  }

  // ------------------------------------------------------------ charger name

  /** The first type with the id, when there is one. */
  lemma {:induction false} FindTypeFirst(types: seq<ChargerType>, id: string, k: nat)
    requires k < |types| && types[k].id == id
    requires forall j :: 0 <= j < k ==> types[j].id != id
    ensures FindType(types, id) == Some(types[k])
  {
    if k > 0 {
      FindTypeFirst(types[1..], id, k - 1);
    }
  }

  /** `chargerType?.name || chargerTypeId || '-'` for the first type with the id. */
  function ChargerTypeName(types: seq<ChargerType>, id: string): (r: string)
    ensures r != ""
  {
    match FindType(types, id)
    case Some(t) => if t.name != "" then t.name else if id != "" then id else "-"
    case None => if id != "" then id else "-"
  }

  /** The name shown is that of the first type with the id, when it has one;
      otherwise the id itself, and `-` for no id. */
  lemma ChargerTypeNameSpec(types: seq<ChargerType>, id: string, k: nat)
    requires k < |types| && types[k].id == id
    requires forall j :: 0 <= j < k ==> types[j].id != id
    ensures types[k].name != "" ==> ChargerTypeName(types, id) == types[k].name
    ensures types[k].name == "" && id != "" ==> ChargerTypeName(types, id) == id
    ensures types[k].name == "" && id == "" ==> ChargerTypeName(types, id) == "-"
  {
    FindTypeFirst(types, id, k);
  }

  /** An id no type has is shown as it is, and a missing one as `-`. */
  lemma UnknownChargerType(types: seq<ChargerType>, id: string)
    requires forall j :: 0 <= j < |types| ==> types[j].id != id
    ensures id != "" ==> ChargerTypeName(types, id) == id
    ensures id == "" ==> ChargerTypeName(types, id) == "-"
  {
  }

  // ------------------------------------------------------------ date display

  /** `undefined` in a template literal. */
  const Undefined: string := "undefined"

  /** `formatDate`: '' for no date; otherwise `dateStr.split('-')` read as
      year, month and day and shown as `${day}/${month}/${year}`, a missing
      piece printing as `undefined`. */
  function FormatDate(dateStr: string): string {
    if dateStr == "" then ""
    else
      var p := Split(dateStr, '-');
      var year := p[0];
      var month := if |p| > 1 then p[1] else Undefined;
      var day := if |p| > 2 then p[2] else Undefined;
      day + "/" + month + "/" + year
  }

  /** A `YYYY-MM-DD` date, or any three hyphen-free pieces joined by hyphens,
      is shown as the three pieces in reverse order joined by slashes. */
  lemma FormatDateOfIso(year: string, month: string, day: string)
    requires '-' !in year && '-' !in month && '-' !in day
    ensures FormatDate(Join([year, month, day], '-')) == Join([day, month, year], '/')
  {
    JoinThree(year, month, day, '-');
    SplitOfJoin([year, month, day], '-');
    JoinThree(day, month, year, '/');
  }

  lemma JoinThree(a: string, b: string, c: string, sep: char)
    ensures Join([a, b, c], sep) == a + [sep] + b + [sep] + c
  {
    assert [a, b, c][1..] == [b, c];
    assert [b, c][1..] == [c];
    assert Join([c], sep) == c;
    assert Join([b, c], sep) == b + [sep] + c;
  }

  /** Splitting the shown date at its slashes gives back day, month and year,
      and joining those in reverse order with hyphens gives back the date. */
  lemma FormatDateRoundTrip(year: string, month: string, day: string)
    requires '-' !in year && '-' !in month && '-' !in day
    requires '/' !in year && '/' !in month && '/' !in day
    ensures Split(FormatDate(Join([year, month, day], '-')), '/') == [day, month, year]
  {
    FormatDateOfIso(year, month, day);
    SplitOfJoin([day, month, year], '/');
  }

  /** A date without hyphens is shown as the year alone, after two
      `undefined` pieces. */
  lemma FormatDateNoHyphen(dateStr: string)
    requires dateStr != "" && '-' !in dateStr
    ensures FormatDate(dateStr) == Undefined + "/" + Undefined + "/" + dateStr
  {
    IndexOfNone(dateStr, '-');
  }
}
