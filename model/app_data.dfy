/** The trip store of the app (`useAppData`, TypeScript and JavaScript twins,
    and the `useDataProcessor` hook): the current trips, the saved trip history,
    the filter the user picked, the trips that filter keeps, the months offered
    for it, and the statistics of the kept trips. */
module AppData {
  import opened Wrappers
  import opened Records
  import opened StableSort
  import opened Seqs
  import opened JsText
  import opened TripMerge
  import TripStats
  import LegacyProcessing

  /** The TypeScript hook (per car, with a derived month) or the JavaScript one. */
  datatype Dialect = TsHook | JsHook

  /** `filterType`: 'month', 'range', or anything else, which keeps every trip. */
  datatype FilterType = AllTrips | ByMonth | ByRange

  /** The TypeScript month of a trip: `t.month || (t.date ? t.date.substring(0, 6) : '')`. */
  function DerivedMonth(t: Trip): (m: string)
    ensures t.month != "" ==> m == t.month
    ensures t.month == "" ==> m == t.date[..if |t.date| < 6 then |t.date| else 6]
  {
    if t.month != "" then t.month else if |t.date| >= 6 then t.date[..6] else t.date
  }

  /** The month test: derived in TypeScript, the strict `t.month === selMonth` in JavaScript. */
  predicate InMonth(d: Dialect, t: Trip, sel: string) {
    if d.TsHook? then DerivedMonth(t) == sel else t.month == sel
  }

  /** `t.date >= limit`, compared as strings. */
  predicate OnOrAfter(t: Trip, limit: string) { StrLe(limit, t.date) }

  /** `t.date <= limit`, compared as strings. */
  predicate OnOrBefore(t: Trip, limit: string) { StrLe(t.date, limit) }

  /** `s.replace(/-/g, '')`: a YYYY-MM-DD picker value as a YYYYMMDD trip date. */
  function Compact(s: string): string { RemoveChar(s, '-') }

  /** Whether the range filter keeps `t`: each bound is applied only when it is set. */
  predicate InRange(t: Trip, dateFrom: string, dateTo: string) {
    (dateFrom != "" ==> OnOrAfter(t, Compact(dateFrom)))
    && (dateTo != "" ==> OnOrBefore(t, Compact(dateTo)))
  }

  function MonthTest(d: Dialect, sel: string): Trip -> bool { (t: Trip) => InMonth(d, t, sel) }
  function AfterTest(limit: string): Trip -> bool { (t: Trip) => OnOrAfter(t, limit) }
  function BeforeTest(limit: string): Trip -> bool { (t: Trip) => OnOrBefore(t, limit) }

  /** The `filtered` memo. */
  function Filtered(d: Dialect, raw: seq<Trip>, ft: FilterType, selMonth: string,
                    dateFrom: string, dateTo: string): seq<Trip>
  {
    if raw == [] then []
    else if ft.ByMonth? && selMonth != "" then Filter(raw, MonthTest(d, selMonth))
    else if ft.ByRange? then RangeFiltered(raw, dateFrom, dateTo)
    else raw
  }

  /** The 'range' branch: the lower bound first, then the upper one. */
  function RangeFiltered(raw: seq<Trip>, dateFrom: string, dateTo: string): seq<Trip> {
    var r := if dateFrom != "" then Filter(raw, AfterTest(Compact(dateFrom))) else raw;
    if dateTo != "" then Filter(r, BeforeTest(Compact(dateTo))) else r
  }

  function RangeTest(dateFrom: string, dateTo: string): Trip -> bool {
    (t: Trip) => InRange(t, dateFrom, dateTo)
  }

  /** The two range bounds act as one inclusive filter. */
  lemma RangeIsFilter(raw: seq<Trip>, dateFrom: string, dateTo: string)
    ensures RangeFiltered(raw, dateFrom, dateTo) == Filter(raw, RangeTest(dateFrom, dateTo))
  {
    var after := AfterTest(Compact(dateFrom));
    var before := BeforeTest(Compact(dateTo));
    var keep := RangeTest(dateFrom, dateTo);
    if dateFrom != "" && dateTo != "" {
      FilterFilter(raw, after, before);
      FilterSame(raw, Both(after, before), keep);
    } else if dateFrom != "" {
      FilterSame(raw, after, keep);
    } else if dateTo != "" {
      FilterSame(raw, before, keep);
    } else {
      FilterAll(raw, keep);
    }
  }

  /** Whether the filter keeps `t`. */
  predicate Keeps(d: Dialect, ft: FilterType, selMonth: string, dateFrom: string, dateTo: string, t: Trip) {
    if ft.ByMonth? && selMonth != "" then InMonth(d, t, selMonth)
    else if ft.ByRange? then InRange(t, dateFrom, dateTo)
    else true
  }

  function KeepTest(d: Dialect, ft: FilterType, selMonth: string, dateFrom: string, dateTo: string): Trip -> bool {
    (t: Trip) => Keeps(d, ft, selMonth, dateFrom, dateTo, t)
  }

  /** The memo is one filter by `Keeps`. */
  lemma FilteredIsFilter(d: Dialect, raw: seq<Trip>, ft: FilterType, selMonth: string,
                         dateFrom: string, dateTo: string)
    ensures Filtered(d, raw, ft, selMonth, dateFrom, dateTo) == Filter(raw, KeepTest(d, ft, selMonth, dateFrom, dateTo))
  {
    var keep := KeepTest(d, ft, selMonth, dateFrom, dateTo);
    if raw == [] {
    } else if ft.ByMonth? && selMonth != "" {
      FilterSame(raw, MonthTest(d, selMonth), keep);
    } else if ft.ByRange? {
      RangeIsFilter(raw, dateFrom, dateTo);
      FilterSame(raw, RangeTest(dateFrom, dateTo), keep);
    } else {
      FilterAll(raw, keep);
    }
  }

  /** The filter keeps exactly the trips it should, each as often as it occurs,
      in their original order; 'all' (and 'month' with no month picked) returns
      the trips unchanged. */
  lemma FilteredSpec(d: Dialect, raw: seq<Trip>, ft: FilterType, selMonth: string,
                     dateFrom: string, dateTo: string)
    ensures var r := Filtered(d, raw, ft, selMonth, dateFrom, dateTo);
      (forall t :: t in r <==> t in raw && Keeps(d, ft, selMonth, dateFrom, dateTo, t))
      && (forall t :: Keeps(d, ft, selMonth, dateFrom, dateTo, t) ==> multiset(r)[t] == multiset(raw)[t])
      && multiset(r) <= multiset(raw)
      && ((ft.AllTrips? || (ft.ByMonth? && selMonth == "")) ==> r == raw)
  {
    var keep := KeepTest(d, ft, selMonth, dateFrom, dateTo);
    FilteredIsFilter(d, raw, ft, selMonth, dateFrom, dateTo);
    FilterMembers(raw, keep);
  }

  /** The `months` memo: `[...new Set(trips.map(t => t.month).filter(Boolean))].sort()`. */
  function Months(raw: seq<Trip>): seq<string> {
    SortBy(Distinct(Filter(MonthsOf(raw), NonEmpty())), MonthLe())
  }

  function NonEmpty(): string -> bool { (m: string) => m != "" }

  /** The default `sort()` order on strings. */
  function MonthLe(): (string, string) -> bool { (a: string, b: string) => StrLe(a, b) }

  function MonthsOf(raw: seq<Trip>): (r: seq<string>)
    ensures |r| == |raw| && forall k :: 0 <= k < |raw| ==> r[k] == raw[k].month
  {
    if raw == [] then [] else [raw[0].month] + MonthsOf(raw[1..])
  }

  lemma MonthsOfMembers(raw: seq<Trip>)
    ensures forall m :: m in MonthsOf(raw) <==> exists t :: t in raw && t.month == m
  {
    var ms := MonthsOf(raw);
    forall m ensures m in ms <==> exists t :: t in raw && t.month == m {
      if m in ms {
        var k :| 0 <= k < |raw| && ms[k] == m;
        assert raw[k] in raw;
      }
      if exists t :: t in raw && t.month == m {
        var t :| t in raw && t.month == m;
        var k :| 0 <= k < |raw| && raw[k] == t;
        assert ms[k] == m;
      }
    }
  }

  /** The month list is strictly ascending (sorted, and each month once). */
  lemma MonthsAscending(raw: seq<Trip>)
    ensures var r := Months(raw);
      forall i, j :: 0 <= i < j < |r| ==> StrLt(r[i], r[j])
  {
    var ds := Distinct(Filter(MonthsOf(raw), NonEmpty()));
    var r := Months(raw);
    StrLeTotalOrder();
    SortBySorted(ds, MonthLe());
    PermutationNoRepeats(ds, r);
    forall i, j | 0 <= i < j < |r| ensures StrLt(r[i], r[j]) {
      assert MonthLe()(r[i], r[j]) && r[i] != r[j];
      StrLtTotal(r[i], r[j]);
    }
  }

  /** The month list holds exactly the non-empty months of the trips. */
  lemma MonthsMembers(raw: seq<Trip>)
    ensures forall m :: m in Months(raw) <==> m != "" && exists t :: t in raw && t.month == m
  {
    var ms := MonthsOf(raw);
    var ds := Distinct(Filter(ms, NonEmpty()));
    SortByPermutation(ds, MonthLe());
    FilterMembers(ms, NonEmpty());
    MonthsOfMembers(raw);
    var fs := Filter(ms, NonEmpty());
    forall m ensures m in Months(raw) <==> m != "" && exists t :: t in raw && t.month == m {
      assert m in Months(raw) <==> m in multiset(ds);
      assert m in ds <==> m in fs;
      assert m in fs <==> m in ms && NonEmpty()(m);
    }
  }

  /** The trips as rows of the statistics engine (none of them is `null`). */
  function AsRows(ts: seq<Trip>): (rows: seq<Option<Trip>>)
    ensures |rows| == |ts| && forall k :: 0 <= k < |ts| ==> rows[k] == Some(ts[k])
  {
    if ts == [] then [] else [Some(ts[0])] + AsRows(ts[1..])
  }

  /** The `data` memo of the JavaScript hook and of `useDataProcessor`:
      `filtered.length > 0 ? processData(filtered) : null`. */
  function DataOf(filtered: seq<Trip>, clock: TripStats.LocalClock): Option<LegacyProcessing.LegacyResult> {
    if filtered == [] then None else LegacyProcessing.LegacySpec(AsRows(filtered), clock)
  }

  /** There are statistics iff some kept trip has a positive distance: an empty
      filter gives none, and so does one that keeps only zero-distance trips. */
  lemma DataSpec(filtered: seq<Trip>, clock: TripStats.LocalClock)
    ensures DataOf(filtered, clock).Some? <==> exists t :: t in filtered && LegacyProcessing.Counted(t)
    ensures filtered == [] ==> DataOf(filtered, clock).None?
  {
    var rows := AsRows(filtered);
    var c := LegacyProcessing.CountedTrips(rows);
    if exists t :: t in filtered && LegacyProcessing.Counted(t) {
      var t :| t in filtered && LegacyProcessing.Counted(t);
      var k :| 0 <= k < |filtered| && filtered[k] == t;
      assert rows[k] == Some(t);
      assert t in c;
    }
    if c != [] {
      assert c[0] in c;
      var k :| 0 <= k < |rows| && rows[k] == Some(c[0]);
      assert filtered[k] == c[0];
    }
  }

  /** `useDataProcessor(rawTrips, filterType, selMonth, dateFrom, dateTo)`. */
  function DataProcessor(raw: seq<Trip>, ft: FilterType, selMonth: string, dateFrom: string,
                         dateTo: string, clock: TripStats.LocalClock)
    : (r: (seq<Trip>, Option<LegacyProcessing.LegacyResult>))
    ensures r.0 == Filtered(JsHook, raw, ft, selMonth, dateFrom, dateTo)
    ensures r.1.Some? <==> exists t :: t in r.0 && LegacyProcessing.Counted(t)
  {
    var f := Filtered(JsHook, raw, ft, selMonth, dateFrom, dateTo);
    DataSpec(f, clock);
    (f, DataOf(f, clock))
  }

  /** The history after `saveToHistory`: history and current trips merged by key,
      a current trip replacing a history trip with the same key, sorted by date. */
  function MergedHistory(history: seq<Trip>, current: seq<Trip>): seq<Trip> {
    SortedOverwrite(history, current, DateAsc())
  }

  /** The merged history is sorted by date and holds one trip per key of history
      and current trips together: for each key the last current trip with it, else
      the last history trip. With a repeat-free history no history key is lost, so
      the count `added` reported to the user is never negative. */
  lemma MergedHistorySpec(history: seq<Trip>, current: seq<Trip>)
    ensures var r := MergedHistory(history, current);
      SortedBy(r, DateAsc())
      && DistinctKeys(r)
      && (forall t :: t in r ==> OverwriteWinner(history, current, TripKey(t)) == Some(t))
      && (forall t :: t in history + current ==> OverwriteWinner(history, current, TripKey(t)).value in r)
      && |r| == |TripKeys(history + current)|
      && (DistinctKeys(history) ==> |r| >= |history|)
  {
    DateOrdersTotal();
    SortedOverwriteSpec(history, current, DateAsc());
  }

  /** The merged history has exactly the keys of history and current trips. */
  lemma MergedHistoryKeys(history: seq<Trip>, current: seq<Trip>)
    ensures TripKeys(MergedHistory(history, current)) == TripKeys(history + current)
  {
    var r := MergedHistory(history, current);
    MergedHistorySpec(history, current);
    forall k | k in TripKeys(r) ensures k in TripKeys(history + current) {
      var t :| t in r && TripKey(t) == k;
      var w := OverwriteWinner(history, current, k).value;
      assert w in history + current;
      assert Key()(w) == k;
    }
    forall k | k in TripKeys(history + current) ensures k in TripKeys(r) {
      var t :| t in history + current && TripKey(t) == k;
      assert OverwriteWinner(history, current, k).value in r;
    }
  }

  lemma MergedHistorySize(history: seq<Trip>, current: seq<Trip>)
    ensures |MergedHistory(history, current)| == |TripKeys(history + current)|
  {
    MergedHistorySpec(history, current);
  }

  lemma TripKeysAppend(a: seq<Trip>, b: seq<Trip>)
    ensures TripKeys(a + b) == TripKeys(a) + TripKeys(b)
  {
    forall k ensures k in TripKeys(a + b) <==> k in TripKeys(a) + TripKeys(b) {
      if k in TripKeys(a + b) {
        var t :| t in a + b && TripKey(t) == k;
      }
    }
  }

  /** Saving the same trips again adds nothing: the second save reports
      `added == 0`. */
  lemma SaveTwiceAddsNothing(history: seq<Trip>, current: seq<Trip>)
    ensures var h := MergedHistory(history, current);
      |MergedHistory(h, current)| == |h|
  {
    var h := MergedHistory(history, current);
    MergedHistoryKeys(history, current);
    MergedHistorySize(history, current);
    MergedHistorySize(h, current);
    TripKeysAppend(h, current);
    TripKeysAppend(history, current);
    assert TripKeys(h + current) == TripKeys(history + current);
  }

  /** What `localStorage` holds for a key: nothing, text `JSON.parse` rejects,
      a parsed value that is not an array, or an array of trips. */
  datatype Stored = Absent | Unreadable | NotArray | SavedArray(trips: seq<Trip>)

  /** The answer of `saveToHistory`. */
  datatype SaveResult = NoTrips | Saved(total: nat, added: int)

  /** The answer of `loadFromHistory`. */
  datatype LoadResult = NoHistory | Loaded(count: nat)

  /** The JavaScript hook's lazy initial trips: a non-empty saved array, else none. */
  function InitialTrips(saved: Stored): (r: seq<Trip>)
    ensures r != [] <==> saved.SavedArray? && saved.trips != []
    ensures r != [] ==> r == saved.trips
  {
    if saved.SavedArray? && |saved.trips| > 0 then saved.trips else []
  }

  /** The JavaScript hook's lazy initial history: any saved array, else none. */
  function InitialHistory(saved: Stored): (r: seq<Trip>)
    ensures saved.SavedArray? ==> r == saved.trips
    ensures !saved.SavedArray? ==> r == []
  {
    if saved.SavedArray? then saved.trips else []
  }

  /** The TypeScript hook's load effect when the car changes: no car, nothing
      saved or unreadable text clear the list; a saved array replaces it; any
      other parsed value leaves it as it was. */
  function OnCarChange(hasCar: bool, saved: Stored, current: seq<Trip>): (r: seq<Trip>)
    ensures !hasCar || saved.Absent? || saved.Unreadable? ==> r == []
    ensures hasCar && saved.SavedArray? ==> r == saved.trips
    ensures hasCar && saved.NotArray? ==> r == current
  {
    if !hasCar then []
    else match saved
      case Absent => []
      case Unreadable => []
      case NotArray => current
      case SavedArray(ts) => ts
  }

  /** The state of one `useAppData` hook. */
  class TripStore {
    const dialect: Dialect
    var rawTrips: seq<Trip>
    var tripHistory: seq<Trip>
    var filterType: FilterType
    var selMonth: string
    var dateFrom: string
    var dateTo: string

    /** The JavaScript hook starts from what `localStorage` holds; the TypeScript
        one starts empty and loads when a car is selected. */
    constructor (d: Dialect, savedTrips: Stored, savedHistory: Stored)
      ensures dialect == d
      ensures d.JsHook? ==> rawTrips == InitialTrips(savedTrips) && tripHistory == InitialHistory(savedHistory)
      ensures d.TsHook? ==> rawTrips == [] && tripHistory == []
      ensures filterType == AllTrips && selMonth == "" && dateFrom == "" && dateTo == ""
    {
      dialect := d;
      if d.JsHook? {
        rawTrips := InitialTrips(savedTrips);
        tripHistory := InitialHistory(savedHistory);
      } else {
        rawTrips := [];
        tripHistory := [];
      }
      filterType := AllTrips;
      selMonth := "";
      dateFrom := "";
      dateTo := "";
    }

    /** The TypeScript load effects, run when the selected car changes. */
    method SelectCar(hasCar: bool, savedTrips: Stored, savedHistory: Stored)
      requires dialect.TsHook?
      modifies this
      ensures rawTrips == OnCarChange(hasCar, savedTrips, old(rawTrips))
      ensures tripHistory == OnCarChange(hasCar, savedHistory, old(tripHistory))
      ensures filterType == old(filterType) && selMonth == old(selMonth)
      ensures dateFrom == old(dateFrom) && dateTo == old(dateTo)
    {
      rawTrips := OnCarChange(hasCar, savedTrips, rawTrips);
      tripHistory := OnCarChange(hasCar, savedHistory, tripHistory);
    }

    /** `setFilterType`, `setSelMonth`, `setDateFrom`, `setDateTo`. */
    method SetFilter(ft: FilterType, month: string, from: string, to: string)
      modifies this
      ensures filterType == ft && selMonth == month && dateFrom == from && dateTo == to
      ensures rawTrips == old(rawTrips) && tripHistory == old(tripHistory)
    {
      filterType, selMonth, dateFrom, dateTo := ft, month, from, to;
    }

    /** The `months` memo. */
    function MonthList(): seq<string>
      reads this
    {
      Months(rawTrips)
    }

    /** The `filtered` memo. */
    function FilteredTrips(): seq<Trip>
      reads this
    {
      Filtered(dialect, rawTrips, filterType, selMonth, dateFrom, dateTo)
    }

    /** `clearData`: the trips are gone and the answer is `true`. */
    method ClearData() returns (ok: bool)
      modifies this
      ensures ok && rawTrips == []
      ensures tripHistory == old(tripHistory) && filterType == old(filterType)
      ensures selMonth == old(selMonth) && dateFrom == old(dateFrom) && dateTo == old(dateTo)
    {
      rawTrips := [];
      ok := true;
    }

    /** `saveToHistory`: without trips nothing changes; otherwise the history
        becomes the keyed merge of history and trips, sorted by date, and the
        answer reports its size and growth. */
    method SaveToHistory() returns (r: SaveResult)
      modifies this
      ensures old(rawTrips) == [] ==> r == NoTrips && tripHistory == old(tripHistory)
      ensures old(rawTrips) != [] ==>
        (tripHistory == MergedHistory(old(tripHistory), old(rawTrips))
         && r == Saved(|tripHistory|, |tripHistory| - |old(tripHistory)|))
      ensures rawTrips == old(rawTrips) && filterType == old(filterType)
      ensures selMonth == old(selMonth) && dateFrom == old(dateFrom) && dateTo == old(dateTo)
    {
      if rawTrips == [] {
        return NoTrips;
      }
      var previous := |tripHistory|;
      var merged := OverwriteMergeLoop(tripHistory, rawTrips);
      tripHistory := SortBy(merged, DateAsc());
      r := Saved(|tripHistory|, |tripHistory| - previous);
    }

    /** `loadFromHistory`: without history nothing changes; otherwise the
        history becomes the current trips and the answer is its size. */
    method LoadFromHistory() returns (r: LoadResult)
      modifies this
      ensures old(tripHistory) == [] ==> r == NoHistory && rawTrips == old(rawTrips)
      ensures old(tripHistory) != [] ==> r == Loaded(|tripHistory|) && rawTrips == tripHistory
      ensures tripHistory == old(tripHistory) && filterType == old(filterType)
      ensures selMonth == old(selMonth) && dateFrom == old(dateFrom) && dateTo == old(dateTo)
    {
      if tripHistory == [] {
        return NoHistory;
      }
      rawTrips := tripHistory;
      r := Loaded(|tripHistory|);
    }

    /** `clearHistory`: the history is gone and the answer is `true`. */
    method ClearHistory() returns (ok: bool)
      modifies this
      ensures ok && tripHistory == []
      ensures rawTrips == old(rawTrips) && filterType == old(filterType)
      ensures selMonth == old(selMonth) && dateFrom == old(dateFrom) && dateTo == old(dateTo)
    {
      tripHistory := [];
      ok := true;
    }
  }
}
