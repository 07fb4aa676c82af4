/** The trip-file side of `useDatabase` (TypeScript and JavaScript twins): the
    CSV trip reader, the keyed merge of an import into the existing trips, the
    loading and error flags of `processDB`, and the file-name check. Reading
    the SQLite file itself is not part of this model; its rows arrive as a
    list of trips. */
module TripImport {
  import opened Wrappers
  import opened Records
  import opened JsText
  import opened StableSort
  import opened KeyedMap
  import opened TripMerge
  import opened CsvText
  import DateUtils
  import opened AppData

  /** `Math.floor(new Date(year, month - 1, day, hour, minute).getTime() / 1000)`:
      the local clock is outside the model. */
  type LocalStamp = (int, int, int, int, int) -> int

  /** `parseInt(s) || 0`. */
  function IntOr0(x: Option<int>): int { if x.Some? then x.value else 0 }

  /** The numbers of a matched `YYYY-MM-DD` group (`dateStr.split('-').map(Number)`). */
  function YearOf(d: string): nat requires |d| == 10 && DateAt(d, 0) { DigitsValue(d[0..4]) }
  function MonthOf(d: string): nat requires |d| == 10 && DateAt(d, 0) { DigitsValue(d[5..7]) }
  function DayOf(d: string): nat requires |d| == 10 && DateAt(d, 0) { DigitsValue(d[8..10]) }

  /** The numbers of a matched `HH:MM` group. */
  function HourOf(tm: string): nat requires |tm| == 5 && ClockAt(tm, 0) { DigitsValue(tm[0..2]) }
  function MinuteOf(tm: string): nat requires |tm| == 5 && ClockAt(tm, 0) { DigitsValue(tm[3..5]) }

  /** `${year}${pad(month)}${pad(day)}` and `${year}${pad(month)}`. */
  function DateTextOf(d: string): string requires |d| == 10 && DateAt(d, 0) {
    IntToString(YearOf(d)) + Pad2(MonthOf(d)) + Pad2(DayOf(d))
  }
  function MonthTextOf(d: string): string requires |d| == 10 && DateAt(d, 0) {
    IntToString(YearOf(d)) + Pad2(MonthOf(d))
  }

  /** The trip a row with matched date `d` and time `tm` describes. */
  function RowTrip(d: string, tm: string, values: seq<string>, stamp: LocalStamp): Trip
    requires |d| == 10 && DateAt(d, 0) && |tm| == 5 && ClockAt(tm, 0) && |values| >= 4
  {
    var ts := stamp(YearOf(d), MonthOf(d), DayOf(d), HourOf(tm), MinuteOf(tm));
    var dur := IntOr0(ParseInt(values[1])) * 60;
    Trip(Some(ParseFloatOr0(values[2])), Some(ParseFloatOr0(values[3])), 0.0, dur as real,
         DateTextOf(d), MonthTextOf(d), ts, ts + dur)
  }

  /** `parseTripRow([inicio, dur, dist, energy])`. */
  function ParseTripRow(values: seq<string>, stamp: LocalStamp): Option<Trip>
    requires |values| >= 4
  {
    if values[0] == "" then None
    else
      match DateTimeAt(values[0], 0)
      case None => None
      case Some((d, tm)) => Some(RowTrip(d, tm, values, stamp))
  }

  /** A row is read iff its first field starts with `YYYY-MM-DD HH:MM`. The
      trip then starts at the local time of that date and time and lasts the
      whole minutes of the second field; distance and energy are the third and
      fourth fields, 0 when they do not parse. */
  lemma ParseTripRowSpec(values: seq<string>, stamp: LocalStamp)
    requires |values| >= 4
    ensures ParseTripRow(values, stamp).Some? <==> DateTimeAt(values[0], 0).Some?
    ensures ParseTripRow(values, stamp).Some? ==>
      var (d, tm) := DateTimeAt(values[0], 0).value;
      var t := ParseTripRow(values, stamp).value;
      t == RowTrip(d, tm, values, stamp)
      && t.startTs == stamp(YearOf(d), MonthOf(d), DayOf(d), HourOf(tm), MinuteOf(tm))
      && t.endTs - t.startTs == 60 * IntOr0(ParseInt(values[1]))
      && t.duration == (t.endTs - t.startTs) as real
      && t.trip == Some(ParseFloatOr0(values[2])) && t.electricity == Some(ParseFloatOr0(values[3]))
  {
    var m := DateTimeAt(values[0], 0);
    if m.Some? {
      assert values[0] != "";
      var t := RowTrip(m.value.0, m.value.1, values, stamp);
      assert ParseTripRow(values, stamp) == Some(t);
    } else {
      assert ParseTripRow(values, stamp).None?;
    }
  }

  /** With a four-digit year not starting with 0 the date is the field's date
      without hyphens, the month is its first six characters, and the date
      reads back through `parseDate` as the same day. */
  lemma RowTripDate(d: string, tm: string, values: seq<string>, stamp: LocalStamp)
    requires |d| == 10 && DateAt(d, 0) && |tm| == 5 && ClockAt(tm, 0) && |values| >= 4
    requires d[0] != '0'
    ensures var t := RowTrip(d, tm, values, stamp);
      t.month == d[0..4] + d[5..7]
      && t.date == t.month + d[8..10]
      && DateUtils.ParseDate(t.date) == Some(DateUtils.DateArgs(Some(YearOf(d)), Some(MonthOf(d) - 1), Some(DayOf(d))))
  {
    DateDigits(d);
    DateReadsBack(d);
  }

  /** The written date of a matched date group is its digits. */
  lemma DateDigits(d: string)
    requires |d| == 10 && DateAt(d, 0) && d[0] != '0'
    ensures DateTextOf(d) == d[0..4] + d[5..7] + d[8..10]
    ensures MonthTextOf(d) == d[0..4] + d[5..7]
  {
    var y, m, dd := d[0..4], d[5..7], d[8..10];
    assert y[0] == d[0];
    DateUtils.YearText(y);
    DateUtils.PaddedText(m);
    DateUtils.PaddedText(dd);
  }

  /** The written date reads back through `parseDate` as the same day. */
  lemma DateReadsBack(d: string)
    requires |d| == 10 && DateAt(d, 0) && d[0] != '0'
    ensures DateUtils.ParseDate(d[0..4] + d[5..7] + d[8..10])
            == Some(DateUtils.DateArgs(Some(YearOf(d)), Some(MonthOf(d) - 1), Some(DayOf(d))))
  {
    var y, m, dd := d[0..4], d[5..7], d[8..10];
    var date := y + m + dd;
    assert date[0..4] == y && date[4..6] == m && date[6..8] == dd;
    DateUtils.ParsedFields(date, y, m, dd);
  }

  /** One data line: the comma fields when there are at least four, else the
      semicolon fields when there are at least four, else nothing. */
  function CsvRow(line: string, stamp: LocalStamp): (r: Option<Trip>)
    ensures |Fields(line, ',')| >= 4 ==> r == ParseTripRow(Fields(line, ','), stamp)
    ensures |Fields(line, ',')| < 4 && |Fields(line, ';')| >= 4 ==> r == ParseTripRow(Fields(line, ';'), stamp)
    ensures |Fields(line, ',')| < 4 && |Fields(line, ';')| < 4 ==> r.None?
  {
    var c := Fields(line, ',');
    if |c| >= 4 then ParseTripRow(c, stamp)
    else
      var sc := Fields(line, ';');
      if |sc| >= 4 then ParseTripRow(sc, stamp) else None
  }

  /** `.map(parse).filter(r => r !== null)` over the data lines. */
  function CsvRows(lines: seq<string>, stamp: LocalStamp): (r: seq<Trip>)
    ensures |r| <= |lines|
  {
    if lines == [] then []
    else
      match CsvRow(lines[0], stamp)
      case Some(t) => [t] + CsvRows(lines[1..], stamp)
      case None => CsvRows(lines[1..], stamp)
  }

  /** The trips read are exactly those of the lines that parse. */
  lemma {:induction false} CsvRowsMembers(lines: seq<string>, stamp: LocalStamp)
    ensures forall t :: t in CsvRows(lines, stamp) <==> exists k :: 0 <= k < |lines| && CsvRow(lines[k], stamp) == Some(t)
  {
    if lines != [] {
      CsvRowsMembers(lines[1..], stamp);
      forall t | exists k :: 1 <= k < |lines| && CsvRow(lines[k], stamp) == Some(t)
        ensures exists k :: 0 <= k < |lines| - 1 && CsvRow(lines[1..][k], stamp) == Some(t)
      {
        var k :| 1 <= k < |lines| && CsvRow(lines[k], stamp) == Some(t);
        assert lines[1..][k - 1] == lines[k];
      }
    }
  }

  /** The CSV branch of `processDB` up to the merge: `None` when the text has
      fewer than two non-blank lines (the thrown error), else the trips read
      from the lines after the header. */
  function ParseCsv(text: string, stamp: LocalStamp): (r: Option<seq<Trip>>)
    ensures r.None? <==> |CrLfLines(text)| < 2
    ensures r.Some? ==> r.value == CsvRows(CrLfLines(text)[1..], stamp)
  {
    var lines := CrLfLines(text);
    if |lines| < 2 then None else Some(CsvRows(lines[1..], stamp))
  }

  /** A header line and one line of plain comma-separated fields whose first is
      `YYYY-MM-DD HH:MM` give one trip. */
  lemma OneTripCsv(header: string, fs: seq<string>, stamp: LocalStamp)
    requires |fs| >= 4 && forall k :: 0 <= k < |fs| ==> PlainField(fs[k], ',')
    requires DateTimeAt(fs[0], 0).Some?
    requires !IsBlank(header) && '\n' !in header && '\r' !in header
    requires '\n' !in Join(fs, ',') && '\r' !in Join(fs, ',')
    ensures ParseCsv(header + "\n" + Join(fs, ','), stamp) == Some([ParseTripRow(fs, stamp).value])
  {
    var line := Join(fs, ',');
    JoinNotBlank(fs);
    TwoLines(header, line);
    assert CrLfLines(header + "\n" + line)[1..] == [line];
    OneRow(line, fs, stamp);
  }

  /** A line whose first field starts with a date is not blank. */
  lemma JoinNotBlank(fs: seq<string>)
    requires |fs| >= 4 && PlainField(fs[0], ',') && DateTimeAt(fs[0], 0).Some?
    ensures !IsBlank(Join(fs, ','))
  {
    TrimPlain(fs[0]);
    JoinStarts(fs, ',');
    TrimStartNoSpace(Join(fs, ','));
  }

  /** The lines of `header \n line` when neither holds a line break. */
  lemma TwoLines(header: string, line: string)
    requires !IsBlank(header) && '\n' !in header && '\r' !in header
    requires !IsBlank(line) && '\n' !in line && '\r' !in line
    ensures CrLfLines(header + "\n" + line) == [header, line]
  {
    SplitPair(header, line, '\n');
    assert StripCr(header) == header && StripCr(line) == line;
    assert StripCrAll([header, line]) == [header, line];
    assert Seqs.Filter([header, line], NotBlank()) == [header] + Seqs.Filter([line], NotBlank());
    assert Seqs.Filter([line], NotBlank()) == [line] + Seqs.Filter([line][1..], NotBlank());
  }

  /** Splitting two separator-free pieces joined by the separator. */
  lemma SplitPair(a: string, b: string, c: char)
    requires c !in a && c !in b
    ensures Split(a + [c] + b, c) == [a, b]
  {
    var text := a + [c] + b;
    IndexOfPrefix(a, c, b);
    assert text[..|a|] == a && text[|a| + 1..] == b;
    IndexOfAbsent(b, c);
    assert Split(b, c) == [b];
  }

  /** A single data line of plain fields yields the trip of those fields. */
  lemma OneRow(line: string, fs: seq<string>, stamp: LocalStamp)
    requires |fs| >= 4 && forall k :: 0 <= k < |fs| ==> PlainField(fs[k], ',')
    requires line == Join(fs, ',') && DateTimeAt(fs[0], 0).Some?
    ensures CsvRows([line], stamp) == [ParseTripRow(fs, stamp).value]
  {
    FieldsOfJoin(fs, ',');
    assert fs[0] != "";
    var r := ParseTripRow(fs, stamp);
    assert r.Some?;
    assert CsvRow(line, stamp) == r;
    assert CsvRows([line][1..], stamp) == [];
  }

  lemma JoinStarts(fs: seq<string>, c: char)
    requires |fs| > 0 && fs[0] != []
    ensures Join(fs, c) != [] && Join(fs, c)[0] == fs[0][0]
  {
  }

  lemma TrimStartNoSpace(s: string)
    requires s != [] && !IsSpace(s[0])
    ensures !IsBlank(s)
  {
    assert TrimStart(s) == s;
    TrimEndKeepsNonSpace(s);
  }

  lemma {:induction false} TrimEndKeepsNonSpace(s: string)
    requires s != [] && !IsSpace(s[0])
    ensures TrimEnd(s) != []
    decreases |s|
  {
    if IsSpace(s[|s| - 1]) {
      TrimEndKeepsNonSpace(s[..|s| - 1]);
    }
  }

  // ---------------------------------------------------------------- import

  /** The CSV branch of `processDB`: `None` is the thrown "empty or malformed"
      error; no valid row gives an empty list; with `merge` and existing trips
      the rows are merged into them by key, imported rows winning, and sorted by
      date then start time; otherwise the rows themselves. */
  function CsvImport(text: string, existing: seq<Trip>, merge: bool, stamp: LocalStamp): Option<seq<Trip>> {
    match ParseCsv(text, stamp)
    case None => None
    case Some(rows) =>
      if rows == [] then Some([])
      else if merge && existing != [] then Some(SortedOverwrite(existing, rows, DateThenStart()))
      else Some(rows)
  }

  lemma CsvImportSpec(text: string, existing: seq<Trip>, merge: bool, stamp: LocalStamp)
    ensures CsvImport(text, existing, merge, stamp).None? <==> |CrLfLines(text)| < 2
    ensures CsvImport(text, existing, merge, stamp).Some? ==>
      var rows := CsvRows(CrLfLines(text)[1..], stamp);
      var r := CsvImport(text, existing, merge, stamp).value;
      if rows == [] || !merge || existing == [] then r == rows
      else
        SortedBy(r, DateThenStart())
        && DistinctKeys(r)
        && (forall t :: t in r ==> OverwriteWinner(existing, rows, TripKey(t)) == Some(t))
        && (forall t :: t in existing + rows ==> OverwriteWinner(existing, rows, TripKey(t)).value in r)
        && |r| == |TripKeys(existing + rows)|
  {
    var p := ParseCsv(text, stamp);
    if p.Some? && p.value != [] && merge && existing != [] {
      DateOrdersTotal();
      SortedOverwriteSpec(existing, p.value, DateThenStart());
    }
  }

  /** What the SQLite queries find: no `EnergyConsumption` table, or the
      table's live rows in date and start order. */
  datatype DbRead = NoTable | Table(rows: seq<Trip>)

  /** How `processDB` ends: the trips it returns, or the message it stores
      in `error` before returning null. */
  datatype Outcome = Done(trips: seq<Trip>) | Failed(message: string)

  const CsvError := "CSV vacío o formato incorrecto"
  const SqlNotReady := "SQL no está listo"
  const NoTableError := "Tabla no encontrada"
  const NoDataError := "Sin datos"

  /** The SQLite branch after the queries: merged by key with imported rows
      winning and sorted by date when `merge` and existing trips are given. */
  function SqliteImport(read: DbRead, existing: seq<Trip>, merge: bool): Outcome {
    match read
    case NoTable => Failed(NoTableError)
    case Table(rows) =>
      if rows == [] then Failed(NoDataError)
      else if merge && existing != [] then Done(SortedOverwrite(existing, rows, DateAsc()))
      else Done(rows)
  }

  lemma SqliteImportSpec(read: DbRead, existing: seq<Trip>, merge: bool)
    ensures SqliteImport(read, existing, merge).Failed? <==> read.NoTable? || read.rows == []
    ensures read.NoTable? ==> SqliteImport(read, existing, merge) == Failed(NoTableError)
    ensures read.Table? && read.rows == [] ==> SqliteImport(read, existing, merge) == Failed(NoDataError)
    ensures SqliteImport(read, existing, merge).Done? ==>
      var rows, r := read.rows, SqliteImport(read, existing, merge).trips;
      if !merge || existing == [] then r == rows
      else
        SortedBy(r, DateAsc())
        && DistinctKeys(r)
        && (forall t :: t in r ==> OverwriteWinner(existing, rows, TripKey(t)) == Some(t))
        && (forall t :: t in existing + rows ==> OverwriteWinner(existing, rows, TripKey(t)).value in r)
        && |r| == |TripKeys(existing + rows)|
  {
    if read.Table? && read.rows != [] && merge && existing != [] {
      DateOrdersTotal();
      SortedOverwriteSpec(existing, read.rows, DateAsc());
    }
  }

  /** `file.name.toLowerCase().endsWith(ext)`. */
  predicate HasExtension(name: string, ext: string) { EndsWith(ToLower(name), ext) }

  /** `processDB` for a file named `name`, whose text is `text` and whose
      SQLite content reads as `read`. Only the TypeScript hook has the CSV
      branch; the JavaScript one checks for SQL.js before anything else. */
  function ProcessOutcome(d: Dialect, sqlReady: bool, name: string, text: string, read: DbRead,
                          existing: seq<Trip>, merge: bool, stamp: LocalStamp): Outcome
  {
    if d == TsHook && HasExtension(name, ".csv") then
      match CsvImport(text, existing, merge, stamp)
      case None => Failed(CsvError)
      case Some(ts) => Done(ts)
    else if !sqlReady then Failed(SqlNotReady)
    else SqliteImport(read, existing, merge)
  }

  /** `validateFile`: the TypeScript hook also accepts `.csv`. */
  predicate Accepted(d: Dialect, name: string) {
    HasExtension(name, ".db") || HasExtension(name, ".jpg") || HasExtension(name, ".jpeg")
    || (d == TsHook && HasExtension(name, ".csv"))
  }

  /** The file-name test ignores letter case, and a `.csv` name is accepted by the
      TypeScript hook only; any name the JavaScript hook accepts, the
      TypeScript one accepts too. */
  lemma AcceptedSpec(name: string)
    ensures Accepted(TsHook, name) == Accepted(TsHook, ToLower(name))
    ensures Accepted(JsHook, name) == Accepted(JsHook, ToLower(name))
    ensures HasExtension(name, ".csv") ==> Accepted(TsHook, name) && !Accepted(JsHook, name)
    ensures Accepted(JsHook, name) ==> Accepted(TsHook, name)
  {
    LowerTwice(name);
    if HasExtension(name, ".csv") {
      CsvExcludes(ToLower(name));
    }
  }

  /** A name ending in `.csv` ends in none of the other extensions: its last
      character is `v`. */
  lemma CsvExcludes(l: string)
    requires EndsWith(l, ".csv")
    ensures !EndsWith(l, ".db") && !EndsWith(l, ".jpg") && !EndsWith(l, ".jpeg")
  {
    SuffixLast(l, ".csv");
    SuffixLast(l, ".db");
    SuffixLast(l, ".jpg");
    SuffixLast(l, ".jpeg");
  }

  lemma SuffixLast(l: string, p: string)
    ensures EndsWith(l, p) && p != [] ==> l[|l| - 1] == p[|p| - 1]
  {
    if EndsWith(l, p) && p != [] {
      assert l[|l| - |p|..][|p| - 1] == l[|l| - 1];
    }
  }

  lemma LowerTwice(s: string)
    ensures ToLower(ToLower(s)) == ToLower(s)
  {
  }

  /** The state `useDatabase` keeps: whether SQL.js is loaded, the loading
      flag and the last error message. */
  class Importer {
    const dialect: Dialect
    var sqlReady: bool
    var loading: bool
    var error: Option<string>

    constructor (d: Dialect, ready: bool)
      ensures dialect == d && sqlReady == ready && !loading && error.None?
    {
      dialect := d;
      sqlReady := ready;
      loading := false;
      error := None;
    }

    /** `processDB`: the returned trips or `null` with the error message set,
        as `ProcessOutcome` says; the loading flag is down again at the end,
        and untouched when the JavaScript hook stops for a missing SQL.js. */
    method ProcessDB(name: string, text: string, read: DbRead, existing: seq<Trip>, merge: bool,
                     stamp: LocalStamp) returns (r: Option<seq<Trip>>)
      modifies this
      ensures var o := ProcessOutcome(dialect, sqlReady, name, text, read, existing, merge, stamp);
        (o.Done? ==> r == Some(o.trips) && error.None?)
        && (o.Failed? ==> r.None? && error == Some(o.message))
      ensures loading == (if dialect == JsHook && !sqlReady then old(loading) else false)
      ensures sqlReady == old(sqlReady)
    {
      if dialect == JsHook && !sqlReady {
        error := Some(SqlNotReady);
        return None;
      }
      loading := true;
      error := None;
      if dialect == TsHook && HasExtension(name, ".csv") {
        var lines := CrLfLines(text);
        if |lines| < 2 {
          error := Some(CsvError);
          r := None;
        } else {
          var rows := CsvRows(lines[1..], stamp);
          if rows == [] {
            r := Some([]);
          } else if merge && existing != [] {
            var merged := OverwriteMergeLoop(existing, rows);
            r := Some(SortBy(merged, DateThenStart()));
          } else {
            r := Some(rows);
          }
        }
      } else if !sqlReady {
        error := Some(SqlNotReady);
        r := None;
      } else {
        match read
        case NoTable =>
          error := Some(NoTableError);
          r := None;
        case Table(rows) =>
          if rows == [] {
            error := Some(NoDataError);
            r := None;
          } else if merge && existing != [] {
            var merged := OverwriteMergeLoop(existing, rows);
            r := Some(SortBy(merged, DateAsc()));
          } else {
            r := Some(rows);
          }
      }
      loading := false;
    }
  }
}
