/** `YYYYMMDD` day strings and `YYYYMM` month strings (src/core/dateUtils.ts and
    its older twin src/utils/dateUtils.js). `parseDate` hands three numbers to
    the `Date` constructor and `toDateString` reads them back; the constructor's
    overflow normalisation and the locale formatters are outside the model, so
    a `Date` here is a valid calendar day and the locale text is a parameter. */
module DateUtils {
  import opened Wrappers
  import opened JsText

  /** The three numbers `parseDate` passes to `new Date(year, month, day)`:
      `parseInt` of the slices, `None` where `parseInt` gives `NaN`. */
  datatype DateArgs = DateArgs(year: Option<int>, monthIndex: Option<int>, day: Option<int>)

  /** A calendar day as `getFullYear`, `getMonth` (0-based) and `getDate` report it. */
  datatype Date = Date(year: int, monthIndex: int, day: int)

  predicate IsLeap(y: int) { (y % 4 == 0 && y % 100 != 0) || y % 400 == 0 }

  function DaysIn(y: int, monthIndex: int): int
    requires 0 <= monthIndex < 12
  {
    if monthIndex == 1 then (if IsLeap(y) then 29 else 28)
    else if monthIndex in {3, 5, 8, 10} then 30
    else 31
  }

  predicate ValidDate(d: Date) {
    100 <= d.year && 0 <= d.monthIndex < 12 && 1 <= d.day <= DaysIn(d.year, d.monthIndex)
  }

  /** `new Date(year, month, day)` where the arguments name an existing day from
      year 100 on; `None` stands for the cases the model does not follow (NaN
      arguments, overflowing months or days, the 1900 offset of two-digit years). */
  function Construct(a: DateArgs): (r: Option<Date>)
    ensures r.Some? ==> ValidDate(r.value)
    ensures r.Some? <==> a.year.Some? && a.monthIndex.Some? && a.day.Some?
                         && ValidDate(Date(a.year.value, a.monthIndex.value, a.day.value))
  {
    if a.year.Some? && a.monthIndex.Some? && a.day.Some?
       && ValidDate(Date(a.year.value, a.monthIndex.value, a.day.value))
    then Some(Date(a.year.value, a.monthIndex.value, a.day.value))
    else None
  }

  /** `k - 1` on a number that may be `NaN`. */
  function MinusOne(k: Option<int>): Option<int> {
    if k.Some? then Some(k.value - 1) else None
  }

  /** `parseDate(s)`: `null` for a missing or short string, else the year from
      characters 0-3, the month from 4-5 less one and the day from 6-7. */
  function ParseDate(s: string): (r: Option<DateArgs>)
    ensures r.None? <==> |s| < 8
    ensures r.Some? ==> (r.value.year == ParseInt(s[0..4]) && r.value.day == ParseInt(s[6..8])
                         && (r.value.monthIndex.Some? <==> ParseInt(s[4..6]).Some?)
                         && (r.value.monthIndex.Some? ==> r.value.monthIndex.value == ParseInt(s[4..6]).value - 1))
  {
    if |s| < 8 then None
    else
      Some(DateArgs(ParseInt(s[0..4]), MinusOne(ParseInt(s[4..6])), ParseInt(s[6..8])))
  }

  /** `toDateString(date)`: the year as written by `String`, then month and day
      padded to two digits. */
  function ToDateString(d: Date): (r: string)
    requires ValidDate(d)
    ensures 1000 <= d.year < 10000 ==> |r| == 8 && AllDigits(r)
  {
    NatToStringValue(d.year);
    Pad2Value(d.monthIndex + 1);
    Pad2Value(d.day);
    IntToString(d.year) + Pad2(d.monthIndex + 1) + Pad2(d.day)
  }

  /** A `YYYYMMDD` string naming an existing day of the years 1000-9999. */
  predicate IsCalendarString(s: string) {
    |s| == 8 && AllDigits(s) && s[0] != '0'
    && ValidDate(Date(DigitsValue(s[0..4]), DigitsValue(s[4..6]) - 1, DigitsValue(s[6..8])))
  }

  /** Reading a calendar string and writing it back gives the same string. */
  lemma ParseThenFormat(s: string)
    requires IsCalendarString(s)
    ensures ParseDate(s).Some? && Construct(ParseDate(s).value).Some?
    ensures ToDateString(Construct(ParseDate(s).value).value) == s
  {
    var y, m, d := s[0..4], s[4..6], s[6..8];
    assert AllDigits(y) && AllDigits(m) && AllDigits(d) && y[0] != '0';
    ParsedFields(s, y, m, d);
    var date := Date(DigitsValue(y), DigitsValue(m) - 1, DigitsValue(d));
    assert ValidDate(date) by { DigitsValueBound(y); }
    assert Construct(ParseDate(s).value) == Some(date);
    YearText(y);
    PaddedText(m);
    PaddedText(d);
    EightParts(s);
  }

  lemma EightParts(s: string)
    requires |s| == 8
    ensures s == s[0..4] + s[4..6] + s[6..8]
  {
  }

  /** An eight-digit string is read field by field. */
  lemma ParsedFields(s: string, y: string, m: string, d: string)
    requires |y| == 4 && AllDigits(y) && |m| == 2 && AllDigits(m) && |d| == 2 && AllDigits(d)
    requires |s| == 8 && s[0..4] == y && s[4..6] == m && s[6..8] == d
    ensures ParseDate(s) == Some(DateArgs(Some(DigitsValue(y)), Some(DigitsValue(m) - 1), Some(DigitsValue(d))))
  {
    FieldsParse(s, y, m, d);
    ParseDateOfInts(s, DigitsValue(y), DigitsValue(m), DigitsValue(d));
  }

  lemma FieldsParse(s: string, y: string, m: string, d: string)
    requires |y| == 4 && AllDigits(y) && |m| == 2 && AllDigits(m) && |d| == 2 && AllDigits(d)
    requires |s| == 8 && s[0..4] == y && s[4..6] == m && s[6..8] == d
    ensures ParseInt(s[0..4]) == Some(DigitsValue(y))
    ensures ParseInt(s[4..6]) == Some(DigitsValue(m))
    ensures ParseInt(s[6..8]) == Some(DigitsValue(d))
  {
    ParseIntDigits(y); ParseIntDigits(m); ParseIntDigits(d);
  }

  lemma ParseDateOfInts(s: string, year: int, month: int, day: int)
    requires |s| == 8 && !IsSpace(s[0]) && !IsSpace(s[4]) && !IsSpace(s[6])
    requires ParseInt(s[0..4]) == Some(year) && ParseInt(s[4..6]) == Some(month) && ParseInt(s[6..8]) == Some(day)
    ensures ParseDate(s) == Some(DateArgs(Some(year), Some(month - 1), Some(day)))
  {
    var r := ParseDate(s);
    assert r.Some?;
    assert r.value.year == Some(year) && r.value.day == Some(day);
    assert r.value.monthIndex == Some(month - 1);
  }

  /** A four-digit year without a leading zero is how `String` writes its value. */
  lemma YearText(y: string)
    requires |y| == 4 && AllDigits(y) && y[0] != '0'
    ensures IntToString(DigitsValue(y)) == y
  {
    DigitsValueBound(y);
    NatToStringValue(DigitsValue(y));
    DigitsValueInjective(NatToString(DigitsValue(y)), y);
  }

  /** Any two digits are how `Pad2` writes their value. */
  lemma PaddedText(m: string)
    requires |m| == 2 && AllDigits(m)
    ensures Pad2(DigitsValue(m)) == m
  {
    DigitsValueBound(m);
    Pad2Value(DigitsValue(m));
    DigitsValueInjective(Pad2(DigitsValue(m)), m);
  }

  /** Writing a day of the years 1000-9999 and reading it back gives the same day. */
  lemma FormatThenParse(date: Date)
    requires ValidDate(date) && 1000 <= date.year < 10000
    ensures IsCalendarString(ToDateString(date))
    ensures ParseDate(ToDateString(date)) == Some(DateArgs(Some(date.year), Some(date.monthIndex), Some(date.day)))
    ensures Construct(ParseDate(ToDateString(date)).value) == Some(date)
  {
    var s := ToDateString(date);
    NatToStringValue(date.year);
    Pad2Value(date.monthIndex + 1); Pad2Value(date.day);
    var y, m, d := NatToString(date.year), Pad2(date.monthIndex + 1), Pad2(date.day);
    assert s[0..4] == y && s[4..6] == m && s[6..8] == d;
    ParsedFields(s, y, m, d);
  }

  // ------------------------------------------------------------ legacy formatters

  const MonthNames: seq<string> :=
    ["Ene", "Feb", "Mar", "Abr", "May", "Jun", "Jul", "Ago", "Sep", "Oct", "Nov", "Dic"]

  /** `MONTH_NAMES[i]` coerced to text: "undefined" outside the table or for `NaN`. */
  function MonthName(i: Option<int>): (r: string)
    ensures i.Some? && 0 <= i.value < 12 ==> r == MonthNames[i.value]
  {
    if i.Some? && 0 <= i.value < 12 then MonthNames[i.value] else "undefined"
  }

  /** src/utils/dateUtils.js `formatMonth`: `YYYYMM` becomes the Spanish month
      abbreviation, a space and the year; a shorter string is returned as it is. */
  function FormatMonthLegacy(m: string): (r: string)
    ensures |m| < 6 ==> r == m
    ensures |m| >= 6 ==> r == MonthName(MinusOne(ParseInt(m[4..6]))) + " " + m[0..4]
  {
    if |m| < 6 then m else MonthName(MinusOne(ParseInt(m[4..6]))) + " " + m[0..4]
  }

  /** For a `YYYYMM` string with a month from 01 to 12, the legacy format is that
      month's abbreviation followed by the year. */
  lemma FormatMonthLegacyValid(m: string)
    requires |m| >= 6 && AllDigits(m[4..6]) && 1 <= DigitsValue(m[4..6]) <= 12
    ensures FormatMonthLegacy(m) == MonthNames[DigitsValue(m[4..6]) - 1] + " " + m[0..4]
  {
    ParseIntDigits(m[4..6]);
  }

  /** src/utils/dateUtils.js `formatDate`: `YYYYMMDD` becomes `DD/MM/YYYY` by
      slicing; a shorter string is returned as it is. */
  function FormatDateLegacy(d: string): (r: string)
    ensures |d| < 8 ==> r == d
    ensures |d| >= 8 ==> |r| == 10 && r[2] == '/' && r[5] == '/'
                         && r[0..2] == d[6..8] && r[3..5] == d[4..6] && r[6..10] == d[0..4]
  {
    if |d| < 8 then d else d[6..8] + "/" + d[4..6] + "/" + d[0..4]
  }

  /** The `DD/MM/YYYY` form loses nothing: the first eight characters come back
      by slicing it the other way. */
  lemma FormatDateLegacyInverse(d: string)
    requires |d| == 8
    ensures var r := FormatDateLegacy(d); r[6..10] + r[3..5] + r[0..2] == d
  {
    assert d == d[0..4] + d[4..6] + d[6..8];
  }

  // ------------------------------------------------------------ core formatters

  /** `formatted.charAt(0).toUpperCase() + formatted.slice(1)`. */
  function Capitalize(s: string): (r: string)
    ensures |r| == |s| && (s != [] ==> r[0] == UpperChar(s[0]) && r[1..] == s[1..])
  {
    if s == [] then [] else [UpperChar(s[0])] + s[1..]
  }

  /** src/core/dateUtils.ts `formatMonth`: the guard returns a short string as it
      is; otherwise the locale's short month and year, first letter upper case.
      `localeMonth(year, monthIndex)` is `toLocaleDateString`. */
  function FormatMonth(m: string, localeMonth: (Option<int>, Option<int>) -> string): (r: string)
    ensures |m| < 6 ==> r == m
    ensures |m| >= 6 ==>
      var t := localeMonth(ParseInt(m[0..4]), MinusOne(ParseInt(m[4..6])));
      |r| == |t| && (t != [] ==> r[0] == UpperChar(t[0]) && r[1..] == t[1..])
  {
    if |m| < 6 then m else Capitalize(localeMonth(ParseInt(m[0..4]), MinusOne(ParseInt(m[4..6]))))
  }

  /** src/core/dateUtils.ts `formatDate`: the guard returns a short string as it
      is; otherwise the locale's two-digit day, month and year of `parseDate(d)`. */
  function FormatDate(d: string, localeDate: DateArgs -> string): (r: string)
    ensures |d| < 8 ==> r == d
    ensures |d| >= 8 ==> r == localeDate(ParseDate(d).value)
  {
    if |d| < 8 then d else localeDate(ParseDate(d).value)
  }

  /** `formatTime(timestamp)` of both files: the empty text for a falsy
      timestamp; otherwise the locale's hours and minutes of the instant
      `timestamp * 1000` milliseconds after the epoch, which
      `localeTime` stands for. */
  function FormatTime(timestamp: int, localeTime: int -> string): (r: string)
    ensures timestamp == 0 ==> r == ""
    ensures timestamp != 0 ==> r == localeTime(timestamp * 1000)
  {
    if timestamp == 0 then "" else localeTime(timestamp * 1000)
  }
}
