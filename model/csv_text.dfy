/** What the CSV importers do with text: split it into lines, drop the blank
    ones, cut a line into fields with the regular expression
    `("[^"]*"|[^,]+)` (or `;` in place of `,`), strip one pair of quotes and the
    white space around each field, and recognise `YYYY-MM-DD` and
    `YYYY-MM-DD HH:MM` at the start of a field. None of this is RFC 4180: empty
    fields vanish, a doubled quote is not an escape, and text after a closing
    quote starts a new field. */
module CsvText {
  import opened Wrappers
  import opened JsText
  import opened Seqs

  // ---------------------------------------------------------------- lines

  function NotBlank(): string -> bool { (l: string) => !IsBlank(l) }

  /** A trailing carriage return removed. */
  function StripCr(l: string): (r: string)
    ensures r == l || (l == r + "\r")
  {
    if l != [] && l[|l| - 1] == '\r' then l[..|l| - 1] else l
  }

  function StripCrAll(ls: seq<string>): (r: seq<string>)
    ensures |r| == |ls| && forall k :: 0 <= k < |ls| ==> r[k] == StripCr(ls[k])
  {
    if ls == [] then [] else [StripCr(ls[0])] + StripCrAll(ls[1..])
  }

  /** `text.split(/\r?\n/).filter(l => l.trim())`: a `\r` just before a line
      feed belongs to the separator. */
  function CrLfLines(text: string): (r: seq<string>)
    ensures forall k :: 0 <= k < |r| ==> !IsBlank(r[k])
  {
    Filter(StripCrAll(Split(text, '\n')), NotBlank())
  }

  /** `text.split('\n').filter(line => line.trim())`: a `\r` stays on its line. */
  function LfLines(text: string): (r: seq<string>)
    ensures forall k :: 0 <= k < |r| ==> !IsBlank(r[k])
  {
    Filter(Split(text, '\n'), NotBlank())
  }

  // ---------------------------------------------------------------- fields

  /** The length of a quoted token `"…"` at the start of `s`, or 0 when `s`
      does not start with a quote that is closed later. */
  function QuotedLength(s: string): (n: nat)
    ensures n == 0 || (2 <= n <= |s| && s[0] == '"' && s[n - 1] == '"' && '"' !in s[1..n - 1])
  {
    if s != [] && s[0] == '"' && IndexOf(s[1..], '"') < |s| - 1 then IndexOf(s[1..], '"') + 2 else 0
  }

  /** `line.match(/("[^"]*"|[^<sep>]+)/g)` (an empty list for `null`): at each
      position a closed quoted token if there is one, else the longest run
      without the separator; separators themselves are skipped. */
  function MatchFields(s: string, sep: char): (r: seq<string>)
    ensures forall k :: 0 <= k < |r| ==> r[k] != []
    decreases |s|
  {
    if s == [] then []
    else if s[0] == sep then MatchFields(s[1..], sep)
    else
      var q := QuotedLength(s);
      if q > 0 then [s[..q]] + MatchFields(s[q..], sep)
      else
        var m := IndexOf(s, sep);
        [s[..m]] + MatchFields(s[m..], sep)
  }

  /** `v.replace(/^"|"$/g, '')`: one leading and one trailing quote removed. */
  function StripQuotes(v: string): (r: string)
    ensures |r| <= |v|
    ensures '"' !in v ==> r == v
  {
    var a := if v != [] && v[0] == '"' then v[1..] else v;
    if a != [] && a[|a| - 1] == '"' then a[..|a| - 1] else a
  }

  /** `.map(v => v.replace(/^"|"$/g, '').trim())`. */
  function CleanAll(vs: seq<string>): (r: seq<string>)
    ensures |r| == |vs| && forall k :: 0 <= k < |vs| ==> r[k] == Trim(StripQuotes(vs[k]))
  {
    if vs == [] then [] else [Trim(StripQuotes(vs[0]))] + CleanAll(vs[1..])
  }

  /** The fields of one line for the separator `sep`. */
  function Fields(line: string, sep: char): seq<string> {
    CleanAll(MatchFields(line, sep))
  }

  /** A field that a writer can put between separators and get back unchanged:
      not empty, no separator, no quote, no surrounding white space. */
  predicate PlainField(f: string, sep: char) {
    f != [] && sep !in f && '"' !in f && !IsSpace(f[0]) && !IsSpace(f[|f| - 1])
  }

  lemma TrimPlain(f: string)
    requires f != [] && !IsSpace(f[0]) && !IsSpace(f[|f| - 1])
    ensures Trim(f) == f
  {
  }

  /** A field without separator or leading quote, then a separator: the field
      is one match and reading goes on after the separator. */
  lemma MatchFieldsCons(f: string, sep: char, rest: string)
    requires f != [] && sep !in f && f[0] != '"'
    ensures MatchFields(f + [sep] + rest, sep) == [f] + MatchFields(rest, sep)
  {
    var s := f + [sep] + rest;
    IndexOfPrefix(f, sep, rest);
    assert s[..|f|] == f && s[|f|..] == [sep] + rest;
    assert ([sep] + rest)[1..] == rest;
  }

  lemma {:induction false} IndexOfPrefix(f: string, sep: char, rest: string)
    requires sep !in f
    ensures IndexOf(f + [sep] + rest, sep) == |f|
    decreases |f|
  {
    if f != [] {
      IndexOfPrefix(f[1..], sep, rest);
      assert (f + [sep] + rest)[1..] == f[1..] + [sep] + rest;
    }
  }

  lemma CleanAllCons(v: string, vs: seq<string>)
    ensures CleanAll([v] + vs) == [Trim(StripQuotes(v))] + CleanAll(vs)
  {
    assert ([v] + vs)[1..] == vs;
  }

  /** A plain field, a separator, then more text: the field is read as it is. */
  lemma FieldsConsPlain(f: string, sep: char, rest: string)
    requires PlainField(f, sep)
    ensures Fields(f + [sep] + rest, sep) == [f] + Fields(rest, sep)
  {
    MatchFieldsCons(f, sep, rest);
    CleanAllCons(f, MatchFields(rest, sep));
    TrimPlain(f);
  }

  lemma FieldsOnePlain(f: string, sep: char)
    requires PlainField(f, sep)
    ensures Fields(f, sep) == [f]
  {
    IndexOfAbsent(f, sep);
    assert f[0] != sep && QuotedLength(f) == 0;
    assert f[..|f|] == f && f[|f|..] == [];
    assert MatchFields(f, sep) == [f];
    TrimPlain(f);
    assert CleanAll([f]) == [Trim(StripQuotes(f))];
  }

  lemma {:induction false} IndexOfAbsent(f: string, sep: char)
    requires sep !in f
    ensures IndexOf(f, sep) == |f|
    decreases |f|
  {
    if f != [] {
      IndexOfAbsent(f[1..], sep);
    }
  }

  /** A line made by joining plain fields with the separator is read back as
      exactly those fields. */
  lemma {:induction false} FieldsOfJoin(fs: seq<string>, sep: char)
    requires |fs| > 0
    requires forall k :: 0 <= k < |fs| ==> PlainField(fs[k], sep)
    ensures Fields(Join(fs, sep), sep) == fs
    decreases |fs|
  {
    if |fs| == 1 {
      FieldsOnePlain(fs[0], sep);
    } else {
      var tail := fs[1..];
      assert forall k :: 0 <= k < |tail| ==> PlainField(tail[k], sep) by {
        forall k | 0 <= k < |tail| ensures PlainField(tail[k], sep) {
          assert tail[k] == fs[k + 1];
        }
      }
      FieldsOfJoin(tail, sep);
      assert Join(fs, sep) == fs[0] + [sep] + Join(tail, sep);
      FieldsConsPlain(fs[0], sep, Join(tail, sep));
      assert fs == [fs[0]] + tail;
    }
  }

  /** A quoted token keeps the separators inside it: it is one field, read
      without its quotes. */
  lemma QuotedField(q: string, sep: char, rest: string)
    requires '"' !in q && sep != '"'
    ensures Fields("\"" + q + "\"" + [sep] + rest, sep) == [Trim(q)] + Fields(rest, sep)
  {
    var tok := "\"" + q + "\"";
    var s := tok + [sep] + rest;
    assert s[1..] == q + ['"'] + ([sep] + rest);
    IndexOfPrefix(q, '"', [sep] + rest);
    assert QuotedLength(s) == |q| + 2;
    assert s[..|q| + 2] == tok && s[|q| + 2..] == [sep] + rest;
    assert ([sep] + rest)[1..] == rest;
    assert MatchFields(s, sep) == [tok] + MatchFields(rest, sep);
    assert tok[1..] == q + "\"";
    assert StripQuotes(tok) == q;
    CleanAllCons(tok, MatchFields(rest, sep));
  }

  /** Empty fields vanish: two adjacent separators read as one. */
  lemma EmptyFieldSkipped(a: string, b: string, sep: char)
    requires PlainField(a, sep)
    ensures Fields(a + [sep, sep] + b, sep) == [a] + Fields(b, sep)
  {
    assert a + [sep, sep] + b == a + [sep] + ([sep] + b);
    MatchFieldsCons(a, sep, [sep] + b);
    assert ([sep] + b)[1..] == b;
    assert MatchFields([sep] + b, sep) == MatchFields(b, sep);
    TrimPlain(a);
    CleanAllCons(a, MatchFields(b, sep));
  }

  // ---------------------------------------------------------------- dates

  predicate DigitsAt(s: string, i: nat, n: nat) {
    i + n <= |s| && AllDigits(s[i..i + n])
  }

  /** `\d{4}-\d{2}-\d{2}` at position `i`. */
  predicate DateAt(s: string, i: nat) {
    i + 10 <= |s| && DigitsAt(s, i, 4) && s[i + 4] == '-' && DigitsAt(s, i + 5, 2)
    && s[i + 7] == '-' && DigitsAt(s, i + 8, 2)
  }

  /** `\d{2}:\d{2}` at position `j`. */
  predicate ClockAt(s: string, j: nat) {
    j + 5 <= |s| && DigitsAt(s, j, 2) && s[j + 2] == ':' && DigitsAt(s, j + 3, 2)
  }

  /** The number of white-space characters at the start of `s` (`\s*`). */
  function SpaceRun(s: string): (n: nat)
    ensures n <= |s| && (forall k :: 0 <= k < n ==> IsSpace(s[k]))
    ensures n < |s| ==> !IsSpace(s[n])
  {
    if s != [] && IsSpace(s[0]) then 1 + SpaceRun(s[1..]) else 0
  }

  /** `(\d{4}-\d{2}-\d{2})\s*(\d{2}:\d{2})` matched at position `i`: the two
      groups. Digits are not white space, so the greedy `\s*` is the only way
      the match can go. */
  function DateTimeAt(s: string, i: nat): (r: Option<(string, string)>)
    ensures r.Some? ==> DateAt(s, i) && |r.value.0| == 10 && r.value.0 == s[i..i + 10]
    ensures r.Some? ==> |r.value.1| == 5 && exists j :: i + 10 <= j && ClockAt(s, j) && r.value.1 == s[j..j + 5]
    ensures r.Some? ==> DateAt(r.value.0, 0) && ClockAt(r.value.1, 0)
  {
    if !DateAt(s, i) then None
    else
      var j := i + 10 + SpaceRun(s[i + 10..]);
      if ClockAt(s, j) then
        var d, t := s[i..i + 10], s[j..j + 5];
        assert d[0..4] == s[i..i + 4] && d[5..7] == s[i + 5..i + 7] && d[8..10] == s[i + 8..i + 10];
        assert t[0..2] == s[j..j + 2] && t[3..5] == s[j + 3..j + 5];
        Some((d, t))
      else None
  }

  /** The unanchored search of the same pattern: the leftmost position from `i` on. */
  function FindDateTime(s: string, i: nat): (r: Option<(string, string)>)
    ensures r.Some? ==> exists p :: i <= p && DateTimeAt(s, p) == r
    ensures r.None? ==> forall p :: i <= p < |s| ==> DateTimeAt(s, p).None?
    decreases |s| - i
  {
    if i >= |s| then None
    else if DateTimeAt(s, i).Some? then DateTimeAt(s, i)
    else FindDateTime(s, i + 1)
  }

  /** A field `YYYY-MM-DD`, white space, `HH:MM` is matched at its start. */
  lemma DateTimeOfField(d: string, ws: string, t: string, rest: string)
    requires |d| == 10 && DateAt(d, 0) && ClockAt(t, 0) && |t| == 5
    requires forall k :: 0 <= k < |ws| ==> IsSpace(ws[k])
    ensures DateTimeAt(d + ws + t + rest, 0) == Some((d, t))
  {
    var s := d + ws + t + rest;
    var j := 10 + |ws|;
    assert s[0..10] == d;
    assert s[0..4] == d[0..4] && s[5..7] == d[5..7] && s[8..10] == d[8..10];
    assert DateAt(s, 0);
    assert s[10..] == ws + (t + rest);
    assert IsDigit(t[0]) by { assert t[0..2][0] == t[0]; }
    SpaceRunOf(ws, t + rest);
    assert s[j..j + 5] == t;
    assert s[j..j + 2] == t[0..2] && s[j + 3..j + 5] == t[3..5];
    assert ClockAt(s, j);
  }

  lemma SpaceRunOf(ws: string, rest: string)
    requires forall k :: 0 <= k < |ws| ==> IsSpace(ws[k])
    requires rest == [] || !IsSpace(rest[0])
    ensures SpaceRun(ws + rest) == |ws|
    decreases |ws|
  {
    var s := ws + rest;
    if ws != [] {
      assert s[0] == ws[0] && IsSpace(s[0]);
      assert s[1..] == ws[1..] + rest;
      SpaceRunOf(ws[1..], rest);
      assert SpaceRun(s) == 1 + SpaceRun(s[1..]);
    } else {
      assert s == rest;
    }
  }
}
