/** The JavaScript string and number-parsing primitives the web layer relies on:
    `trim`, `parseInt`/`parseFloat` (radix 10), `String(n).padStart(2, '0')`,
    `startsWith`/`endsWith`, `split`, ASCII `toLowerCase` and the code-unit
    ordering that `<`, `>=` and `localeCompare` use on strings. */
module JsText {
  import opened Wrappers

  predicate IsDigit(c: char) { '0' <= c <= '9' }

  function DigitVal(c: char): nat
    requires IsDigit(c)
  {
    c as int - '0' as int
  }

  function DigitChar(d: nat): char
    requires d < 10
  {
    ('0' as int + d) as char
  }

  predicate AllDigits(s: string) { forall i :: 0 <= i < |s| ==> IsDigit(s[i]) }

  /** The white-space set of `String.prototype.trim` (line terminators and the
      common Unicode spaces). */
  predicate IsSpace(c: char) {
    if c <= ' ' then c == ' ' || '\t' <= c <= '\r'
    else if c < '\U{00A0}' then false
    else c == '\U{00A0}' || c == '\U{1680}' || ('\U{2000}' <= c <= '\U{200A}')
         || c == '\U{2028}' || c == '\U{2029}' || c == '\U{202F}' || c == '\U{205F}'
         || c == '\U{3000}' || c == '\U{FEFF}'
  }

  /** `s.trimStart()`: drops the leading white space and nothing else. */
  function TrimStart(s: string): (r: string)
    ensures |r| <= |s| && r == s[|s| - |r|..]
    ensures r == [] || !IsSpace(r[0])
  {
    if s != [] && IsSpace(s[0]) then TrimStart(s[1..]) else s
  }

  /** `s.trimEnd()`: drops the trailing white space and nothing else. */
  function TrimEnd(s: string): (r: string)
    ensures |r| <= |s| && r == s[..|r|]
    ensures r == [] || !IsSpace(r[|r| - 1])
  {
    if s != [] && IsSpace(s[|s| - 1]) then TrimEnd(s[..|s| - 1]) else s
  }

  /** `s.trim()`. */
  function Trim(s: string): string {
    TrimEnd(TrimStart(s))
  }

  /** A line is kept by `.filter(line => line.trim())` iff it is not all white space. */
  predicate IsBlank(s: string) { Trim(s) == [] }

  /** Length of the run of decimal digits at the start of `s`. */
  function DigitRun(s: string): (n: nat)
    ensures n <= |s| && AllDigits(s[..n])
    ensures n < |s| ==> !IsDigit(s[n])
  {
    if s != [] && IsDigit(s[0]) then
      var m := DigitRun(s[1..]);
      assert s[..1 + m] == [s[0]] + s[1..][..m];
      1 + m
    else 0
  }

  /** The value of a string of decimal digits. */
  function DigitsValue(d: string): nat
    requires AllDigits(d)
  {
    if d == [] then 0 else DigitsValue(d[..|d| - 1]) * 10 + DigitVal(d[|d| - 1])
  }

  /** The value of the digits after a decimal point: 0.d0 d1 d2 ... */
  function FracValue(d: string): real
    requires AllDigits(d)
  {
    if d == [] then 0.0 else (DigitVal(d[0]) as real + FracValue(d[1..])) / 10.0
  }

  /** A leading `+` or `-`: whether the number is negated, and the rest of the text. */
  function SplitSign(t: string): (bool, string) {
    if t != [] && t[0] == '-' then (true, t[1..])
    else if t != [] && t[0] == '+' then (false, t[1..])
    else (false, t)
  }

  /** `parseInt(s)` read in base 10: optional white space and sign, then the
      longest run of decimal digits; `None` (NaN) when there is no digit. A
      "0x" or "0X" prefix, which `parseInt` without a radix reads in base 16,
      gives 0 here. */
  function ParseInt(s: string): Option<int> {
    var (negative, u) := SplitSign(TrimStart(s));
    var k := DigitRun(u);
    if k == 0 then None
    else if negative then Some(-(DigitsValue(u[..k]) as int))
    else Some(DigitsValue(u[..k]))
  }

  /** `parseFloat(s)`: optional white space and sign, then the longest prefix of
      the form digits[.digits] or .digits; `None` (NaN) when it has no digit. */
  function ParseFloat(s: string): Option<real> {
    var (negative, u) := SplitSign(TrimStart(s));
    var k := DigitRun(u);
    var rest := u[k..];
    var m := if rest != [] && rest[0] == '.' then DigitRun(rest[1..]) else 0;
    if k == 0 && m == 0 then None
    else
      var v := DigitsValue(u[..k]) as real + (if m == 0 then 0.0 else FracValue(rest[1..][..m]));
      Some(if negative then -v else v)
  }

  /** `parseFloat(s) || 0`. */
  function ParseFloatOr0(s: string): real {
    OrZero(ParseFloat(s))
  }

  /** `String(n)` for a natural number. */
  function NatToString(n: nat): (r: string)
    ensures |r| > 0 && AllDigits(r)
    ensures n >= 10 ==> |r| >= 2
  {
    if n < 10 then [DigitChar(n)] else NatToString(n / 10) + [DigitChar(n % 10)]
  }

  /** `String(n)` for an integer. */
  function IntToString(n: int): string {
    if n < 0 then "-" + NatToString(-n) else NatToString(n)
  }

  /** `String(n).padStart(2, '0')`. */
  function Pad2(n: nat): (r: string)
    ensures AllDigits(r)
  {
    if n < 10 then "0" + NatToString(n) else NatToString(n)
  }

  lemma {:induction false} NatToStringValue(n: nat)
    ensures DigitsValue(NatToString(n)) == n
    ensures n > 0 ==> NatToString(n)[0] != '0'
    ensures n < 10 ==> |NatToString(n)| == 1
    ensures 10 <= n < 100 ==> |NatToString(n)| == 2
    ensures 100 <= n < 1000 ==> |NatToString(n)| == 3
    ensures 1000 <= n < 10000 ==> |NatToString(n)| == 4
  {
    var s := NatToString(n);
    if n < 10 {
      assert s[..0] == [];
      assert DigitVal(DigitChar(n)) == n;
    } else {
      var p := NatToString(n / 10);
      NatToStringValue(n / 10);
      assert s == p + [DigitChar(n % 10)];
      assert s[..|s| - 1] == p;
      assert DigitVal(DigitChar(n % 10)) == n % 10;
      assert DigitsValue(s) == DigitsValue(p) * 10 + n % 10;
      assert s[0] == p[0];
    }
  }

  /** A two-digit field written by `Pad2` reads back as the same number. */
  lemma Pad2Value(n: nat)
    requires n < 100
    ensures |Pad2(n)| == 2 && DigitsValue(Pad2(n)) == n
  {
    NatToStringValue(n);
    if n < 10 {
      var s := Pad2(n);
      assert s[..1] == "0";
    }
  }

  lemma DigitsValueBound(d: string)
    requires AllDigits(d)
    ensures |d| == 2 ==> DigitsValue(d) < 100
    ensures |d| == 4 ==> DigitsValue(d) < 10000
    ensures |d| == 4 && d[0] != '0' ==> DigitsValue(d) >= 1000
  {
    if |d| == 2 {
      assert DigitsValue(d[..1]) == DigitVal(d[0]);
    } else if |d| == 4 {
      var a3 := d[..3];
      var a2 := a3[..2];
      var a1 := a2[..1];
      assert a1[..0] == [];
      var v1 := DigitsValue(a1);
      assert v1 == DigitVal(d[0]);
      var v2 := DigitsValue(a2);
      assert v2 == v1 * 10 + DigitVal(d[1]);
      var v3 := DigitsValue(a3);
      assert v3 == v2 * 10 + DigitVal(d[2]);
      assert DigitsValue(d) == v3 * 10 + DigitVal(d[3]);
      assert v2 < 100;
      assert v3 < 1000;
    }
  }

  /** Two digit strings of the same length with the same value are equal, so a
      fixed-width field is determined by its number. */
  lemma {:induction false} DigitsValueInjective(a: string, b: string)
    requires AllDigits(a) && AllDigits(b) && |a| == |b|
    requires DigitsValue(a) == DigitsValue(b)
    ensures a == b
  {
    if a != [] {
      var n := |a| - 1;
      assert DigitsValue(a) == DigitsValue(a[..n]) * 10 + DigitVal(a[n]);
      assert DigitsValue(b) == DigitsValue(b[..n]) * 10 + DigitVal(b[n]);
      PlaceValues(DigitsValue(a[..n]), DigitVal(a[n]), DigitsValue(b[..n]), DigitVal(b[n]));
      DigitsValueInjective(a[..n], b[..n]);
      assert a[n] == b[n];
      assert a == a[..n] + [a[n]] && b == b[..n] + [b[n]];
    }
  }

  /** A number written as tens and a last digit has one such writing. */
  lemma PlaceValues(x: nat, d: nat, y: nat, e: nat)
    requires d < 10 && e < 10 && x * 10 + d == y * 10 + e
    ensures x == y && d == e
  {
  }

  /** `parseInt` reads a whole string of digits as its value. */
  lemma ParseIntDigits(d: string)
    requires |d| > 0 && AllDigits(d)
    ensures ParseInt(d) == Some(DigitsValue(d))
  {
    assert TrimStart(d) == d;
    assert SplitSign(d) == (false, d);
    DigitRunAll(d);
    assert d[..|d|] == d;
  }

  lemma {:induction false} DigitRunAll(d: string)
    requires AllDigits(d)
    ensures DigitRun(d) == |d|
  {
    if d != [] { DigitRunAll(d[1..]); }
  }

  // ---------------------------------------------------------------- case

  /** `toLowerCase` of one character, on these capitals: U+0041-U+005A,
      U+00C0-U+00DE but U+00D7, the capitals of the capital-small pairs of
      Latin Extended-A (U+0100-U+017E, but not U+0130) with U+0178, the Greek
      U+0391-U+03A9 and the Cyrillic U+0400-U+042F. Every other character,
      the accented Greek capitals and the Cyrillic capitals from U+0460 on
      among them, is left as it is. */
  function LowerChar(c: char): (r: char)
    ensures 'A' <= c <= 'Z' ==> r as int == c as int + 32
    ensures 'a' <= c <= 'z' || '0' <= c <= '9' ==> r == c
  {
    var n := c as int;
    if n < 0x41 || 0x5A < n < 0xC0 then c
    else if n <= 0x5A || (n <= 0xDE && n != 0xD7) || (0x391 <= n <= 0x3A9 && n != 0x3A2)
      || 0x410 <= n <= 0x42F
    then (n + 32) as char
    else if 0x400 <= n <= 0x40F then (n + 80) as char
    else if (0x100 <= n <= 0x12F || 0x132 <= n <= 0x137 || 0x14A <= n <= 0x177) && n % 2 == 0
    then (n + 1) as char
    else if (0x139 <= n <= 0x148 || 0x179 <= n <= 0x17E) && n % 2 == 1 then (n + 1) as char
    else if n == 0x178 then 0xFF as char
    else c
  }

  /** A small letter stays small: lower-casing twice is lower-casing once. */
  lemma LowerCharTwice(c: char)
    ensures LowerChar(LowerChar(c)) == LowerChar(c)
  {
  }

  function ToLower(s: string): (r: string)
    ensures |r| == |s| && forall i :: 0 <= i < |s| ==> r[i] == LowerChar(s[i])
  {
    if s == [] then [] else [LowerChar(s[0])] + ToLower(s[1..])
  }

  /** `toUpperCase` of one character, on the small letters of the pairs
      `LowerChar` folds, with the final sigma also becoming a capital sigma;
      every other character is left as it is. */
  function UpperChar(c: char): (r: char)
    ensures 'a' <= c <= 'z' ==> r as int == c as int - 32
    ensures 'A' <= c <= 'Z' || '0' <= c <= '9' ==> r == c
  {
    var n := c as int;
    if n < 0x61 || 0x7A < n < 0xE0 then c
    else if n <= 0x7A || (n <= 0xFE && n != 0xF7) || (0x3B1 <= n <= 0x3C9 && n != 0x3C2)
      || 0x430 <= n <= 0x44F
    then (n - 32) as char
    else if n == 0x3C2 then 0x3A3 as char
    else if 0x450 <= n <= 0x45F then (n - 80) as char
    else if (0x101 <= n <= 0x12F || 0x133 <= n <= 0x137 || 0x14B <= n <= 0x177) && n % 2 == 1
    then (n - 1) as char
    else if (0x13A <= n <= 0x148 || 0x17A <= n <= 0x17E) && n % 2 == 0 then (n - 1) as char
    else if n == 0xFF then 0x178 as char
    else c
  }

  /** Upper-casing a capital's small letter gives the capital back. */
  lemma UpperOfLower(c: char)
    requires LowerChar(c) != c
    ensures UpperChar(LowerChar(c)) == c
  {
  }

  // ---------------------------------------------------------------- pieces

  predicate StartsWith(s: string, p: string) { |p| <= |s| && s[..|p|] == p }

  predicate EndsWith(s: string, p: string) { |p| <= |s| && s[|s| - |p|..] == p }

  /** `s.replace(/c/g, '')`: every occurrence of `c` removed. */
  function RemoveChar(s: string, c: char): (r: string)
    ensures c !in r
    ensures forall x :: x != c ==> (x in r <==> x in s)
  {
    if s == [] then [] else (if s[0] == c then [] else [s[0]]) + RemoveChar(s[1..], c)
  }

  /** Index of the first `c` in `s`, or `|s|` when there is none. */
  function IndexOf(s: string, c: char): (i: nat)
    ensures i <= |s| && c !in s[..i]
    ensures i < |s| ==> s[i] == c
  {
    if s == [] then 0 else if s[0] == c then 0
    else
      var j := IndexOf(s[1..], c);
      assert s[..1 + j] == [s[0]] + s[1..][..j];
      1 + j
  }

  /** `s.split(c)` for a one-character separator: the pieces between the
      separators, never an empty list. */
  function Split(s: string, c: char): (r: seq<string>)
    ensures |r| > 0
    ensures forall k :: 0 <= k < |r| ==> c !in r[k]
    decreases |s|
  {
    var i := IndexOf(s, c);
    if i == |s| then [s] else [s[..i]] + Split(s[i + 1..], c)
  }

  /** Joining the pieces of `Split` with the separator gives back the text. */
  lemma {:induction false} SplitJoin(s: string, c: char)
    ensures Join(Split(s, c), c) == s
    decreases |s|
  {
    var i := IndexOf(s, c);
    if i < |s| {
      SplitJoin(s[i + 1..], c);
      assert s == s[..i] + [c] + s[i + 1..];
    }
  }

  function Join(pieces: seq<string>, c: char): string
    requires |pieces| > 0
  {
    if |pieces| == 1 then pieces[0] else pieces[0] + [c] + Join(pieces[1..], c)
  }

  // ---------------------------------------------------------------- ordering

  /** JavaScript's `a < b` on strings: lexicographic order of the characters. */
  predicate StrLt(a: string, b: string) {
    if a == [] then b != []
    else if b == [] then false
    else a[0] < b[0] || (a[0] == b[0] && StrLt(a[1..], b[1..]))
  }

  /** `a <= b` on strings. */
  predicate StrLe(a: string, b: string) { !StrLt(b, a) }

  lemma {:induction false} StrLtIrreflexive(a: string)
    ensures !StrLt(a, a)
  {
    if a != [] { StrLtIrreflexive(a[1..]); }
  }

  lemma {:induction false} StrLtTransitive(a: string, b: string, c: string)
    requires StrLt(a, b) && StrLt(b, c)
    ensures StrLt(a, c)
  {
    if a != [] && b != [] && c != [] && a[0] == b[0] && b[0] == c[0] {
      StrLtTransitive(a[1..], b[1..], c[1..]);
    }
  }

  lemma {:induction false} StrLtTotal(a: string, b: string)
    ensures a == b || StrLt(a, b) || StrLt(b, a)
  {
    if a != [] && b != [] && a[0] == b[0] {
      StrLtTotal(a[1..], b[1..]);
      if a[1..] == b[1..] { assert a == [a[0]] + a[1..] && b == [b[0]] + b[1..]; }
    }
  }

  /** `<=` on strings is a total order: reflexive, total, transitive and antisymmetric. */
  lemma StrLeTotalOrder()
    ensures forall a :: StrLe(a, a)
    ensures forall a, b :: StrLe(a, b) || StrLe(b, a)
    ensures forall a, b, c :: StrLe(a, b) && StrLe(b, c) ==> StrLe(a, c)
    ensures forall a, b :: StrLe(a, b) && StrLe(b, a) ==> a == b
  {
    forall a ensures StrLe(a, a) { StrLtIrreflexive(a); }
    forall a, b ensures StrLe(a, b) || StrLe(b, a) {
      if StrLt(a, b) && StrLt(b, a) { StrLtTransitive(a, b, a); StrLtIrreflexive(a); }
    }
    forall a, b, c | StrLe(a, b) && StrLe(b, c) ensures StrLe(a, c) {
      StrLtTotal(a, b); StrLtTotal(b, c);
      if StrLt(c, a) {
        if a == b { } else if b == c { }
        else {
          assert StrLt(a, b) && StrLt(b, c);
          StrLtTransitive(a, b, c); StrLtTransitive(c, a, c); StrLtIrreflexive(c);
        }
      }
    }
    forall a, b | StrLe(a, b) && StrLe(b, a) ensures a == b { StrLtTotal(a, b); }
  }

  lemma StrLtAsymmetric(a: string, b: string)
    ensures !(StrLt(a, b) && StrLt(b, a))
  {
    if StrLt(a, b) && StrLt(b, a) {
      StrLtTransitive(a, b, a);
      StrLtIrreflexive(a);
    }
  }

  /** `a.localeCompare(b)` as the sign of the code-unit order, which is what
      it gives on the digit-and-hyphen texts of dates and times. */
  function StrCompare(a: string, b: string): (r: int)
    ensures r == -1 <==> StrLt(a, b)
    ensures r == 1 <==> StrLt(b, a)
    ensures r == 0 <==> a == b
  {
    StrLtTotal(a, b);
    StrLtAsymmetric(a, b);
    StrLtIrreflexive(a);
    if StrLt(a, b) then -1 else if StrLt(b, a) then 1 else 0
  }

  /** Splitting pieces joined with a separator none of them contains gives
      back the pieces. */
  lemma {:induction false} SplitOfJoin(pieces: seq<string>, c: char)
    requires |pieces| > 0
    requires forall k :: 0 <= k < |pieces| ==> c !in pieces[k]
    ensures Split(Join(pieces, c), c) == pieces
    decreases |pieces|
  {
    if |pieces| > 1 {
      SplitCons(pieces[0], c, Join(pieces[1..], c));
      SplitOfJoin(pieces[1..], c);
      assert pieces == [pieces[0]] + pieces[1..];
    } else {
      IndexOfNone(pieces[0], c);
    }
  }

  /** A piece without the separator, the separator and a rest split into
      that piece and the split rest. */
  lemma SplitCons(a: string, c: char, b: string)
    requires c !in a
    ensures Split(a + [c] + b, c) == [a] + Split(b, c)
  {
    var s := a + [c] + b;
    IndexOfFirst(a, c, b);
    assert s[..|a|] == a;
    assert s[|a| + 1..] == b;
  }

  lemma {:induction false} IndexOfFirst(a: string, c: char, b: string)
    requires c !in a
    ensures IndexOf(a + [c] + b, c) == |a|
    decreases |a|
  {
    if a != [] {
      IndexOfFirst(a[1..], c, b);
      assert (a + [c] + b)[1..] == a[1..] + [c] + b;
    }
  }

  lemma {:induction false} IndexOfNone(a: string, c: char)
    requires c !in a
    ensures IndexOf(a, c) == |a|
    decreases |a|
  {
    if a != [] {
      IndexOfNone(a[1..], c);
    }
  }
}
