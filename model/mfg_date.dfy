/** The manufacturing-date dialog (`MfgDateModal`): the input mask applied
    as the user types, and the validation and conversion of an `MM/YY` text to
    the `20YY-MM-01` date handed on when it is saved. Closing the dialog is
    left out. */
module MfgDate {
  import opened Wrappers
  import opened JsText
  import opened Seqs

  /** The characters the mask lets through: digits and `/`. */
  predicate MaskChar(c: char) { IsDigit(c) || c == '/' }

  function MaskTest(): char -> bool { (c: char) => MaskChar(c) }

  /** `handleInputChange`: every character but digits and `/` removed, a
      `/` added after two characters that have none, and the text cut to
      five characters. */
  function Masked(raw: string): (r: string)
    ensures |r| <= 5
    ensures forall i :: 0 <= i < |r| ==> MaskChar(r[i])
  {
    var v := Filter(raw, MaskTest());
    var w := if |v| == 2 && '/' !in v then v + "/" else v;
    if |w| > 5 then w[..5] else w
  }

  /** The mask leaves its own output alone. */
  lemma MaskedIdempotent(raw: string)
    ensures Masked(Masked(raw)) == Masked(raw)
  {
    var m := Masked(raw);
    FilterAll(m, MaskTest());
    var v := Filter(raw, MaskTest());
    if |v| == 2 && '/' !in v {
      assert |m| == 3;
    }
  }

  /** Typing `0` then `1` shows `0`, then `01/`. */
  lemma TypingMonth()
    ensures Masked("0") == "0" && Masked("01") == "01/"
  {
    FilterAll("0", MaskTest());
    FilterAll("01", MaskTest());
  }

  /** Typing on to `01/25` keeps the text; a sixth character is cut off. */
  lemma TypingYear()
    ensures Masked("01/25") == "01/25" && Masked("01/256") == "01/25"
  {
    FilterAll("01/25", MaskTest());
    FilterAll("01/256", MaskTest());
  }

  /** Letters and other signs are dropped: `1a2` reads as `12/`. */
  lemma MaskDropsLetters()
    ensures Masked("1a2") == "12/"
  {
    assert !MaskChar('a');
    assert Filter("1a2", MaskTest()) == "12" by {
      assert "1a2"[1..] == "a2";
      assert "a2"[1..] == "2";
      assert Filter("2", MaskTest()) == "2";
      assert Filter("a2", MaskTest()) == "2";
    }
  }

  // ------------------------------------------------------------ saving

  /** `/^(0[1-9]|1[0-2])\/([0-9]{2})$/`: a month 01 to 12, a slash, two
      digits. */
  predicate ValidMmYy(s: string) {
    |s| == 5 && s[2] == '/' && IsDigit(s[3]) && IsDigit(s[4])
    && ((s[0] == '0' && '1' <= s[1] <= '9') || (s[0] == '1' && '0' <= s[1] <= '2'))
  }

  /** A text the pattern accepts names a month from 1 to 12, and the mask
      leaves it as it is. */
  lemma ValidMmYySpec(s: string)
    requires ValidMmYy(s)
    ensures AllDigits(s[..2]) && 1 <= DigitsValue(s[..2]) <= 12
    ensures Masked(s) == s
  {
    var m := s[..2];
    assert m[..1] == [s[0]];
    assert [s[0]][..0] == [];
    assert DigitsValue([s[0]]) == DigitVal(s[0]);
    assert m[1] == s[1];
    assert DigitsValue(m) == DigitVal(s[0]) * 10 + DigitVal(s[1]);
    FilterAll(s, MaskTest());
  }

  /** `value.split('/')` of an accepted text: the month and the year. */
  lemma SplitValid(s: string)
    requires ValidMmYy(s)
    ensures Split(s, '/') == [s[..2], s[3..]]
  {
    var a, b := s[..2], s[3..];
    assert [a, b][1..] == [b];
    assert Join([a, b], '/') == a + ['/'] + b;
    assert s == a + ['/'] + b;
    SplitOfJoin([a, b], '/');
  }

  /** What `onSave` receives: the date for internal use and the text shown. */
  datatype SavedDate = SavedDate(iso: string, display: string)

  /** `handleSave`: nothing for a text that is not `MM/YY` with a month 01
      to 12; otherwise `20YY-MM-01` and the text itself. */
  function Saved(value: string): Option<SavedDate> {
    if !ValidMmYy(value) then None
    else
      SplitValid(value);
      var parts := Split(value, '/');
      Some(SavedDate("20" + parts[1] + "-" + parts[0] + "-01", value))
  }

  /** A save succeeds exactly for an accepted text; the date is then ten
      characters `20YY-MM-01`, from which the text shown is rebuilt as
      month, slash, year. */
  lemma SavedSpec(value: string)
    ensures Saved(value).Some? <==> ValidMmYy(value)
    ensures Saved(value).Some? ==>
      var d := Saved(value).value;
      d.display == value && |d.iso| == 10
      && d.iso[..2] == "20" && d.iso[4] == '-' && d.iso[7] == '-' && d.iso[8..] == "01"
      && d.iso[5..7] + "/" + d.iso[2..4] == value
  {
    if ValidMmYy(value) {
      SplitValid(value);
      var iso := Saved(value).value.iso;
      assert iso == "20" + value[3..] + "-" + value[..2] + "-01";
      assert iso[5..7] == value[..2];
      assert iso[2..4] == value[3..];
      assert value == value[..2] + "/" + value[3..];
    }
  }

  /** The saved date of `03/24`. */
  lemma SaveExample()
    ensures Saved("03/24") == Some(SavedDate("2024-03-01", "03/24"))
    ensures Saved("13/24").None? && Saved("3/24").None? && Saved("00/24").None?
  {
    SplitValid("03/24");
    assert "03/24"[..2] == "03" && "03/24"[3..] == "24";
    assert "20" + "24" + "-" + "03" + "-01" == "2024-03-01";
  }

  /** The dialog's state. */
  class MfgDateInput {
    var value: string
    var error: bool

    constructor (initialValue: string)
      ensures value == initialValue && !error
    {
      value := initialValue;
      error := false;
    }

    /** `handleSave`: the date handed on, if the text is accepted; the error
        flag says whether it was refused. */
    method Save() returns (saved: Option<SavedDate>)
      modifies this
      ensures saved == Saved(old(value))
      ensures value == old(value) && error == !ValidMmYy(value)
    {
      if !ValidMmYy(value) {
        error := true;
        return None;
      }
      error := false;
      SplitValid(value);
      var parts := Split(value, '/');
      saved := Some(SavedDate("20" + parts[1] + "-" + parts[0] + "-01", value));
    }

    /** `handleInputChange`: the masked text, and no error shown. */
    method InputChange(raw: string)
      modifies this
      ensures value == Masked(raw) && !error
    {
      value := Masked(raw);
      error := false;
    }
  }
}
