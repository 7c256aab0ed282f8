/**
 * The service's date canonicaliser (`formatDate` in
 * src/services/googleSheetsService.js). Every date written to or read from
 * the sheet goes through it, and the board buckets orders by the resulting
 * `DD.MM.YYYY` text.
 */
module DateFormat {

  /** What the JavaScript runtime makes of a string containing 'T'
      (`new Date(s)` printed as day.month.year in the local timezone). */
  type IsoConverter = string -> string

  predicate IsDigit(c: char) {
    '0' <= c <= '9'
  }

  predicate AllDigits(s: string) {
    forall i :: 0 <= i < |s| ==> IsDigit(s[i])
  }

  /** `s` matches `^\d{2}<sep>\d{2}<sep>\d{4}$` */
  predicate IsDayFirst(s: string, sep: char) {
    |s| == 10 && s[2] == sep && s[5] == sep &&
    AllDigits(s[..2]) && AllDigits(s[3..5]) && AllDigits(s[6..])
  }

  /** `DD/MM/YYYY` */
  predicate IsSlashDate(s: string) {
    IsDayFirst(s, '/')
  }

  /** `DD.MM.YYYY`, the canonical form */
  predicate IsCanonical(s: string) {
    IsDayFirst(s, '.')
  }

  /** `YYYY-MM-DD` */
  predicate IsIsoDay(s: string) {
    |s| == 10 && s[4] == '-' && s[7] == '-' &&
    AllDigits(s[..4]) && AllDigits(s[5..7]) && AllDigits(s[8..])
  }

  /** None of the three patterns matches. */
  predicate Unrecognised(s: string) {
    !IsSlashDate(s) && !IsCanonical(s) && !IsIsoDay(s)
  }

  /** The three textual renderings of one (day, month, year) triple. */
  function DotForm(d: string, m: string, y: string): string {
    d + "." + m + "." + y
  }

  function SlashForm(d: string, m: string, y: string): string {
    d + "/" + m + "/" + y
  }

  function IsoForm(d: string, m: string, y: string): string {
    y + "-" + m + "-" + d
  }

  /** Digit groups of the right widths: a day, a month and a four-digit year. */
  predicate Fields(d: string, m: string, y: string) {
    |d| == 2 && |m| == 2 && |y| == 4 && AllDigits(d) && AllDigits(m) && AllDigits(y)
  }

  /**
   * formatDate: the empty string stays empty, a string containing 'T' goes
   * to the runtime's Date conversion, the first of the three patterns that
   * matches is rewritten to `DD.MM.YYYY`, and anything else comes back as it
   * was.
   */
  function FormatDate(iso: IsoConverter, s: string): (r: string)
    ensures s == "" ==> r == ""
    ensures 'T' !in s ==> if Unrecognised(s) then r == s else IsCanonical(r)
  {
    if s == "" then ""
    else if 'T' in s then iso(s)
    else if IsSlashDate(s) then DotForm(s[..2], s[3..5], s[6..])
    else if IsCanonical(s) then s
    else if IsIsoDay(s) then DotForm(s[8..], s[5..7], s[..4])
    else s
  }

  lemma DotFormParts(d: string, m: string, y: string)
    requires |d| == 2 && |m| == 2 && |y| == 4
    ensures var s := DotForm(d, m, y);
      |s| == 10 && s[2] == '.' && s[5] == '.' && s[..2] == d && s[3..5] == m && s[6..] == y
  {
    var s := DotForm(d, m, y);
    assert s == d + ['.'] + m + ['.'] + y;
  }

  lemma SlashFormParts(d: string, m: string, y: string)
    requires |d| == 2 && |m| == 2 && |y| == 4
    ensures var s := SlashForm(d, m, y);
      |s| == 10 && s[2] == '/' && s[5] == '/' && s[..2] == d && s[3..5] == m && s[6..] == y
  {
    var s := SlashForm(d, m, y);
    assert s == d + ['/'] + m + ['/'] + y;
  }

  lemma IsoFormParts(d: string, m: string, y: string)
    requires |d| == 2 && |m| == 2 && |y| == 4
    ensures var s := IsoForm(d, m, y);
      |s| == 10 && s[4] == '-' && s[7] == '-' && s[..4] == y && s[5..7] == m && s[8..] == d
  {
    var s := IsoForm(d, m, y);
    assert s == y + ['-'] + m + ['-'] + d;
  }

  /** A string built only from digits and two separators has no 'T'. */
  lemma NoTInForm(a: string, b: string, c: string, sep1: char, sep2: char)
    requires AllDigits(a) && AllDigits(b) && AllDigits(c) && sep1 != 'T' && sep2 != 'T'
    ensures 'T' !in a + [sep1] + b + [sep2] + c
  {
    var s := a + [sep1] + b + [sep2] + c;
    forall i | 0 <= i < |s|
      ensures s[i] != 'T'
    {
      if i < |a| {
        assert s[i] == a[i];
      } else if |a| < i < |a| + 1 + |b| {
        assert s[i] == b[i - |a| - 1];
      } else if |a| + 1 + |b| < i {
        assert s[i] == c[i - |a| - |b| - 2];
      }
    }
  }

  /**
   * The three accepted spellings of one date canonicalise to the same
   * `DD.MM.YYYY` key, keeping the day, month and year digits.
   */
  lemma {:induction false} SameDateSameKey(iso: IsoConverter, d: string, m: string, y: string)
    requires Fields(d, m, y)
    ensures FormatDate(iso, SlashForm(d, m, y)) == DotForm(d, m, y)
    ensures FormatDate(iso, DotForm(d, m, y)) == DotForm(d, m, y)
    ensures FormatDate(iso, IsoForm(d, m, y)) == DotForm(d, m, y)
  {
    DotFormParts(d, m, y);
    SlashFormParts(d, m, y);
    IsoFormParts(d, m, y);
    NoTInForm(d, m, y, '/', '/');
    NoTInForm(d, m, y, '.', '.');
    NoTInForm(y, m, d, '-', '-');
    assert !IsSlashDate(IsoForm(d, m, y)) by {
      assert IsoForm(d, m, y)[2] == y[2];
    }
    assert !IsCanonical(IsoForm(d, m, y)) by {
      assert IsoForm(d, m, y)[2] == y[2];
    }
  }

  /** Every recognised, 'T'-free input is one spelling of a (day, month, year)
      triple, and its key is that triple in dot form. */
  lemma {:induction false} RecognisedIsSpelling(iso: IsoConverter, s: string)
    requires 'T' !in s && !Unrecognised(s)
    ensures exists d, m, y ::
      && Fields(d, m, y)
      && FormatDate(iso, s) == DotForm(d, m, y)
      && (s == SlashForm(d, m, y) || s == DotForm(d, m, y) || s == IsoForm(d, m, y))
  {
    if IsSlashDate(s) || IsCanonical(s) {
      var d, m, y := s[..2], s[3..5], s[6..];
      assert s == d + [s[2]] + m + [s[5]] + y;
      SameDateSameKey(iso, d, m, y);
      assert Fields(d, m, y) && FormatDate(iso, s) == DotForm(d, m, y);
    } else {
      var d, m, y := s[8..], s[5..7], s[..4];
      assert s == y + [s[4]] + m + [s[7]] + d;
      SameDateSameKey(iso, d, m, y);
      assert Fields(d, m, y) && FormatDate(iso, s) == DotForm(d, m, y);
    }
  }

  /** Canonicalising twice is canonicalising once, on every 'T'-free input. */
  lemma {:induction false} FormatDateIdempotent(iso: IsoConverter, s: string)
    requires 'T' !in s
    ensures 'T' !in FormatDate(iso, s)
    ensures FormatDate(iso, FormatDate(iso, s)) == FormatDate(iso, s)
  {
    var r := FormatDate(iso, s);
    if IsCanonical(r) {
      assert r == DotForm(r[..2], r[3..5], r[6..]);
      SameDateSameKey(iso, r[..2], r[3..5], r[6..]);
    }
  }

  /** A date text already in `DD.MM.YYYY` form, or matching none of the
      patterns, is left as it is. */
  lemma SettledForms(iso: IsoConverter, s: string)
    requires 'T' !in s && (IsCanonical(s) || Unrecognised(s))
    ensures FormatDate(iso, s) == s
  {
  }

  /** The worked example: 15 March 2024 in each accepted spelling. */
  lemma CanonicalExample(iso: IsoConverter)
    ensures FormatDate(iso, "15/03/2024") == "15.03.2024"
    ensures FormatDate(iso, "15.03.2024") == "15.03.2024"
    ensures FormatDate(iso, "2024-03-15") == "15.03.2024"
  {
    assert SlashForm("15", "03", "2024") == "15/03/2024";
    assert DotForm("15", "03", "2024") == "15.03.2024";
    assert IsoForm("15", "03", "2024") == "2024-03-15";
    SameDateSameKey(iso, "15", "03", "2024");
  }
}
