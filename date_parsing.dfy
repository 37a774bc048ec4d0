/**
 * The dashboard's `parse_date`: `datetime.strptime(value, "%Y-%m-%d").date()`,
 * with an absent or empty value and every ValueError turned into None; and the
 * `strftime('%Y-%m-%d')` spelling used for the trend labels.
 *
 * CPython's strptime matches `%Y` with `\d\d\d\d`, `%m` with
 * `1[0-2]|0[1-9]|[1-9]` and `%d` with `3[01]|[12]\d|0[1-9]|[1-9]| [1-9]`,
 * requires the match to cover the whole string, and then raises ValueError
 * when `date(year, month, day)` does (year 0, or a day past the month's end).
 */
module DateParsing {
  import opened Wrappers
  import opened Digits
  import opened Calendar

  predicate IsNonZeroDigit(c: char) {
    '1' <= c <= '9'
  }

  /** Zero-padded two-digit spelling (`%m`, `%d` in strftime). */
  function Pad2(n: nat): (s: string)
    requires n <= 99
    ensures |s| == 2 && IsDigit(s[0]) && IsDigit(s[1])
    ensures 10 * DigitValue(s[0]) + DigitValue(s[1]) == n
  {
    [DigitChar(n / 10), DigitChar(n % 10)]
  }

  /** Zero-padded four-digit spelling (`%Y` in strftime). */
  function Pad4(n: nat): (s: string)
    requires n <= 9999
    ensures |s| == 4 && IsDigit(s[0]) && IsDigit(s[1]) && IsDigit(s[2]) && IsDigit(s[3])
    ensures YearValue(s) == n
  {
    var s := Pad2(n / 100) + Pad2(n % 100);
    assert YearValue(s) == 100 * (n / 100) + n % 100;
    s
  }

  /** The value of the four digits `%Y` matched. */
  function YearValue(s: string): nat
    requires |s| >= 4 && IsDigit(s[0]) && IsDigit(s[1]) && IsDigit(s[2]) && IsDigit(s[3])
  {
    1000 * DigitValue(s[0]) + 100 * DigitValue(s[1]) + 10 * DigitValue(s[2]) + DigitValue(s[3])
  }

  /** `d.strftime('%Y-%m-%d')`. */
  function FormatDate(d: Date): (s: string)
    requires ValidDate(d)
    ensures |s| == 10 && s[4] == '-' && s[7] == '-'
  {
    Pad4(d.year) + "-" + Pad2(d.month) + "-" + Pad2(d.day)
  }

  /**
   * `%m` followed by the literal '-': the month and how many characters the
   * month took. The regex tries the two-character alternatives first; when the
   * '-' does not follow them it backtracks to `[1-9]`.
   */
  function MonthField(r: string): (f: Option<(int, nat)>)
    ensures f.Some? ==> 1 <= f.value.0 <= 12 && 1 <= f.value.1 <= 2 && f.value.1 < |r| && r[f.value.1] == '-'
  {
    if |r| >= 3 && ((r[0] == '1' && '0' <= r[1] <= '2') || (r[0] == '0' && IsNonZeroDigit(r[1]))) && r[2] == '-' then
      Some((10 * DigitValue(r[0]) + DigitValue(r[1]), 2))
    else if |r| >= 2 && IsNonZeroDigit(r[0]) && r[1] == '-' then
      Some((DigitValue(r[0]), 1))
    else
      None
  }

  /**
   * `%d` at the end of the format: the first alternative that matches must
   * also reach the end of the string, or strptime reports unconverted data.
   */
  function DayField(t: string): (f: Option<int>)
    ensures f.Some? ==> 1 <= f.value <= 31
  {
    if |t| == 2 && ((t[0] == '3' && (t[1] == '0' || t[1] == '1'))
                    || ((t[0] == '1' || t[0] == '2') && IsDigit(t[1]))
                    || (t[0] == '0' && IsNonZeroDigit(t[1]))) then
      Some(10 * DigitValue(t[0]) + DigitValue(t[1]))
    else if |t| == 1 && IsNonZeroDigit(t[0]) then
      Some(DigitValue(t[0]))
    else if |t| == 2 && t[0] == ' ' && IsNonZeroDigit(t[1]) then
      Some(DigitValue(t[1]))
    else
      None
  }

  /** `datetime.strptime(s, "%Y-%m-%d").date()`, None standing for ValueError. */
  function Strptime(s: string): (r: Option<Date>)
    ensures r.Some? ==> ValidDate(r.value)
  {
    if |s| < 5 || !(IsDigit(s[0]) && IsDigit(s[1]) && IsDigit(s[2]) && IsDigit(s[3])) || s[4] != '-' then
      None
    else
      var year := YearValue(s);
      match MonthField(s[5..])
      case None => None
      case Some((month, width)) =>
        match DayField(s[6 + width..])
        case None => None
        case Some(day) =>
          if MIN_YEAR <= year && day <= DaysInMonth(year, month) then Some(Date(year, month, day)) else None
  }

  /** `parse_date(value)`: it never raises. */
  function ParseDate(value: Option<string>): (r: Option<Date>)
    ensures value.None? || value == Some("") ==> r.None?
    ensures r.Some? ==> ValidDate(r.value)
  {
    if value.None? || value.value == "" then None else Strptime(value.value)
  }

  /** The spellings of month `m` that `%m` accepts. */
  predicate MonthSpelling(t: string, m: int)
    requires 1 <= m <= 12
  {
    t == Pad2(m) || (m <= 9 && t == [DigitChar(m)])
  }

  /** The spellings of day `d` that `%d` accepts. */
  predicate DaySpelling(t: string, d: int)
    requires 1 <= d <= 31
  {
    t == Pad2(d) || (d <= 9 && (t == [DigitChar(d)] || t == [' ', DigitChar(d)]))
  }

  /** `s` is one of the `%Y-%m-%d` spellings of the valid date `d`. */
  predicate Spells(s: string, d: Date)
    requires ValidDate(d)
  {
    |s| >= 5 && s[..4] == Pad4(d.year) && s[4] == '-' &&
    ((|s| >= 7 && MonthSpelling(s[5..6], d.month) && s[6] == '-' && DaySpelling(s[7..], d.day)) ||
     (|s| >= 8 && MonthSpelling(s[5..7], d.month) && s[7] == '-' && DaySpelling(s[8..], d.day)))
  }

  /** Two digits are the zero-padded spelling of their value. */
  lemma Pad2OfDigits(a: char, b: char)
    requires IsDigit(a) && IsDigit(b)
    ensures Pad2(10 * DigitValue(a) + DigitValue(b)) == [a, b]
  {
    var n := 10 * DigitValue(a) + DigitValue(b);
    assert n / 10 == DigitValue(a) && n % 10 == DigitValue(b);
  }

  /** Four digits are the zero-padded spelling of their value. */
  lemma Pad4OfDigits(s: string)
    requires |s| >= 4 && IsDigit(s[0]) && IsDigit(s[1]) && IsDigit(s[2]) && IsDigit(s[3])
    ensures Pad4(YearValue(s)) == s[..4]
  {
    var n := YearValue(s);
    var hi := 10 * DigitValue(s[0]) + DigitValue(s[1]);
    var lo := 10 * DigitValue(s[2]) + DigitValue(s[3]);
    assert n == 100 * hi + lo;
    assert n / 100 == hi && n % 100 == lo;
    Pad2OfDigits(s[0], s[1]);
    Pad2OfDigits(s[2], s[3]);
  }

  lemma DayFieldSound(t: string)
    requires DayField(t).Some?
    ensures DaySpelling(t, DayField(t).value)
  {
    var d := DayField(t).value;
    if |t| == 2 && IsDigit(t[0]) {
      Pad2OfDigits(t[0], t[1]);
      assert t == [t[0], t[1]];
    }
  }

  lemma MonthFieldSound(r: string)
    requires MonthField(r).Some?
    ensures MonthSpelling(r[..MonthField(r).value.1], MonthField(r).value.0)
  {
    var (m, w) := MonthField(r).value;
    if w == 2 {
      Pad2OfDigits(r[0], r[1]);
      assert r[..2] == [r[0], r[1]];
    } else {
      assert r[..1] == [r[0]];
    }
  }

  /** Whatever `parse_date` accepts is a `%Y-%m-%d` spelling of the date it returns. */
  lemma ParseDateSound(s: string)
    requires ParseDate(Some(s)).Some?
    ensures Spells(s, ParseDate(Some(s)).value)
  {
    var d := ParseDate(Some(s)).value;
    var (m, w) := MonthField(s[5..]).value;
    MonthFieldSound(s[5..]);
    DayFieldSound(s[6 + w..]);
    Pad4OfDigits(s);
    if w == 1 {
      assert s[5..][..1] == s[5..6];
      assert s[6 + w..] == s[7..];
    } else {
      assert s[5..][..2] == s[5..7];
      assert s[6 + w..] == s[8..];
    }
  }

  lemma DayFieldComplete(t: string, d: int)
    requires 1 <= d <= 31 && DaySpelling(t, d)
    ensures DayField(t) == Some(d)
  {
  }

  /** Every `%Y-%m-%d` spelling of a valid date parses to that date. */
  lemma ParseDateComplete(s: string, d: Date)
    requires ValidDate(d) && Spells(s, d)
    ensures ParseDate(Some(s)) == Some(d)
  {
    assert s[0] == s[..4][0] && s[1] == s[..4][1] && s[2] == s[..4][2] && s[3] == s[..4][3];
    assert YearValue(s) == d.year;
    var r := s[5..];
    if |s| >= 8 && MonthSpelling(s[5..7], d.month) && s[7] == '-' && DaySpelling(s[8..], d.day) {
      assert r[0] == s[5..7][0] && r[1] == s[5..7][1] && r[2] == '-';
      assert MonthField(r) == Some((d.month, 2));
      assert s[6 + 2..] == s[8..];
      DayFieldComplete(s[8..], d.day);
    } else {
      assert r[0] == s[5..6][0] && r[1] == '-';
      assert MonthField(r) == Some((d.month, 1));
      assert s[6 + 1..] == s[7..];
      DayFieldComplete(s[7..], d.day);
    }
  }

  /** The trend labels read back as the days they name. */
  lemma FormatDateRoundTrip(d: Date)
    requires ValidDate(d)
    ensures ParseDate(Some(FormatDate(d))) == Some(d)
  {
    var s := FormatDate(d);
    assert s[..4] == Pad4(d.year);
    assert s[5..7] == Pad2(d.month);
    assert s[8..] == Pad2(d.day);
    ParseDateComplete(s, d);
  }

  /** Malformed or impossible dates degrade to "no filter". */
  lemma ParseDateRejects()
    ensures ParseDate(Some("2025-13-40")).None?
    ensures ParseDate(Some("2025-02-29")).None?
    ensures ParseDate(Some("0000-01-01")).None?
  {
    assert "2025-13-40"[5..] == "13-40";
    assert "2025-02-29"[5..] == "02-29" && "2025-02-29"[8..] == "29";
  }

  /** The day field must end the string: trailing text is a ValueError. */
  lemma ParseDateRejectsTrailing()
    ensures ParseDate(Some("2025-06-01x")).None?
  {
    assert "2025-06-01x"[5..] == "06-01x" && "2025-06-01x"[8..] == "01x";
  }

  /** A leap day in a leap year parses, and so do one-digit months and days. */
  lemma ParseDateAccepts()
    ensures ParseDate(Some("2024-02-29")) == Some(Date(2024, 2, 29))
    ensures ParseDate(Some("2025-6-1")) == Some(Date(2025, 6, 1))
  {
    assert "2024-02-29"[5..] == "02-29" && "2024-02-29"[8..] == "29";
    assert "2025-6-1"[5..] == "6-1" && "2025-6-1"[7..] == "1";
  }
}
