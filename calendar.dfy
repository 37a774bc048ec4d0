/**
 * Proleptic Gregorian calendar dates as Python's `datetime.date` has them:
 * years 1 to 9999, and day arithmetic (`date + timedelta(days=n)`,
 * `date - timedelta(days=n)`) that fails with OverflowError outside that range.
 */
module Calendar {
  import opened Wrappers

  datatype Date = Date(year: int, month: int, day: int)

  const MIN_YEAR := 1
  const MAX_YEAR := 9999

  /** `date.min` and `date.max`. */
  const FIRST_DATE := Date(MIN_YEAR, 1, 1)
  const LAST_DATE := Date(MAX_YEAR, 12, 31)

  predicate IsLeapYear(y: int) {
    y % 4 == 0 && (y % 100 != 0 || y % 400 == 0)
  }

  function DaysInMonth(y: int, m: int): (n: int)
    requires 1 <= m <= 12
    ensures 28 <= n <= 31
    ensures n == 29 <==> m == 2 && IsLeapYear(y)
  {
    if m == 2 then (if IsLeapYear(y) then 29 else 28)
    else if m == 4 || m == 6 || m == 9 || m == 11 then 30
    else 31
  }

  /** The dates `datetime.date(year, month, day)` accepts without raising ValueError. */
  predicate ValidDate(d: Date) {
    MIN_YEAR <= d.year <= MAX_YEAR && 1 <= d.month <= 12 && 1 <= d.day <= DaysInMonth(d.year, d.month)
  }

  /** Chronological order, `a <= b` on dates. */
  predicate DateLe(a: Date, b: Date) {
    a.year < b.year || (a.year == b.year && (a.month < b.month || (a.month == b.month && a.day <= b.day)))
  }

  predicate DateLt(a: Date, b: Date) {
    DateLe(a, b) && a != b
  }

  /** `d + timedelta(days=1)`; None is the OverflowError past `date.max`. */
  function NextDay(d: Date): (r: Option<Date>)
    requires ValidDate(d)
    ensures r.None? <==> d == LAST_DATE
    ensures r.Some? ==> ValidDate(r.value) && DateLt(d, r.value)
  {
    if d.day < DaysInMonth(d.year, d.month) then Some(Date(d.year, d.month, d.day + 1))
    else if d.month < 12 then Some(Date(d.year, d.month + 1, 1))
    else if d.year < MAX_YEAR then Some(Date(d.year + 1, 1, 1))
    else None
  }

  /** `d - timedelta(days=1)`; None is the OverflowError before `date.min`. */
  function PrevDay(d: Date): (r: Option<Date>)
    requires ValidDate(d)
    ensures r.None? <==> d == FIRST_DATE
    ensures r.Some? ==> ValidDate(r.value) && DateLt(r.value, d) && NextDay(r.value) == Some(d)
  {
    if d.day > 1 then Some(Date(d.year, d.month, d.day - 1))
    else if d.month > 1 then Some(Date(d.year, d.month - 1, DaysInMonth(d.year, d.month - 1)))
    else if d.year > MIN_YEAR then Some(Date(d.year - 1, 12, 31))
    else None
  }

  /** No valid date lies strictly between a day and the next one. */
  lemma NextDayIsImmediate(d: Date, z: Date)
    requires ValidDate(d) && ValidDate(z) && DateLt(d, z)
    ensures NextDay(d).Some? && DateLe(NextDay(d).value, z)
  {
  }

  /** `d - timedelta(days=n)`, one day at a time; None is the OverflowError. */
  function MinusDays(d: Date, n: nat): (r: Option<Date>)
    requires ValidDate(d)
    ensures r.Some? ==> ValidDate(r.value)
    ensures r.Some? && n > 0 ==> DateLt(r.value, d)
  {
    if n == 0 then Some(d)
    else match MinusDays(d, n - 1)
      case None => None
      case Some(x) => PrevDay(x)
  }

  /** `d + timedelta(days=n)`, one day at a time; None is the OverflowError. */
  function PlusDays(d: Date, n: nat): (r: Option<Date>)
    requires ValidDate(d)
    ensures r.Some? ==> ValidDate(r.value)
    ensures r.Some? && n > 0 ==> DateLt(d, r.value)
  {
    if n == 0 then Some(d)
    else match PlusDays(d, n - 1)
      case None => None
      case Some(x) => NextDay(x)
  }

  /** Once going back overflows, going back further overflows too. */
  lemma {:induction false} MinusDaysPrefix(d: Date, n: nat, m: nat)
    requires ValidDate(d) && m <= n && MinusDays(d, n).Some?
    ensures MinusDays(d, m).Some?
  {
    if m < n {
      MinusDaysPrefix(d, n - 1, m);
    }
  }

  /** Going back `a + b` days is going back `a` days and then `b` more. */
  lemma {:induction false} MinusDaysCompose(d: Date, a: nat, b: nat)
    requires ValidDate(d)
    ensures MinusDays(d, a + b) == match MinusDays(d, a)
                                   case None => None
                                   case Some(x) => MinusDays(x, b)
  {
    if b > 0 {
      MinusDaysCompose(d, a, b - 1);
    }
  }

  /** Within one month, going back `k` days only lowers the day of the month. */
  lemma {:induction false} MinusDaysWithinMonth(d: Date, k: nat)
    requires ValidDate(d) && k < d.day
    ensures MinusDays(d, k) == Some(Date(d.year, d.month, d.day - k))
  {
    if k > 0 {
      MinusDaysWithinMonth(d, k - 1);
    }
  }

  /**
   * `d - timedelta(days=n)` for n below 28 overflows exactly for the first n
   * days of year 1.
   */
  lemma MinusDaysOverflow(d: Date, n: nat)
    requires ValidDate(d) && n < 28
    ensures MinusDays(d, n).None? <==> d.year == MIN_YEAR && d.month == 1 && d.day <= n
  {
    if d.day > n {
      MinusDaysWithinMonth(d, n);
    } else {
      var a := d.day - 1;
      MinusDaysWithinMonth(d, a);
      MinusDaysCompose(d, a, n - a);
      MinusDaysFromFirst(Date(d.year, d.month, 1), n - a);
    }
  }

  /** From the first of a month, going back 1 to 28 days overflows exactly in January of year 1. */
  lemma MinusDaysFromFirst(first: Date, k: nat)
    requires ValidDate(first) && first.day == 1 && 1 <= k <= 28
    ensures MinusDays(first, k).None? <==> first.year == MIN_YEAR && first.month == 1
  {
    MinusDaysCompose(first, 1, k - 1);
    assert MinusDays(first, 1) == PrevDay(first);
    if PrevDay(first).Some? {
      var p := PrevDay(first).value;
      assert p.day >= 28;
      MinusDaysWithinMonth(p, k - 1);
    }
  }

  /**
   * Counting forward `k` days from `d - timedelta(days=n)` lands on
   * `d - timedelta(days=n - k)`; in particular `(d - n days) + n days == d`.
   */
  lemma {:induction false} PlusUndoesMinus(d: Date, n: nat, k: nat)
    requires ValidDate(d) && MinusDays(d, n).Some? && k <= n
    ensures PlusDays(MinusDays(d, n).value, k) == MinusDays(d, n - k)
  {
    if k > 0 {
      PlusUndoesMinus(d, n, k - 1);
      MinusDaysPrefix(d, n, n - k + 1);
      MinusDaysStep(d, n - k);
      var start := MinusDays(d, n).value;
      var before := PlusDays(start, k - 1);
      assert before == MinusDays(d, n - k + 1);
      assert PlusDays(start, k) == NextDay(before.value);
    }
  }

  /** One day less back, one day later: `(d - (m + 1) days) + 1 day == d - m days`. */
  lemma MinusDaysStep(d: Date, m: nat)
    requires ValidDate(d) && MinusDays(d, m + 1).Some?
    ensures MinusDays(d, m).Some?
    ensures NextDay(MinusDays(d, m + 1).value) == MinusDays(d, m)
  {
  }
}
