/**
 * The last-seven-days expense chart: seven consecutive days ending at the
 * end-date filter (or today), each with the filtered expenses of that day.
 */
module Trend {
  import opened Wrappers
  import opened Calendar
  import opened DateParsing
  import opened Models
  import opened Filtering
  import opened Totals
  import opened Charts

  /** `range(7)`: the window ends six days after it starts. */
  const WINDOW_DAYS: nat := 7

  /** `qs.filter(type='expense', date=day).aggregate(total=Sum('amount'))['total']`, 0 when absent or zero. */
  function DailyExpense(ts: seq<Transaction>, day: Date): int {
    OrZero(AggregateSum(ExpensesOf(ts, day)))
  }

  /** `qs.filter(type='expense', date=day)`. */
  function ExpensesOf(ts: seq<Transaction>, day: Date): seq<Transaction> {
    FilterBy(FilterBy(ts, KindIs(Expense)), DateIs(day))
  }

  /** The reference reading: the amounts of the expenses dated `day`, added up. */
  function ExpenseOn(ts: seq<Transaction>, day: Date): int {
    if ts == [] then 0
    else (if ts[0].kind == Expense && ts[0].date == day then ts[0].amount else 0) + ExpenseOn(ts[1..], day)
  }

  lemma {:induction false} SumFilterByDay(ts: seq<Transaction>, day: Date)
    ensures Sum(FilterBy(ts, DateIs(day))) == (if ts == [] then 0 else (if ts[0].date == day then ts[0].amount else 0) + Sum(FilterBy(ts[1..], DateIs(day))))
  {
    if ts != [] {
      var head := if ts[0].date == day then [ts[0]] else [];
      var rest := FilterBy(ts[1..], DateIs(day));
      assert FilterBy(ts, DateIs(day)) == head + rest;
      if ts[0].date == day {
        assert (head + rest)[1..] == rest;
      } else {
        assert head + rest == rest;
      }
    }
  }

  lemma {:induction false} SumFilterByExpense(ts: seq<Transaction>)
    ensures FilterBy(ts, KindIs(Expense)) == (if ts == [] then [] else (if ts[0].kind == Expense then [ts[0]] else []) + FilterBy(ts[1..], KindIs(Expense)))
  {
  }

  lemma {:induction false} ExpensesOfDay(ts: seq<Transaction>, day: Date)
    ensures Sum(FilterBy(FilterBy(ts, KindIs(Expense)), DateIs(day))) == ExpenseOn(ts, day)
  {
    if ts != [] {
      ExpensesOfDay(ts[1..], day);
      var expenses := FilterBy(ts, KindIs(Expense));
      SumFilterByExpense(ts);
      if ts[0].kind == Expense {
        assert expenses[0] == ts[0];
        assert expenses[1..] == FilterBy(ts[1..], KindIs(Expense));
        SumFilterByDay(expenses, day);
      } else {
        assert expenses == FilterBy(ts[1..], KindIs(Expense));
      }
    }
  }

  /** A day's value is the sum of that day's expenses, and 0 when there are none. */
  lemma DailyExpenseIsExpenseOn(ts: seq<Transaction>, day: Date)
    ensures DailyExpense(ts, day) == ExpenseOn(ts, day)
    ensures (forall t :: t in ts ==> t.kind != Expense || t.date != day) ==> DailyExpense(ts, day) == 0
  {
    ExpensesOfDay(ts, day);
    OrZeroAggregate(FilterBy(FilterBy(ts, KindIs(Expense)), DateIs(day)));
  }

  /** The reference reading over the whole table: the expenses of `day` that pass every filter. */
  function MatchingExpenseOn(all: seq<Transaction>, c: Criteria, day: Date): int {
    if all == [] then 0
    else (if Satisfies(all[0], c) && all[0].kind == Expense && all[0].date == day then all[0].amount else 0)
         + MatchingExpenseOn(all[1..], c, day)
  }

  lemma {:induction false} ExpenseOnKeep(all: seq<Transaction>, c: Criteria, day: Date)
    ensures ExpenseOn(Keep(all, Lookups(c)), day) == MatchingExpenseOn(all, c, day)
  {
    if all != [] {
      ExpenseOnKeep(all[1..], c, day);
      LookupsMeanCriteria(c, all[0]);
      var head := if HoldsAll(Lookups(c), all[0]) then [all[0]] else [];
      var rest := Keep(all[1..], Lookups(c));
      assert Keep(all, Lookups(c)) == head + rest;
      if HoldsAll(Lookups(c), all[0]) {
        assert (head + rest)[1..] == rest;
      } else {
        assert head + rest == rest;
      }
    }
  }

  /**
   * The trend is taken from the filtered transactions: a day's value counts
   * exactly the expenses of that day that pass the start, end, category and
   * type filters.
   */
  lemma TrendRespectsFilters(all: seq<Transaction>, c: Criteria, day: Date)
    ensures DailyExpense(Filtered(all, c), day) == MatchingExpenseOn(all, c, day)
  {
    DailyExpenseIsExpenseOn(Filtered(all, c), day);
    ExpenseOnKeep(all, c, day);
  }

  /** Day i of the window, `start_day + timedelta(days=i)` with `start_day = end_day - timedelta(days=6)`. */
  function WindowDay(end: Date, i: nat): (d: Date)
    requires ValidDate(end) && MinusDays(end, WINDOW_DAYS - 1).Some? && i < WINDOW_DAYS
    ensures ValidDate(d)
    ensures MinusDays(end, WINDOW_DAYS - 1 - i) == Some(d)
  {
    PlusUndoesMinus(end, WINDOW_DAYS - 1, i);
    MinusDaysPrefix(end, WINDOW_DAYS - 1, WINDOW_DAYS - 1 - i);
    PlusDays(MinusDays(end, WINDOW_DAYS - 1).value, i).value
  }

  /** The window's days are consecutive, oldest first, and the last one is the end day. */
  lemma WindowIsConsecutive(end: Date)
    requires ValidDate(end) && MinusDays(end, WINDOW_DAYS - 1).Some?
    ensures WindowDay(end, WINDOW_DAYS - 1) == end
    ensures forall i :: 0 <= i < WINDOW_DAYS - 1 ==>
      NextDay(WindowDay(end, i)) == Some(WindowDay(end, i + 1)) && DateLt(WindowDay(end, i), WindowDay(end, i + 1))
  {
    forall i | 0 <= i < WINDOW_DAYS - 1
      ensures NextDay(WindowDay(end, i)) == Some(WindowDay(end, i + 1))
    {
      var later := WindowDay(end, i + 1);
      assert MinusDays(end, WINDOW_DAYS - 1 - i) == PrevDay(later);
    }
  }

  /** The window cannot be formed exactly when the end day is one of the first six days of year 1. */
  lemma WindowOverflow(end: Date)
    requires ValidDate(end)
    ensures MinusDays(end, WINDOW_DAYS - 1).None? <==> end.year == MIN_YEAR && end.month == 1 && end.day < WINDOW_DAYS
  {
    MinusDaysOverflow(end, WINDOW_DAYS - 1);
  }

  /** The first n points of the trend ending at `end`: each day's label and expense total. */
  predicate TrendPrefix(ts: seq<Transaction>, end: Date, labels: seq<string>, values: seq<int>, n: nat)
    requires ValidDate(end) && MinusDays(end, WINDOW_DAYS - 1).Some? && n <= WINDOW_DAYS
  {
    |labels| == n && |values| == n &&
    forall k :: 0 <= k < n ==>
      labels[k] == FormatDate(WindowDay(end, k)) && values[k] == DailyExpense(ts, WindowDay(end, k))
  }

  lemma TrendPrefixExtend(ts: seq<Transaction>, end: Date, labels: seq<string>, values: seq<int>, n: nat, point: string, amount: int)
    requires ValidDate(end) && MinusDays(end, WINDOW_DAYS - 1).Some? && n < WINDOW_DAYS
    requires TrendPrefix(ts, end, labels, values, n)
    requires point == FormatDate(WindowDay(end, n)) && amount == DailyExpense(ts, WindowDay(end, n))
    ensures TrendPrefix(ts, end, labels + [point], values + [amount], n + 1)
  {
  }

  /**
   * The loop of the view: for each of the seven days, its label and its
   * expense total. None is the OverflowError of `end_day - timedelta(days=6)`.
   */
  method LastSevenDays(ts: seq<Transaction>, endDay: Date) returns (r: Option<Chart>)
    requires ValidDate(endDay)
    ensures r.None? <==> MinusDays(endDay, WINDOW_DAYS - 1).None?
    ensures r.Some? ==> MinusDays(endDay, WINDOW_DAYS - 1).Some? &&
                        TrendPrefix(ts, endDay, r.value.labels, r.value.values, WINDOW_DAYS)
  {
    var startDay := MinusDays(endDay, WINDOW_DAYS - 1);
    if startDay.None? {
      return None;
    }
    var labels: seq<string> := [];
    var values: seq<int> := [];
    for i := 0 to WINDOW_DAYS
      invariant TrendPrefix(ts, endDay, labels, values, i)
    {
      PlusUndoesMinus(endDay, WINDOW_DAYS - 1, i);
      MinusDaysPrefix(endDay, WINDOW_DAYS - 1, WINDOW_DAYS - 1 - i);
      var currentDay := PlusDays(startDay.value, i).value;
      assert currentDay == WindowDay(endDay, i);
      var dayLabel := FormatDate(currentDay);
      var dailyTotal := AggregateSum(ExpensesOf(ts, currentDay));
      TrendPrefixExtend(ts, endDay, labels, values, i, dayLabel, OrZero(dailyTotal));
      labels := labels + [dayLabel];
      values := values + [OrZero(dailyTotal)];
    }
    r := Some(Chart(labels, values));
  }

  /** Every label of the trend reads back, through `parse_date`, as the day it stands for. */
  lemma TrendLabelsParse(end: Date, i: nat)
    requires ValidDate(end) && MinusDays(end, WINDOW_DAYS - 1).Some? && i < WINDOW_DAYS
    ensures ParseDate(Some(FormatDate(WindowDay(end, i)))) == Some(WindowDay(end, i))
  {
    FormatDateRoundTrip(WindowDay(end, i));
  }
}
