/**
 * The dashboard view as a whole: read the query, filter the transactions,
 * then compute the totals, the expense-by-category chart and the
 * seven-day trend from the filtered transactions.
 */
module Dashboard {
  import opened Wrappers
  import opened Calendar
  import opened DateParsing
  import opened Models
  import opened Filtering
  import opened Totals
  import opened Charts
  import opened Breakdown
  import opened Trend

  /** What the view hands to its template, chart values in exact cents. */
  datatype DashboardView = DashboardView(
    totalIncome: int,
    totalExpense: int,
    balance: int,
    expenseByCategory: Chart,
    lastSevenDays: Chart,
    filterStartDate: string,
    filterEndDate: string,
    filterCategory: string,
    filterType: string)

  /** The page, or the OverflowError raised when the trend window starts before 0001-01-01. */
  datatype Outcome = Rendered(view: DashboardView) | DateOverflow

  /** `value or ''`: the raw parameter echoed back into the filter form. */
  function Echo(raw: Option<string>): string {
    if raw.Some? then raw.value else ""
  }

  /** `end_day = e_date if e_date else date.today()`. */
  function TrendEnd(c: Criteria, today: Date): Date {
    if c.end.Some? then c.end.value else today
  }

  lemma TrendEndValid(q: Query, today: Date)
    requires ValidDate(today)
    ensures ValidDate(TrendEnd(ParseCriteria(q), today))
  {
  }

  /** The view the dashboard renders for a store, a query and today's date. */
  predicate IsDashboard(store: Store, q: Query, today: Date, v: DashboardView)
    requires ValidDate(today)
  {
    var c := ParseCriteria(q);
    var ts := Filtered(store.transactions, c);
    var end := TrendEnd(c, today);
    MinusDays(end, WINDOW_DAYS - 1).Some? &&
    v.totalIncome == Total(ts, Income) &&
    v.totalExpense == Total(ts, Expense) &&
    v.balance == v.totalIncome - v.totalExpense &&
    v.expenseByCategory == ExpenseByCategoryAsWritten(FilterBy(ts, KindIs(Expense)), store.categories) &&
    TrendPrefix(ts, end, v.lastSevenDays.labels, v.lastSevenDays.values, WINDOW_DAYS) &&
    v.filterStartDate == Echo(q.startDate) &&
    v.filterEndDate == Echo(q.endDate) &&
    v.filterCategory == Echo(q.category) &&
    v.filterType == Echo(q.kind)
  }

  /**
   * `dashboard(request)`. The page is rendered unless the trend window
   * cannot be formed, and then it shows exactly the figures `IsDashboard`
   * describes.
   */
  method RenderDashboard(store: Store, q: Query, today: Date) returns (r: Outcome)
    requires ValidDate(today)
    ensures r.DateOverflow? <==> MinusDays(TrendEnd(ParseCriteria(q), today), WINDOW_DAYS - 1).None?
    ensures r.Rendered? ==> IsDashboard(store, q, today, r.view)
  {
    var c := ParseCriteria(q);
    var transactions := ApplyFilters(store.transactions, c);
    var totalIncome := Total(transactions, Income);
    var totalExpense := Total(transactions, Expense);
    var balance := totalIncome - totalExpense;
    var categoryChart := ExpenseByCategoryAsWritten(FilterBy(transactions, KindIs(Expense)), store.categories);
    var endDay := TrendEnd(c, today);
    var trend := LastSevenDays(transactions, endDay);
    if trend.None? {
      return DateOverflow;
    }
    r := Rendered(DashboardView(
      totalIncome, totalExpense, balance, categoryChart, trend.value,
      Echo(q.startDate), Echo(q.endDate), Echo(q.category), Echo(q.kind)));
  }

  /** The page fails exactly for an end date among the first six days of year 1. */
  lemma DashboardOverflow(q: Query, today: Date)
    requires ValidDate(today)
    ensures var end := TrendEnd(ParseCriteria(q), today);
      MinusDays(end, WINDOW_DAYS - 1).None? <==> end.year == MIN_YEAR && end.month == 1 && end.day < WINDOW_DAYS
  {
    WindowOverflow(TrendEnd(ParseCriteria(q), today));
  }

  /** The totals are the sums of the filtered income and expense amounts, and the balance their signed sum. */
  lemma DashboardTotals(store: Store, q: Query, today: Date, v: DashboardView)
    requires ValidDate(today) && IsDashboard(store, q, today, v)
    ensures var ts := Filtered(store.transactions, ParseCriteria(q));
      v.totalIncome == KindSum(ts, Income) &&
      v.totalExpense == KindSum(ts, Expense) &&
      v.balance == NetSum(ts)
  {
    var ts := Filtered(store.transactions, ParseCriteria(q));
    TotalIsKindSum(ts, Income);
    TotalIsKindSum(ts, Expense);
    BalanceIsNet(ts);
  }

  /**
   * The category chart has parallel lists whose values add up to the total
   * expense; every filtered expense has its label in it (an expense without a
   * category under "Uncategorized") and every label is some filtered
   * expense's. When no category is named "Uncategorized" or "", its labels are
   * distinct, each value sums the expenses bearing its label, and it is the
   * chart grouped by label.
   */
  lemma DashboardCategoryChart(store: Store, q: Query, today: Date, v: DashboardView)
    requires ValidDate(today) && IsDashboard(store, q, today, v)
    ensures var expenses := FilterBy(Filtered(store.transactions, ParseCriteria(q)), KindIs(Expense));
      var c := v.expenseByCategory;
      |c.labels| == |c.values| && SumSeq(c.values) == v.totalExpense &&
      (forall t :: t in expenses ==> Label(store.categories, t) in c.labels) &&
      (forall t :: t in expenses && t.category.None? ==> UNCATEGORIZED in c.labels) &&
      (forall j :: 0 <= j < |c.labels| ==> c.labels[j] in Labels(expenses, store.categories))
    ensures var expenses := FilterBy(Filtered(store.transactions, ParseCriteria(q)), KindIs(Expense));
      var c := v.expenseByCategory;
      LabelsUnambiguous(store.categories) ==>
        c == ExpenseByCategory(expenses, store.categories) && NoDuplicates(c.labels) &&
        (forall j :: 0 <= j < |c.labels| ==> c.values[j] == SumFor(Labels(expenses, store.categories), Amounts(expenses), c.labels[j]))
  {
    var ts := Filtered(store.transactions, ParseCriteria(q));
    var expenses := FilterBy(ts, KindIs(Expense));
    ExpenseByCategoryAsWrittenShape(expenses, store.categories);
    AsWrittenReconciles(ts, store.categories);
    if LabelsUnambiguous(store.categories) {
      AsWrittenUnambiguous(expenses, store.categories);
    }
  }

  /** In a valid store, no category named "Uncategorized" is enough for distinct, faithful labels. */
  lemma ValidStoreUnambiguous(store: Store)
    requires ValidStore(store)
    requires forall id :: id in store.categories ==> store.categories[id].name != UNCATEGORIZED
    ensures LabelsUnambiguous(store.categories)
  {
  }

  /**
   * The trend has seven consecutive days, oldest first, ending at the trend
   * end day; every label reads back as its day; and each value counts the
   * expenses of that day that pass every filter.
   */
  lemma DashboardTrend(store: Store, q: Query, today: Date, v: DashboardView)
    requires ValidDate(today) && IsDashboard(store, q, today, v)
    ensures var end := TrendEnd(ParseCriteria(q), today);
      |v.lastSevenDays.labels| == WINDOW_DAYS && |v.lastSevenDays.values| == WINDOW_DAYS &&
      v.lastSevenDays.labels[WINDOW_DAYS - 1] == FormatDate(end) &&
      (forall i :: 0 <= i < WINDOW_DAYS - 1 ==> NextDay(WindowDay(end, i)) == Some(WindowDay(end, i + 1))) &&
      (forall i :: 0 <= i < WINDOW_DAYS ==>
         ParseDate(Some(v.lastSevenDays.labels[i])) == Some(WindowDay(end, i)) &&
         v.lastSevenDays.values[i] == MatchingExpenseOn(store.transactions, ParseCriteria(q), WindowDay(end, i)))
  {
    var c := ParseCriteria(q);
    var end := TrendEnd(c, today);
    TrendWindowFacts(Filtered(store.transactions, c), store.transactions, c, end, v.lastSevenDays);
  }

  lemma TrendWindowFacts(ts: seq<Transaction>, all: seq<Transaction>, c: Criteria, end: Date, trend: Chart)
    requires ts == Filtered(all, c)
    requires ValidDate(end) && MinusDays(end, WINDOW_DAYS - 1).Some?
    requires TrendPrefix(ts, end, trend.labels, trend.values, WINDOW_DAYS)
    ensures |trend.labels| == WINDOW_DAYS && |trend.values| == WINDOW_DAYS
    ensures trend.labels[WINDOW_DAYS - 1] == FormatDate(end)
    ensures forall i :: 0 <= i < WINDOW_DAYS - 1 ==> NextDay(WindowDay(end, i)) == Some(WindowDay(end, i + 1))
    ensures forall i :: 0 <= i < WINDOW_DAYS ==>
      ParseDate(Some(trend.labels[i])) == Some(WindowDay(end, i)) &&
      trend.values[i] == MatchingExpenseOn(all, c, WindowDay(end, i))
  {
    WindowIsConsecutive(end);
    forall i | 0 <= i < WINDOW_DAYS
      ensures ParseDate(Some(trend.labels[i])) == Some(WindowDay(end, i))
      ensures trend.values[i] == MatchingExpenseOn(all, c, WindowDay(end, i))
    {
      TrendLabelsParse(end, i);
      TrendRespectsFilters(all, c, WindowDay(end, i));
    }
  }

  /** With `type=income` the expense side of the page is empty: no expense total, no slices, a flat trend. */
  lemma IncomeFilterHidesExpenses(store: Store, q: Query, today: Date, v: DashboardView)
    requires ValidDate(today) && IsDashboard(store, q, today, v)
    requires q.kind == Some("income")
    ensures v.totalExpense == 0
    ensures v.balance == v.totalIncome
    ensures v.expenseByCategory == Chart([], [])
    ensures forall i :: 0 <= i < |v.lastSevenDays.values| ==> v.lastSevenDays.values[i] == 0
  {
    var c := ParseCriteria(q);
    var ts := Filtered(store.transactions, c);
    NoExpensesUnderIncomeFilter(store.transactions, c);
    NoExpensesFlatTrend(ts, TrendEnd(c, today), v.lastSevenDays);
  }

  lemma NoExpensesUnderIncomeFilter(all: seq<Transaction>, c: Criteria)
    requires c.kind == Some(Income)
    ensures forall t :: t in Filtered(all, c) ==> t.kind != Expense
    ensures FilterBy(Filtered(all, c), KindIs(Expense)) == []
    ensures Total(Filtered(all, c), Expense) == 0
  {
    var ts := Filtered(all, c);
    forall t | t in ts ensures t.kind != Expense {
      FilteredMembership(all, c, t);
    }
    TotalIsKindSum(ts, Expense);
  }

  lemma NoExpensesFlatTrend(ts: seq<Transaction>, end: Date, trend: Chart)
    requires forall t :: t in ts ==> t.kind != Expense
    requires ValidDate(end) && MinusDays(end, WINDOW_DAYS - 1).Some?
    requires TrendPrefix(ts, end, trend.labels, trend.values, WINDOW_DAYS)
    ensures forall i :: 0 <= i < |trend.values| ==> trend.values[i] == 0
  {
    forall i | 0 <= i < |trend.values| ensures trend.values[i] == 0 {
      DailyExpenseIsExpenseOn(ts, WindowDay(end, i));
    }
  }

  /** A small table: two food expenses on consecutive days and one uncategorised income. */
  const SCENARIO_CATEGORIES: map<nat, Category> := map[1 := Category(1, "Food")]
  const SCENARIO_TRANSACTIONS: seq<Transaction> := [
    Transaction(1, Expense, Some(1), 1000, Date(2025, 6, 1), None),
    Transaction(2, Income, None, 5000, Date(2025, 6, 2), None),
    Transaction(3, Expense, Some(1), 500, Date(2025, 6, 2), None)]
  const NO_FILTERS := Query(None, None, None, None)

  lemma ScenarioIsValid()
    ensures ValidStore(Store(SCENARIO_CATEGORIES, SCENARIO_TRANSACTIONS))
  {
  }

  lemma ScenarioUnfiltered()
    ensures Filtered(SCENARIO_TRANSACTIONS, ParseCriteria(NO_FILTERS)) == SCENARIO_TRANSACTIONS
  {
    KeepNothing(SCENARIO_TRANSACTIONS);
  }

  lemma ScenarioTotals()
    ensures Total(SCENARIO_TRANSACTIONS, Income) == 5000
    ensures Total(SCENARIO_TRANSACTIONS, Expense) == 1500
  {
    TotalIsKindSum(SCENARIO_TRANSACTIONS, Income);
    TotalIsKindSum(SCENARIO_TRANSACTIONS, Expense);
  }

  lemma ScenarioExpenses()
    ensures FilterBy(SCENARIO_TRANSACTIONS, KindIs(Expense)) == [SCENARIO_TRANSACTIONS[0], SCENARIO_TRANSACTIONS[2]]
    ensures Names([SCENARIO_TRANSACTIONS[0], SCENARIO_TRANSACTIONS[2]], SCENARIO_CATEGORIES) == [Some("Food"), Some("Food")]
    ensures Amounts([SCENARIO_TRANSACTIONS[0], SCENARIO_TRANSACTIONS[2]]) == [1000, 500]
  {
  }

  lemma ScenarioChart()
    ensures ExpenseByCategoryAsWritten(FilterBy(SCENARIO_TRANSACTIONS, KindIs(Expense)), SCENARIO_CATEGORIES) == Chart(["Food"], [1500])
  {
    ScenarioExpenses();
    ScenarioNameGroups();
  }

  lemma ScenarioNameGroups()
    ensures Distinct([Some("Food"), Some("Food")]) == [Some("Food")]
    ensures GroupTotals([Some("Food"), Some("Food")], [1000, 500], [Some("Food")]) == [1500]
    ensures LabelsOfNames([Some("Food")]) == ["Food"]
  {
    var keys: seq<Option<string>> := [Some("Food"), Some("Food")];
    assert Distinct(keys[..1]) == [Some("Food")] by {
      assert keys[..1][..0] == [];
    }
    DistinctLast(keys);
    var amounts := [1000, 500];
    assert keys[1..] == [Some("Food")] && amounts[1..] == [500] && keys[1..][1..] == [];
    assert SumFor(keys[1..], amounts[1..], Some("Food")) == 500;
  }

  /** Without filters: income 50.00, expense 15.00, balance 35.00, and one slice "Food" of 15.00. */
  lemma ScenarioFigures(today: Date, v: DashboardView)
    requires ValidDate(today) && IsDashboard(Store(SCENARIO_CATEGORIES, SCENARIO_TRANSACTIONS), NO_FILTERS, today, v)
    ensures v.totalIncome == 5000 && v.totalExpense == 1500 && v.balance == 3500
    ensures v.expenseByCategory == Chart(["Food"], [1500])
  {
    ScenarioUnfiltered();
    ScenarioTotals();
    ScenarioChart();
  }

  /** The clash store's expenses pass no filter and are all expenses. */
  lemma ClashUnfiltered()
    ensures FilterBy(Filtered(CLASH_EXPENSES, ParseCriteria(NO_FILTERS)), KindIs(Expense)) == CLASH_EXPENSES
  {
    KeepNothing(CLASH_EXPENSES);
    FilterByKeepsAll(CLASH_EXPENSES, KindIs(Expense));
  }

  /**
   * The page, as the view builds it, for a category named "Uncategorized"
   * holding 10.00 and an uncategorised 5.00: two slices, both labelled
   * "Uncategorized".
   */
  lemma ClashPage(today: Date, v: DashboardView)
    requires ValidDate(today) && IsDashboard(Store(CLASH_CATEGORIES, CLASH_EXPENSES), NO_FILTERS, today, v)
    ensures v.expenseByCategory == Chart([UNCATEGORIZED, UNCATEGORIZED], [1000, 500])
    ensures !NoDuplicates(v.expenseByCategory.labels)
  {
    ClashUnfiltered();
    ClashAsWritten();
    assert v.expenseByCategory.labels[0] == v.expenseByCategory.labels[1];
  }

  lemma ScenarioDays(d: Date)
    ensures ExpenseOn(SCENARIO_TRANSACTIONS, d) == ScenarioExpenseOn(d)
  {
    var ts := SCENARIO_TRANSACTIONS;
    assert ts[1..][1..] == [ts[2]] && ts[1..][1..][1..] == [];
    assert ExpenseOn(ts[1..][1..], d) == (if d == Date(2025, 6, 2) then 500 else 0);
    assert ExpenseOn(ts[1..], d) == ExpenseOn(ts[1..][1..], d);
  }

  lemma ScenarioLabel()
    ensures FormatDate(Date(2025, 6, 2)) == "2025-06-02"
  {
  }

  /** The expenses of the scenario table, day by day. */
  function ScenarioExpenseOn(d: Date): int {
    if d == Date(2025, 6, 1) then 1000 else if d == Date(2025, 6, 2) then 500 else 0
  }

  /** The last point of a trend is the end day and that day's expenses. */
  lemma TrendLastPoint(ts: seq<Transaction>, end: Date, trend: Chart)
    requires ValidDate(end) && MinusDays(end, WINDOW_DAYS - 1).Some?
    requires TrendPrefix(ts, end, trend.labels, trend.values, WINDOW_DAYS)
    ensures |trend.labels| == WINDOW_DAYS && |trend.values| == WINDOW_DAYS
    ensures trend.labels[WINDOW_DAYS - 1] == FormatDate(end)
    ensures trend.values[WINDOW_DAYS - 1] == ExpenseOn(ts, end)
  {
    WindowIsConsecutive(end);
    DailyExpenseIsExpenseOn(ts, end);
  }

  /** With today 2025-06-02 the last bar of the trend is that day, with its 5.00 of food. */
  lemma ScenarioTrend(today: Date, v: DashboardView)
    requires today == Date(2025, 6, 2)
    requires IsDashboard(Store(SCENARIO_CATEGORIES, SCENARIO_TRANSACTIONS), NO_FILTERS, today, v)
    ensures v.lastSevenDays.labels[WINDOW_DAYS - 1] == "2025-06-02"
    ensures v.lastSevenDays.values[WINDOW_DAYS - 1] == 500
  {
    ScenarioUnfiltered();
    ScenarioLabel();
    TrendLastPoint(SCENARIO_TRANSACTIONS, today, v.lastSevenDays);
    ScenarioDays(today);
  }
}
