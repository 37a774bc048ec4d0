# Finance dashboard — a Dafny model of the dashboard pipeline

The finance dashboard is a small Django application that records income and
expense transactions, optionally filed under a category. Its main page, the
dashboard, reads four query parameters (`start_date`, `end_date`, `category`,
`type`). It narrows the transactions with them and shows:

- the total income, the total expense and the balance;
- a pie chart of the expenses by category name;
- a bar chart of the expenses of the last seven days.

A second page lists the five newest transactions.

This project models that pipeline in Dafny and proves what it computes:

- `Calendar` holds `datetime.date` as a record, with day stepping that fails
  (None) past `date.min`/`date.max`. This stands for Python's OverflowError.
- `Digits` models `str.isdigit`, `int(s)` and `str(n)` over ASCII digits.
- `DateParsing` models `parse_date`, which is CPython's `strptime(value,
  "%Y-%m-%d")` with every ValueError turned into "no date". It also models the
  `strftime('%Y-%m-%d')` labels.
- `Models` holds the Category and Transaction records, their field rules and
  `on_delete=SET_NULL`.
- `Filtering` maps the query to criteria, then chains one `.filter(...)` per
  criterion that is present.
- `Totals` covers the income and expense aggregates with their `or
  Decimal('0.00')` default, and the balance.
- `Charts` holds the chart datasets: parallel label and value lists.
- `Breakdown` covers the expense-by-category chart.
- `Trend` covers the seven-day window and its daily expense totals.
- `Listing` covers `order_by('-date')[:5]`.
- `Dashboard` is the whole view: a method that yields the rendered figures or
  the overflow error. Lemmas read the figures back against reference
  definitions, and a small concrete store is worked through.

Amounts are integer cents. The `DecimalField(max_digits=10, decimal_places=2)`
bound is kept as `ValidAmount`. Today's date is a parameter of the view.

Three behaviours of the code are easy to miss:

- `parse_date` is CPython's `strptime(value, "%Y-%m-%d")`. Its `%m` and `%d`
  fields accept one digit as well as two, and `%d` also accepts a
  space-padded digit. So "2025-6-1" and "2025-06- 1" both parse as 1 June
  2025. `DateParsing.ParseDateAccepts` shows the first.
- `end_day - timedelta(days=6)` raises OverflowError when the end date is one
  of 0001-01-01 … 0001-01-06, and the view does not catch it. The model
  returns `DateOverflow` for exactly those dates.
- The category chart groups the expenses by `category__name` and only then
  turns each group's name into a label with `or 'Uncategorized'`. The
  dashboard model builds the chart the same way. See "## Findings".

## Model

| member | source | states |
|---|---|---|
| `Digits.DecimalStringRoundTrip` | expenses/views.py:43-44 | `int(str(n)) == n` for every natural number n |
| `Digits.LeadingZeroIgnored` | expenses/views.py:44 | a leading `0` does not change `int(s)`, so `category=007` selects category 7 |
| `Digits.IsDigitString` | expenses/views.py:43 | definition of `category_id.isdigit()`: non-empty and made only of the digits 0-9; its use is stated by `Filtering.ParseCategory` |
| `Digits.DigitsValue` | expenses/views.py:44 | definition of `int(s)` on a digit string, most significant digit first; `Digits.DecimalStringRoundTrip` and `Digits.LeadingZeroIgnored` state its meaning |
| `Calendar.DaysInMonth` | expenses/views.py:26 | every month has 28 to 31 days, and 29 exactly for February of a leap year |
| `Calendar.ValidDate` | expenses/views.py:26 | definition of the dates `datetime.date` accepts: years 1..9999, months 1..12, and a day within the month's length |
| `Calendar.NextDay` | expenses/views.py:85 | `d + 1 day` fails only on 9999-12-31; otherwise it is a valid, strictly later date |
| `Calendar.PrevDay` | expenses/views.py:79 | `d - 1 day` fails only on 0001-01-01; otherwise it is a valid, earlier date whose next day is d |
| `Calendar.NextDayIsImmediate` | expenses/views.py:85 | no valid date lies strictly between a day and the next one |
| `Calendar.MinusDays` | expenses/views.py:79 | `d - timedelta(days=n)`: any result is a valid date, strictly earlier than d when n > 0; None is the OverflowError |
| `Calendar.PlusDays` | expenses/views.py:85 | `d + timedelta(days=n)`: any result is a valid date, strictly later than d when n > 0; None is the OverflowError |
| `Calendar.MinusDaysPrefix` | expenses/views.py:79 | if going back n days does not overflow, going back fewer days does not either |
| `Calendar.MinusDaysCompose` | expenses/views.py:79 | going back a + b days is going back a days and then b more |
| `Calendar.MinusDaysWithinMonth` | expenses/views.py:79 | going back fewer days than the day of the month only lowers the day |
| `Calendar.MinusDaysOverflow` | expenses/views.py:79 | for n < 28, `d - n days` overflows exactly when d is one of the first n days of year 1 |
| `Calendar.MinusDaysFromFirst` | expenses/views.py:79 | from the first of a month, going back 1 to 28 days overflows exactly in January of year 1 |
| `Calendar.PlusUndoesMinus` | expenses/views.py:79-85 | counting k days forward from `d - n days` gives `d - (n - k) days`, and `n` days forward gives back d |
| `Calendar.MinusDaysStep` | expenses/views.py:79-85 | the day after `d - (m + 1) days` is `d - m days` |
| `DateParsing.Pad2` | expenses/views.py:86 | `%m`/`%d` output is two digits that read back as the number |
| `DateParsing.Pad4` | expenses/views.py:86 | `%Y` output is four digits that read back as the year |
| `DateParsing.FormatDate` | expenses/views.py:86 | a label is ten characters with '-' at positions 4 and 7 |
| `DateParsing.MonthField` | expenses/views.py:26 | `%m` followed by '-' yields a month 1..12 matched by one or two characters, with the '-' right after them |
| `DateParsing.DayField` | expenses/views.py:26 | `%d` ending the string yields a day 1..31 |
| `DateParsing.Strptime` | expenses/views.py:26 | whatever strptime accepts is a valid date, years 1..9999 |
| `DateParsing.ParseDate` | expenses/views.py:22-28 | an absent or empty value gives no date, and every date returned is valid |
| `DateParsing.Spells` | expenses/views.py:26 | definition of the `%Y-%m-%d` spellings of a valid date, the reference language of `DateParsing.ParseDateSound` and `DateParsing.ParseDateComplete`: four year digits, '-', the month as two digits or one, '-', the day as two digits, one digit or a space and one digit |
| `DateParsing.ParseDateSound` | expenses/views.py:22-28 | every accepted string is a `%Y-%m-%d` spelling (padded or not) of the date returned |
| `DateParsing.ParseDateComplete` | expenses/views.py:22-28 | every such spelling of a valid date parses to that date |
| `DateParsing.DayFieldSound` | expenses/views.py:26 | an accepted day field is one of the spellings of its day |
| `DateParsing.MonthFieldSound` | expenses/views.py:26 | an accepted month field is one of the spellings of its month |
| `DateParsing.Pad2OfDigits` | expenses/views.py:26 | two digits are the padded spelling of their value |
| `DateParsing.Pad4OfDigits` | expenses/views.py:26 | four digits are the padded spelling of their value |
| `DateParsing.DayFieldComplete` | expenses/views.py:26 | every spelling of a day is accepted as that day |
| `DateParsing.FormatDateRoundTrip` | expenses/views.py:86 | every trend label parses back, through `parse_date`, to the day it names |
| `DateParsing.ParseDateRejects` | expenses/views.py:25-28 | "2025-13-40", "2025-02-29" and "0000-01-01" give no date |
| `DateParsing.ParseDateRejectsTrailing` | expenses/views.py:25-28 | trailing text after the day gives no date |
| `DateParsing.ParseDateAccepts` | expenses/views.py:25-26 | "2024-02-29" parses as a leap day, and "2025-6-1" as 1 June 2025 |
| `Models.KindCode` | expenses/models.py:11-16 | each stored type code is non-empty and fits `max_length=7` |
| `Models.KindFromCode` | expenses/models.py:11-16 | a string is accepted only as the code of the kind returned |
| `Models.KindCodeRoundTrip` | expenses/models.py:11-16 | each kind's code reads back as that kind |
| `Models.ValidAmount` | expenses/models.py:18 | definition of `DecimalField(max_digits=10, decimal_places=2)` in cents: at most ten digits, either sign |
| `Models.ValidStore` | expenses/models.py:3-20 | definition of a well-formed store: category keys are their ids, rows are valid, every category reference points at a stored category, transaction ids are distinct; `Models.DeleteCategoryKeepsValid` shows deletion keeps it |
| `Models.DetachAll` | expenses/models.py:17 | `SET_NULL` clears exactly the references to the deleted category and changes nothing else, in order |
| `Models.DeleteCategory` | expenses/models.py:17 | the category row goes; every transaction stays, and none refers to the deleted id |
| `Models.DeleteCategoryKeepsValid` | expenses/models.py:3-20 | deleting a category keeps the store valid: valid rows, references to stored categories only, distinct ids |
| `Filtering.ParseCategory` | expenses/views.py:43-44 | the category filter applies exactly when the parameter is given and is all digits |
| `Filtering.ParseCategoryRoundTrip` | expenses/views.py:43-44 | a category id written in decimal selects that id |
| `Filtering.ParseKind` | expenses/views.py:46-47 | the type filter applies exactly for `income` or `expense`, and to that kind |
| `Filtering.ParseCriteria` | expenses/views.py:16-47 | definition of the four criteria read from the query: both dates through `parse_date`, the category through `isdigit`/`int`, the type only for `income`/`expense`; the lemmas `Filtering.*ParametersIgnored` state its edge cases |
| `Filtering.Satisfies` | expenses/views.py:37-47 | reference definition: start ≤ date, date ≤ end, category id and type, each only when its criterion is present; `Filtering.LookupsMeanCriteria` ties the chain to it |
| `Filtering.Filtered` | expenses/views.py:34-47 | definition of the filtered queryset; `Filtering.FilteredMembership` states that it keeps exactly the table's transactions that satisfy the criteria |
| `Filtering.FilterBy` | expenses/views.py:37-47 | one `.filter(...)` keeps exactly the transactions the lookup holds for, and no more rows than it started with |
| `Filtering.Keep` | expenses/views.py:37-47 | chained lookups keep exactly the transactions every lookup holds for |
| `Filtering.FilterByKeep` | expenses/views.py:37-47 | one more `.filter(f)` on a chain is the chain with f appended |
| `Filtering.FilterByIsKeep` | expenses/views.py:37-47 | a single `.filter(f)` is the chain of just f |
| `Filtering.FilterByCommutes` | expenses/views.py:37-47 | the order in which two filters are chained does not matter |
| `Filtering.HoldsAllPair` | expenses/views.py:37-47 | a chain of two lookups holds when both do |
| `Filtering.KeepSameLookups` | expenses/views.py:37-47 | chains that accept the same transactions give the same result |
| `Filtering.KeepNothing` | expenses/views.py:34 | with no filter the queryset is the whole table |
| `Filtering.FilterByKeepsAll` | expenses/views.py:37-47 | a `.filter` that every row passes changes nothing |
| `Filtering.LookupsMeanCriteria` | expenses/views.py:37-47 | a transaction passes the view's chain exactly when it meets every present criterion (start ≤ date ≤ end, category id, type) |
| `Filtering.FilteredMembership` | expenses/views.py:37-47 | a transaction is kept exactly when it is in the table and meets every present criterion |
| `Filtering.StepKeep` | expenses/views.py:37-47 | a guarded `.filter` step is the chain extended when its criterion is present, and unchanged otherwise |
| `Filtering.ApplyFilters` | expenses/views.py:34-47 | the four guarded filters give exactly the filtered table, holding exactly the matching transactions |
| `Filtering.StartAfterEndIsEmpty` | expenses/views.py:37-41 | an end date before the start date leaves no transaction |
| `Filtering.UnknownCategoryIsEmpty` | expenses/views.py:43-44 | in a valid store, a category id that names no category leaves no transaction |
| `Filtering.CategoryParameterIgnored` | expenses/views.py:43 | a category parameter that is not all digits counts as no parameter |
| `Filtering.KindParameterIgnored` | expenses/views.py:46 | a type parameter other than `income`/`expense` counts as no parameter |
| `Filtering.StartDateParameterIgnored` | expenses/views.py:22-38 | a `start_date` that does not parse counts as no `start_date`, whatever `end_date` is |
| `Filtering.EndDateParameterIgnored` | expenses/views.py:22-41 | an `end_date` that does not parse counts as no `end_date`, whatever `start_date` is |
| `Totals.AggregateSum` | expenses/views.py:50-56 | definition of `aggregate(total=Sum('amount'))['total']`: NULL over no rows, the sum otherwise |
| `Totals.OrZero` | expenses/views.py:52 | definition of `or Decimal('0.00')`: a NULL or zero total reads as 0 |
| `Totals.Total` | expenses/views.py:50-56 | definition of a headline total; `Totals.TotalIsKindSum` states that it is the sum of the filtered amounts of its kind |
| `Totals.OrZeroAggregate` | expenses/views.py:50-56 | `Sum(...) or 0` is the plain sum, 0 over no rows |
| `Totals.SumFilterByKind` | expenses/views.py:50-56 | the sum over `.filter(type=k)` is the sum of the amounts of kind k |
| `Totals.TotalIsKindSum` | expenses/views.py:50-56 | each headline total is the sum of the filtered amounts of its kind, and 0 when there are none |
| `Totals.BalanceIsNet` | expenses/views.py:58 | the balance is the signed sum of the filtered amounts: income up, expense down |
| `Totals.KindSumsNet` | expenses/views.py:50-58 | income minus expense is the signed sum, and income plus expense is the whole sum |
| `Totals.TotalsCoverAll` | expenses/views.py:50-56 | the two totals share out the whole filtered sum |
| `Totals.KindSumSameShape` | expenses/views.py:50-56 | totals depend only on each row's type and amount |
| `Totals.DeleteCategoryKeepsTotals` | expenses/models.py:17 | deleting a category changes no unfiltered total |
| `Breakdown.CategoryName` | expenses/views.py:65 | definition of `category__name` through the nullable foreign key: the category's name, or NULL for a transaction without one |
| `Breakdown.LabelOf` | expenses/views.py:69 | definition of `name or 'Uncategorized'`: NULL and "" get the fallback label, any other name is its own label |
| `Breakdown.Distinct` | expenses/views.py:64-66 | the groups are distinct, and they are exactly the keys that occur |
| `Breakdown.GroupTotals` | expenses/views.py:66 | one total per group, each the sum of the amounts with that key |
| `Breakdown.SumInSplit` | expenses/views.py:66 | the amounts inside `g :: groups` are those of g plus those inside groups, when g is not among them |
| `Breakdown.GroupTotalsSum` | expenses/views.py:66 | the totals of distinct groups add up to the amounts inside those groups |
| `Breakdown.SumInAll` | expenses/views.py:66 | when every key is among the groups, everything is counted |
| `Breakdown.GroupingReconciles` | expenses/views.py:64-66 | grouping neither loses nor doubles an amount |
| `Breakdown.SumSeqAmounts` | expenses/views.py:66 | the amounts list sums to the sum of the transactions |
| `Breakdown.ExpenseByCategoryAsWritten` | expenses/views.py:64-75 | definition of the view's chart: group the expenses by `category__name`, total each group, then label each group with `or 'Uncategorized'`; stated by `Breakdown.ExpenseByCategoryAsWrittenShape` |
| `Breakdown.ExpenseByCategoryAsWrittenShape` | expenses/views.py:64-75 | the view's chart has parallel lists; every expense's label appears, with uncategorised ones under "Uncategorized"; every label belongs to some expense |
| `Breakdown.ExpenseByCategory` | expenses/views.py:64-75 | the corrected chart, grouped by the label shown; stated by `Breakdown.ExpenseByCategoryShape` |
| `Breakdown.ExpenseByCategoryShape` | expenses/views.py:64-75 | the corrected chart's lists are parallel and its labels distinct; every expense's label appears, with uncategorised ones under "Uncategorized"; every label belongs to some expense; each value sums the expenses bearing that label |
| `Breakdown.ExpenseByCategoryReconciles` | expenses/views.py:54-75 | the corrected chart's values add up to the headline total expense |
| `Breakdown.SameNameMerges` | expenses/views.py:64-71 | in the view's chart, two expenses whose categories share a name share one entry, holding the total of that name; when the name is neither "" nor "Uncategorized", no other entry bears its label |
| `Breakdown.SameNameMergesByLabel` | expenses/views.py:64-71 | in the corrected chart, two categories with the same name share one entry |
| `Breakdown.AsWrittenReconciles` | expenses/views.py:54-75 | the view's own chart also has parallel lists whose values add up to the total expense |
| `Breakdown.LabelsFaithfulInit` | expenses/views.py:68-71 | dropping the last name keeps the names told apart by their labels |
| `Breakdown.LabelMembership` | expenses/views.py:68-71 | when labels tell names apart, a name occurs exactly when its label does |
| `Breakdown.DistinctLabelsOfNames` | expenses/views.py:64-71 | when labels tell names apart, grouping by label gives the labels of the name groups, in the same order (both in the model's first-occurrence order) |
| `Breakdown.SumForLabelsOfNames` | expenses/views.py:64-71 | the total under a label is the total under the name it comes from |
| `Breakdown.LabelsUnambiguous` | expenses/views.py:68-71 | definition: no category is named "" or "Uncategorized", the condition under which labels tell the groups apart |
| `Breakdown.ByLabelAgreesWithView` | expenses/views.py:64-75 | unless a category is named "Uncategorized" or has an empty name, grouping by label gives the view's chart, entry for entry in the model's first-occurrence order |
| `Breakdown.AsWrittenUnambiguous` | expenses/views.py:64-75 | under the same condition the view's chart is the corrected chart: distinct labels, each value the total of the expenses bearing its label |
| `Breakdown.ClashIsValid` | expenses/models.py:3-20 | the clash store is a valid store |
| `Breakdown.ClashGroups` | expenses/views.py:64-66 | in the clash store the query sees two groups: the name "Uncategorized" and NULL |
| `Breakdown.ClashGroupTotals` | expenses/views.py:66 | those two groups total 10.00 and 5.00 |
| `Breakdown.ClashAsWritten` | expenses/views.py:64-75 | the view's chart for the clash store lists "Uncategorized" twice |
| `Breakdown.ClashByLabel` | expenses/views.py:64-75 | grouping by label gives one "Uncategorized" entry of 15.00 |
| `Breakdown.AsWrittenDuplicatesUncategorized` | expenses/views.py:64-71 | a valid store whose view chart has duplicate labels, and the corrected chart with one entry holding both amounts |
| `Trend.ExpensesOf` | expenses/views.py:88-91 | definition of `filter(type='expense', date=day)`; `Trend.ExpensesOfDay` states what it sums |
| `Trend.DailyExpense` | expenses/views.py:88-93 | definition of one bar: the day's aggregate, 0 when NULL; `Trend.DailyExpenseIsExpenseOn` states its meaning |
| `Trend.ExpensesOfDay` | expenses/views.py:88-91 | the day's query sums exactly the expenses dated that day |
| `Trend.DailyExpenseIsExpenseOn` | expenses/views.py:88-93 | a day's value is the sum of that day's expenses, and 0 when there are none |
| `Trend.ExpenseOnKeep` | expenses/views.py:37-47 | the day's expenses among the filtered rows are the table's expenses of that day that meet every criterion |
| `Trend.TrendRespectsFilters` | expenses/views.py:37-93 | a day's value counts exactly the expenses of that day that pass the start, end, category and type filters |
| `Trend.WindowDay` | expenses/views.py:79-85 | the i-th day of the window is a valid date, 6 - i days before the end day |
| `Trend.WindowIsConsecutive` | expenses/views.py:78-85 | the window's days are consecutive calendar days, strictly increasing, and the last is the end day |
| `Trend.WindowOverflow` | expenses/views.py:79 | the window cannot be formed exactly when the end day is one of the first six days of year 1 |
| `Trend.TrendPrefixExtend` | expenses/views.py:84-93 | appending day n's label and value extends a correct n-day prefix to n + 1 days |
| `Trend.LastSevenDays` | expenses/views.py:78-93 | overflow exactly when the window cannot be formed; otherwise seven labels and seven values, each the `%Y-%m-%d` label and the expense total of its window day |
| `Trend.TrendLabelsParse` | expenses/views.py:86 | every trend label reads back as its day |
| `Listing.Insert` | expenses/views.py:118 | inserting keeps length and contents (as a multiset) and keeps newest-first order |
| `Listing.InsertFront` | expenses/views.py:118 | a transaction no older than the head may go in front |
| `Listing.InsertBehind` | expenses/views.py:118 | the head stays in front of anything older than it |
| `Listing.DateLeTotal` | expenses/views.py:118 | any two dates are ordered one way or the other |
| `Listing.DateLeTransitive` | expenses/views.py:118 | date order is transitive |
| `Listing.SortNewestFirst` | expenses/views.py:118 | `order_by('-date')` is a permutation of the table with dates never increasing |
| `Listing.PrefixIsNewest` | expenses/views.py:118 | nothing after the first n entries of a newest-first list is newer than any of them |
| `Listing.Recent` | expenses/views.py:118 | definition of `order_by('-date')[:5]`; `Listing.RecentIsNewest` states its meaning |
| `Listing.RecentIsNewest` | expenses/views.py:118 | the list shows min(5, n) transactions, newest first, drawn from the table, and no transaction left out is newer than one shown |
| `Listing.RecentKeepsSmallTables` | expenses/views.py:118 | with five or fewer transactions, all of them are shown |
| `Dashboard.Echo` | expenses/views.py:107-110 | definition of `value or ''`: the raw parameter echoed back, "" when absent |
| `Dashboard.TrendEnd` | expenses/views.py:78 | definition of `e_date if e_date else date.today()` |
| `Dashboard.TrendEndValid` | expenses/views.py:78 | the trend's end day (`e_date` or today) is a valid date |
| `Dashboard.IsDashboard` | expenses/views.py:14-113 | reference definition of the rendered page: the window can be formed, the totals and balance are those of the filtered table, the chart is the view's, the trend is a correct seven-day prefix, and the four parameters are echoed |
| `Dashboard.RenderDashboard` | expenses/views.py:14-113 | the page fails exactly when the window cannot be formed; otherwise totals, balance, category chart, trend and echoed parameters are those of the filtered table |
| `Dashboard.DashboardOverflow` | expenses/views.py:78-79 | the page fails exactly for an end date among 0001-01-01 … 0001-01-06 |
| `Dashboard.DashboardTotals` | expenses/views.py:50-58 | the page's totals are the filtered income and expense sums, and its balance their signed sum |
| `Dashboard.DashboardCategoryChart` | expenses/views.py:54-75 | the page's chart has parallel lists whose values add up to the total expense; every filtered expense's label appears, uncategorised ones under "Uncategorized"; every label is some filtered expense's; when no category is named "" or "Uncategorized", the labels are distinct, each value sums its label's expenses, and the chart equals the corrected one in the model's first-occurrence order |
| `Dashboard.ValidStoreUnambiguous` | expenses/models.py:3-20 | in a valid store, no category named "Uncategorized" is enough to meet that condition |
| `Dashboard.DashboardTrend` | expenses/views.py:78-93 | the page's trend has seven consecutive days ending at the end day; each label parses back to its day; each value counts that day's expenses that pass every filter |
| `Dashboard.TrendWindowFacts` | expenses/views.py:78-93 | a correct seven-day trend over the filtered table has the facts just listed |
| `Dashboard.IncomeFilterHidesExpenses` | expenses/views.py:46-93 | with `type=income`: no expense total, balance equal to income, an empty category chart and a flat trend |
| `Dashboard.NoExpensesUnderIncomeFilter` | expenses/views.py:46-56 | under the income filter no expense survives, and the expense total is 0 |
| `Dashboard.NoExpensesFlatTrend` | expenses/views.py:88-93 | without expenses every trend value is 0 |
| `Dashboard.ScenarioIsValid` | expenses/models.py:3-20 | the sample store is valid |
| `Dashboard.ScenarioUnfiltered` | expenses/views.py:34-47 | without parameters nothing is filtered out |
| `Dashboard.ScenarioTotals` | expenses/views.py:50-56 | the sample store totals 50.00 income and 15.00 expense |
| `Dashboard.ScenarioExpenses` | expenses/views.py:64-66 | the sample's expenses are its two food rows, 10.00 and 5.00, both with the name "Food" |
| `Dashboard.ScenarioNameGroups` | expenses/views.py:64-71 | the two "Food" names form one group of 15.00, labelled "Food" |
| `Dashboard.ScenarioChart` | expenses/views.py:64-75 | the view's chart for the sample is one slice "Food" of 15.00 |
| `Dashboard.ScenarioFigures` | expenses/views.py:50-75 | without filters the sample page shows income 50.00, expense 15.00, balance 35.00 and the single slice "Food" of 15.00 |
| `Dashboard.ClashUnfiltered` | expenses/views.py:34-47 | without parameters the clash store's expenses all pass |
| `Dashboard.ClashPage` | expenses/views.py:64-75 | the page for the clash store shows two slices both labelled "Uncategorized", of 10.00 and 5.00 |
| `Dashboard.ScenarioDays` | expenses/views.py:88-93 | the sample's expenses day by day: 10.00 on 2025-06-01, 5.00 on 2025-06-02, 0 otherwise |
| `Dashboard.ScenarioLabel` | expenses/views.py:86 | 2025-06-02 is labelled "2025-06-02" |
| `Dashboard.TrendLastPoint` | expenses/views.py:84-93 | a trend's last point is the end day's label and that day's expenses |
| `Dashboard.ScenarioTrend` | expenses/views.py:78-93 | with today 2025-06-02, the sample's last bar is "2025-06-02" with 5.00 |

## Left out

- Django plumbing is left out: requests, `render`, templates, `messages`, and
  `json.dumps` of the chart lists. The model returns the values the
  template receives.
- The add, edit and delete views, the form and the URL table are not part of
  this model. Deleting a category is modelled only for its `SET_NULL` effect
  on transactions.
- `date.today()` is not read from a clock: it is the `today` parameter of
  `Dashboard.RenderDashboard`.
- Chart values are kept in exact cents. The conversion `float(...)` for the
  charts is not modelled.
- `Category.objects.all().order_by('name')` (the filter dropdown,
  expenses/views.py:61) only passes the category table to the template and
  is not modelled.
- `Breakdown.ExpenseByCategoryAsWritten`: group order is first-occurrence
  order, and so is that of `Breakdown.ExpenseByCategory`. SQL
  `GROUP BY` leaves the order unspecified, so the model fixes one. The
  shape contracts (`Breakdown.ExpenseByCategoryAsWrittenShape`,
  `Breakdown.ExpenseByCategoryShape`, `Breakdown.AsWrittenReconciles`,
  `Breakdown.SameNameMerges`) speak of the labels present and their totals,
  not of their order. Four general lemmas compare the view's chart with the
  chart grouped by label as sequences, both in the model's first-occurrence
  order: `Breakdown.DistinctLabelsOfNames`, `Breakdown.ByLabelAgreesWithView`,
  `Breakdown.AsWrittenUnambiguous` and `Dashboard.DashboardCategoryChart`. A
  database's chart matches them only up to the order of its (label, value)
  entries. Three concrete lemmas also state the model's chosen order:
  `Breakdown.ClashGroups` (groups `Some("Uncategorized")` then NULL),
  `Breakdown.ClashAsWritten` and `Dashboard.ClashPage` (values 10.00 then
  5.00). A database may return the NULL group first, giving 5.00 then 10.00;
  the repeated "Uncategorized" label does not depend on the order.
- `Listing.SortNewestFirst`: the order of transactions on the same date under
  `order_by('-date')` is left to the database. The model fixes one order, and
  the contracts only state that dates never increase.
- `created_at` (expenses/models.py:23) is not read by the core and is not
  modelled.
- `Digits.IsDigitString` covers ASCII digits only. Python's `str.isdigit` and
  the `\d` of strptime also accept other Unicode digits.
- `DateParsing.FormatDate` always pads the year to four digits. Python's
  `strftime('%Y')` does not pad years below 1000 on every platform.
- `Filtering.ParseCategory` accepts any natural number. A database would raise
  an error on an id wider than its integer column.
- `Dashboard.ScenarioTrend` proves only the last bar of the sample trend. That
  the whole trend is correct is `Dashboard.DashboardTrend`, proved for every
  store.
- The store being unreachable, and concurrent writes during one request, are
  left out. The model reads one fixed snapshot of the tables.

## Findings

| source | as written | input that shows it | evidently intended | confidence | as-written member | corrected member |
|---|---|---|---|---|---|---|
| expenses/views.py:64-71 | the expenses are grouped by `category__name`, and `or 'Uncategorized'` is applied to each group afterwards, so NULL and a category literally named "Uncategorized" (or named "") form separate groups with the same label | a category 1 named "Uncategorized" holding an expense of 10.00, and an expense of 5.00 with no category | one slice per label: "Uncategorized" once, worth 15.00, so the labels stay distinct | not executed | `Dashboard.ClashPage` | `Breakdown.ExpenseByCategoryShape` |

`Breakdown.ExpenseByCategoryAsWritten` is the view's grouping, and
`Dashboard.RenderDashboard` uses it, so the page model keeps the duplicate.
`Breakdown.AsWrittenDuplicatesUncategorized` shows the same store at the level
of the chart, next to the corrected chart with one entry of 15.00.
`Breakdown.ExpenseByCategory` groups by the label shown.
`Dashboard.DashboardCategoryChart` shows that the page's chart equals it
whenever no category is named "Uncategorized" or "".
