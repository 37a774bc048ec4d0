/**
 * The expense-by-category chart: the filtered expenses grouped by category
 * name, a missing name shown as "Uncategorized", as two parallel lists of
 * labels and totals (in cents).
 *
 * The view groups by `category__name` and only then replaces a missing name
 * by "Uncategorized" (`ExpenseByCategoryAsWritten`); `ExpenseByCategory`
 * groups by the label itself, which keeps the labels distinct.
 */
module Breakdown {
  import opened Wrappers
  import opened Models
  import opened Filtering
  import opened Totals
  import opened Charts

  const UNCATEGORIZED := "Uncategorized"

  /** `category__name` through the nullable foreign key (a LEFT OUTER JOIN). */
  function CategoryName(cats: map<nat, Category>, t: Transaction): Option<string> {
    if t.category.Some? && t.category.value in cats then Some(cats[t.category.value].name) else None
  }

  /** `item['category__name'] or 'Uncategorized'`: a missing or empty name gets the fallback label. */
  function LabelOf(name: Option<string>): string {
    if name.None? || name.value == "" then UNCATEGORIZED else name.value
  }

  function Label(cats: map<nat, Category>, t: Transaction): string {
    LabelOf(CategoryName(cats, t))
  }

  predicate NoDuplicates<K(==)>(s: seq<K>) {
    forall i, j :: 0 <= i < j < |s| ==> s[i] != s[j]
  }

  /** The distinct keys in order of first appearance: the groups of a GROUP BY. */
  function Distinct<K(==)>(s: seq<K>): (r: seq<K>)
    ensures NoDuplicates(r)
    ensures forall i :: 0 <= i < |r| ==> r[i] in s
    ensures forall i :: 0 <= i < |s| ==> s[i] in r
  {
    if s == [] then []
    else
      var init := s[..|s| - 1];
      var r := Distinct(init);
      assert forall i :: 0 <= i < |init| ==> s[i] == init[i];
      if s[|s| - 1] in r then r else r + [s[|s| - 1]]
  }

  /** The sum of the amounts whose key is k. */
  function SumFor<K(==)>(keys: seq<K>, amounts: seq<int>, k: K): int
    requires |keys| == |amounts|
  {
    if keys == [] then 0
    else (if keys[0] == k then amounts[0] else 0) + SumFor(keys[1..], amounts[1..], k)
  }

  /** The sum of the amounts whose key is one of `groups`. */
  function SumIn<K(==)>(keys: seq<K>, amounts: seq<int>, groups: seq<K>): int
    requires |keys| == |amounts|
  {
    if keys == [] then 0
    else (if keys[0] in groups then amounts[0] else 0) + SumIn(keys[1..], amounts[1..], groups)
  }

  /** `.annotate(total=Sum('amount'))`: one total per group, in the groups' order. */
  function GroupTotals<K(==)>(keys: seq<K>, amounts: seq<int>, groups: seq<K>): (r: seq<int>)
    requires |keys| == |amounts|
    ensures |r| == |groups|
    ensures forall j :: 0 <= j < |groups| ==> r[j] == SumFor(keys, amounts, groups[j])
  {
    if groups == [] then [] else [SumFor(keys, amounts, groups[0])] + GroupTotals(keys, amounts, groups[1..])
  }

  function SumSeq(s: seq<int>): int {
    if s == [] then 0 else s[0] + SumSeq(s[1..])
  }

  lemma {:induction false} SumInSplit<K>(keys: seq<K>, amounts: seq<int>, g: K, groups: seq<K>)
    requires |keys| == |amounts| && g !in groups
    ensures SumIn(keys, amounts, [g] + groups) == SumFor(keys, amounts, g) + SumIn(keys, amounts, groups)
  {
    if keys != [] {
      SumInSplit(keys[1..], amounts[1..], g, groups);
    }
  }

  lemma {:induction false} GroupTotalsSum<K>(keys: seq<K>, amounts: seq<int>, groups: seq<K>)
    requires |keys| == |amounts| && NoDuplicates(groups)
    ensures SumSeq(GroupTotals(keys, amounts, groups)) == SumIn(keys, amounts, groups)
  {
    if groups == [] {
      SumInNone(keys, amounts, groups);
    } else {
      var rest := groups[1..];
      assert NoDuplicates(rest) by {
        forall i, j | 0 <= i < j < |rest| ensures rest[i] != rest[j] {
          assert rest[i] == groups[i + 1] && rest[j] == groups[j + 1];
        }
      }
      assert groups[0] !in rest by {
        forall j | 0 <= j < |rest| ensures rest[j] != groups[0] {
          assert rest[j] == groups[j + 1];
        }
      }
      GroupTotalsSum(keys, amounts, rest);
      SumInSplit(keys, amounts, groups[0], rest);
      assert [groups[0]] + rest == groups;
      var r := GroupTotals(keys, amounts, groups);
      assert r[1..] == GroupTotals(keys, amounts, rest);
    }
  }

  lemma {:induction false} SumInNone<K>(keys: seq<K>, amounts: seq<int>, groups: seq<K>)
    requires |keys| == |amounts| && groups == []
    ensures SumIn(keys, amounts, groups) == 0
  {
    if keys != [] {
      SumInNone(keys[1..], amounts[1..], groups);
    }
  }

  lemma {:induction false} SumInAll<K>(keys: seq<K>, amounts: seq<int>, groups: seq<K>)
    requires |keys| == |amounts|
    requires forall k :: k in keys ==> k in groups
    ensures SumIn(keys, amounts, groups) == SumSeq(amounts)
  {
    if keys != [] {
      assert keys[0] in keys;
      assert forall k :: k in keys[1..] ==> k in keys;
      SumInAll(keys[1..], amounts[1..], groups);
    }
  }

  /** Grouping neither loses nor doubles an amount: the group totals add up to the whole. */
  lemma GroupingReconciles<K>(keys: seq<K>, amounts: seq<int>)
    requires |keys| == |amounts|
    ensures SumSeq(GroupTotals(keys, amounts, Distinct(keys))) == SumSeq(amounts)
  {
    GroupTotalsSum(keys, amounts, Distinct(keys));
    SumInAll(keys, amounts, Distinct(keys));
  }

  function Amounts(ts: seq<Transaction>): (r: seq<int>)
    ensures |r| == |ts| && forall i :: 0 <= i < |ts| ==> r[i] == ts[i].amount
  {
    seq(|ts|, i requires 0 <= i < |ts| => ts[i].amount)
  }

  function Names(ts: seq<Transaction>, cats: map<nat, Category>): (r: seq<Option<string>>)
    ensures |r| == |ts| && forall i :: 0 <= i < |ts| ==> r[i] == CategoryName(cats, ts[i])
  {
    seq(|ts|, i requires 0 <= i < |ts| => CategoryName(cats, ts[i]))
  }

  function Labels(ts: seq<Transaction>, cats: map<nat, Category>): (r: seq<string>)
    ensures |r| == |ts| && forall i :: 0 <= i < |ts| ==> r[i] == Label(cats, ts[i])
  {
    seq(|ts|, i requires 0 <= i < |ts| => Label(cats, ts[i]))
  }

  /** The fallback applied to each group's name. */
  function LabelsOfNames(names: seq<Option<string>>): (r: seq<string>)
    ensures |r| == |names| && forall i :: 0 <= i < |names| ==> r[i] == LabelOf(names[i])
  {
    seq(|names|, i requires 0 <= i < |names| => LabelOf(names[i]))
  }

  lemma {:induction false} SumSeqAmounts(ts: seq<Transaction>)
    ensures SumSeq(Amounts(ts)) == Sum(ts)
  {
    if ts != [] {
      assert Amounts(ts)[1..] == Amounts(ts[1..]);
      SumSeqAmounts(ts[1..]);
    }
  }

  /** The view's chart: group by `category__name`, then turn the group names into labels. */
  function ExpenseByCategoryAsWritten(expenses: seq<Transaction>, cats: map<nat, Category>): Chart {
    var keys := Names(expenses, cats);
    var groups := Distinct(keys);
    Chart(LabelsOfNames(groups), GroupTotals(keys, Amounts(expenses), groups))
  }

  /** The chart with the groups keyed by the label shown. */
  function ExpenseByCategory(expenses: seq<Transaction>, cats: map<nat, Category>): Chart {
    var keys := Labels(expenses, cats);
    var groups := Distinct(keys);
    Chart(groups, GroupTotals(keys, Amounts(expenses), groups))
  }

  /**
   * The chart's lists are parallel and its labels distinct; every expense
   * has its label in the chart (an expense without a category under
   * "Uncategorized"); every label belongs to some expense; and each value is
   * the sum of the amounts of the expenses carrying that label.
   */
  lemma ExpenseByCategoryShape(expenses: seq<Transaction>, cats: map<nat, Category>)
    ensures var c := ExpenseByCategory(expenses, cats);
      |c.labels| == |c.values| && NoDuplicates(c.labels) &&
      (forall t :: t in expenses ==> Label(cats, t) in c.labels) &&
      (forall t :: t in expenses && t.category.None? ==> UNCATEGORIZED in c.labels) &&
      (forall j :: 0 <= j < |c.labels| ==> c.labels[j] in Labels(expenses, cats)) &&
      (forall j :: 0 <= j < |c.labels| ==> c.values[j] == SumFor(Labels(expenses, cats), Amounts(expenses), c.labels[j]))
  {
    var keys := Labels(expenses, cats);
    forall t | t in expenses ensures Label(cats, t) in keys {
      var i :| 0 <= i < |expenses| && expenses[i] == t;
      assert keys[i] == Label(cats, t);
    }
  }

  /** The chart's values add up to the expense total shown beside it. */
  lemma ExpenseByCategoryReconciles(ts: seq<Transaction>, cats: map<nat, Category>)
    ensures SumSeq(ExpenseByCategory(FilterBy(ts, KindIs(Expense)), cats).values) == Total(ts, Expense)
  {
    var expenses := FilterBy(ts, KindIs(Expense));
    GroupingReconciles(Labels(expenses, cats), Amounts(expenses));
    SumSeqAmounts(expenses);
    OrZeroAggregate(expenses);
  }

  /** In the chart grouped by label, two categories with the same name share one entry. */
  lemma SameNameMergesByLabel(expenses: seq<Transaction>, cats: map<nat, Category>, t1: Transaction, t2: Transaction)
    requires t1 in expenses && t2 in expenses
    requires t1.category.Some? && t1.category.value in cats
    requires t2.category.Some? && t2.category.value in cats
    requires cats[t1.category.value].name == cats[t2.category.value].name
    ensures var c := ExpenseByCategory(expenses, cats);
      exists j :: 0 <= j < |c.labels| && c.labels[j] == Label(cats, t1) && c.labels[j] == Label(cats, t2)
    ensures var c := ExpenseByCategory(expenses, cats);
      forall i, j :: 0 <= i < |c.labels| && 0 <= j < |c.labels| && c.labels[i] == Label(cats, t1) && c.labels[j] == Label(cats, t2) ==> i == j
  {
    ExpenseByCategoryShape(expenses, cats);
    var c := ExpenseByCategory(expenses, cats);
    var j :| 0 <= j < |c.labels| && c.labels[j] == Label(cats, t1);
  }

  /**
   * In the view's chart, two categories with the same name share one group:
   * it carries their label and the amounts of every expense filed under that
   * name; unless the name is "" or "Uncategorized", no other entry has that label.
   */
  lemma SameNameMerges(expenses: seq<Transaction>, cats: map<nat, Category>, t1: Transaction, t2: Transaction)
    requires t1 in expenses && t2 in expenses
    requires t1.category.Some? && t1.category.value in cats
    requires t2.category.Some? && t2.category.value in cats
    requires cats[t1.category.value].name == cats[t2.category.value].name
    ensures var c := ExpenseByCategoryAsWritten(expenses, cats);
      exists j :: 0 <= j < |c.labels| && c.labels[j] == Label(cats, t1) && c.labels[j] == Label(cats, t2) &&
        c.values[j] == SumFor(Names(expenses, cats), Amounts(expenses), CategoryName(cats, t1))
    ensures var c := ExpenseByCategoryAsWritten(expenses, cats);
      var n := cats[t1.category.value].name;
      n != "" && n != UNCATEGORIZED ==>
        forall i, j :: 0 <= i < |c.labels| && 0 <= j < |c.labels| && c.labels[i] == Label(cats, t1) && c.labels[j] == Label(cats, t2) ==> i == j
  {
    SameNameShared(expenses, cats, t1, t2);
    SameNameUnique(expenses, cats, t1, t2);
  }

  lemma SameNameShared(expenses: seq<Transaction>, cats: map<nat, Category>, t1: Transaction, t2: Transaction)
    requires t1 in expenses && t2 in expenses
    requires t1.category.Some? && t1.category.value in cats
    requires t2.category.Some? && t2.category.value in cats
    requires cats[t1.category.value].name == cats[t2.category.value].name
    ensures var c := ExpenseByCategoryAsWritten(expenses, cats);
      exists j :: 0 <= j < |c.labels| && c.labels[j] == Label(cats, t1) && c.labels[j] == Label(cats, t2) &&
        c.values[j] == SumFor(Names(expenses, cats), Amounts(expenses), CategoryName(cats, t1))
  {
    var names := Names(expenses, cats);
    var n := cats[t1.category.value].name;
    var i1 :| 0 <= i1 < |expenses| && expenses[i1] == t1;
    assert names[i1] == Some(n);
    NameGroupShared(names, Amounts(expenses), n);
    var c := ExpenseByCategoryAsWritten(expenses, cats);
    assert c.labels == LabelsOfNames(Distinct(names));
    assert c.values == GroupTotals(names, Amounts(expenses), Distinct(names));
    var j :| 0 <= j < |Distinct(names)| && LabelsOfNames(Distinct(names))[j] == LabelOf(Some(n)) &&
      GroupTotals(names, Amounts(expenses), Distinct(names))[j] == SumFor(names, Amounts(expenses), Some(n));
    assert CategoryName(cats, t1) == Some(n) && CategoryName(cats, t2) == Some(n);
    assert c.labels[j] == Label(cats, t1) && c.labels[j] == Label(cats, t2);
  }

  lemma SameNameUnique(expenses: seq<Transaction>, cats: map<nat, Category>, t1: Transaction, t2: Transaction)
    requires t1 in expenses && t2 in expenses
    requires t1.category.Some? && t1.category.value in cats
    requires t2.category.Some? && t2.category.value in cats
    requires cats[t1.category.value].name == cats[t2.category.value].name
    ensures var c := ExpenseByCategoryAsWritten(expenses, cats);
      var n := cats[t1.category.value].name;
      n != "" && n != UNCATEGORIZED ==>
        forall i, j :: 0 <= i < |c.labels| && 0 <= j < |c.labels| && c.labels[i] == Label(cats, t1) && c.labels[j] == Label(cats, t2) ==> i == j
  {
    var n := cats[t1.category.value].name;
    if n != "" && n != UNCATEGORIZED {
      var groups := Distinct(Names(expenses, cats));
      assert ExpenseByCategoryAsWritten(expenses, cats).labels == LabelsOfNames(groups);
      assert Label(cats, t1) == n && Label(cats, t2) == n;
      NamedGroupUnique(groups, n);
    }
  }

  /** A name that occurs has one group, labelled by that name and totalling the amounts filed under it. */
  lemma NameGroupShared(names: seq<Option<string>>, amounts: seq<int>, n: string)
    requires |names| == |amounts| && Some(n) in names
    ensures exists j :: (0 <= j < |Distinct(names)| && LabelsOfNames(Distinct(names))[j] == LabelOf(Some(n)) &&
                         GroupTotals(names, amounts, Distinct(names))[j] == SumFor(names, amounts, Some(n)))
  {
    var groups := Distinct(names);
    var k :| 0 <= k < |groups| && groups[k] == Some(n);
    assert LabelsOfNames(groups)[k] == LabelOf(Some(n));
  }

  /** A name that is neither "" nor "Uncategorized" labels at most one of distinct groups. */
  lemma NamedGroupUnique(groups: seq<Option<string>>, n: string)
    requires NoDuplicates(groups) && n != "" && n != UNCATEGORIZED
    ensures forall i, j :: 0 <= i < |groups| && 0 <= j < |groups| && LabelsOfNames(groups)[i] == n && LabelsOfNames(groups)[j] == n ==> i == j
  {
    forall i, j | 0 <= i < |groups| && 0 <= j < |groups| && LabelsOfNames(groups)[i] == n && LabelsOfNames(groups)[j] == n
      ensures i == j
    {
      assert groups[i] == Some(n) && groups[j] == Some(n);
    }
  }

  /** The view's chart also has parallel lists whose values add up to the expense total. */
  lemma AsWrittenReconciles(ts: seq<Transaction>, cats: map<nat, Category>)
    ensures var c := ExpenseByCategoryAsWritten(FilterBy(ts, KindIs(Expense)), cats);
      |c.labels| == |c.values| && SumSeq(c.values) == Total(ts, Expense)
  {
    var expenses := FilterBy(ts, KindIs(Expense));
    GroupingReconciles(Names(expenses, cats), Amounts(expenses));
    SumSeqAmounts(expenses);
    OrZeroAggregate(expenses);
  }

  /** No two different names of `keys` get the same label. */
  predicate LabelsFaithful(keys: seq<Option<string>>) {
    forall i, j :: 0 <= i < |keys| && 0 <= j < |keys| && LabelOf(keys[i]) == LabelOf(keys[j]) ==> keys[i] == keys[j]
  }

  lemma LabelsFaithfulInit(keys: seq<Option<string>>)
    requires keys != [] && LabelsFaithful(keys)
    ensures LabelsFaithful(keys[..|keys| - 1])
  {
    var init := keys[..|keys| - 1];
    forall i, j | 0 <= i < |init| && 0 <= j < |init| && LabelOf(init[i]) == LabelOf(init[j])
      ensures init[i] == init[j]
    {
      assert init[i] == keys[i] && init[j] == keys[j];
    }
  }

  /** Under a faithful labelling, a name is among the groups exactly when its label is. */
  lemma LabelMembership(keys: seq<Option<string>>, r: seq<Option<string>>)
    requires keys != [] && LabelsFaithful(keys)
    requires forall j :: 0 <= j < |r| ==> r[j] in keys[..|keys| - 1]
    ensures LabelOf(keys[|keys| - 1]) in LabelsOfNames(r) <==> keys[|keys| - 1] in r
  {
    var x := keys[|keys| - 1];
    var init := keys[..|keys| - 1];
    if LabelOf(x) in LabelsOfNames(r) {
      var j :| 0 <= j < |r| && LabelsOfNames(r)[j] == LabelOf(x);
      var i :| 0 <= i < |init| && init[i] == r[j];
      assert keys[i] == init[i];
    }
    if x in r {
      var j :| 0 <= j < |r| && r[j] == x;
      assert LabelsOfNames(r)[j] == LabelOf(x);
    }
  }

  /** Distinct, one step: the last key joins the groups of the others unless it is already there. */
  lemma DistinctLast<K>(s: seq<K>)
    requires s != []
    ensures Distinct(s) == (if s[|s| - 1] in Distinct(s[..|s| - 1]) then Distinct(s[..|s| - 1]) else Distinct(s[..|s| - 1]) + [s[|s| - 1]])
  {
  }

  lemma LabelsOfNamesLast(keys: seq<Option<string>>)
    requires keys != []
    ensures LabelsOfNames(keys)[..|keys| - 1] == LabelsOfNames(keys[..|keys| - 1])
    ensures LabelsOfNames(keys)[|keys| - 1] == LabelOf(keys[|keys| - 1])
  {
  }

  lemma {:induction false} DistinctLabelsOfNames(keys: seq<Option<string>>)
    requires LabelsFaithful(keys)
    ensures Distinct(LabelsOfNames(keys)) == LabelsOfNames(Distinct(keys))
  {
    if keys != [] {
      var init := keys[..|keys| - 1];
      var x := keys[|keys| - 1];
      var labels := LabelsOfNames(keys);
      LabelsOfNamesLast(keys);
      LabelsFaithfulInit(keys);
      DistinctLabelsOfNames(init);
      var r := Distinct(init);
      LabelMembership(keys, r);
      DistinctLast(keys);
      DistinctLast(labels);
      assert Distinct(labels[..|labels| - 1]) == LabelsOfNames(r);
      if x !in r {
        assert LabelsOfNames(r + [x]) == LabelsOfNames(r) + [LabelOf(x)];
      }
    }
  }

  lemma {:induction false} SumForLabelsOfNames(keys: seq<Option<string>>, amounts: seq<int>, k: Option<string>)
    requires |keys| == |amounts|
    requires forall i :: 0 <= i < |keys| && LabelOf(keys[i]) == LabelOf(k) ==> keys[i] == k
    ensures SumFor(LabelsOfNames(keys), amounts, LabelOf(k)) == SumFor(keys, amounts, k)
  {
    if keys != [] {
      assert LabelsOfNames(keys)[1..] == LabelsOfNames(keys[1..]);
      assert forall i :: 0 <= i < |keys[1..]| ==> keys[1..][i] == keys[i + 1];
      SumForLabelsOfNames(keys[1..], amounts[1..], k);
    }
  }

  /** No category is named "Uncategorized" or has an empty name, so no two groups of names share a label. */
  predicate LabelsUnambiguous(cats: map<nat, Category>) {
    forall id :: id in cats ==> cats[id].name != "" && cats[id].name != UNCATEGORIZED
  }

  /**
   * As long as no category is named "Uncategorized" or has an empty name,
   * grouping by label gives exactly the view's chart.
   */
  lemma ByLabelAgreesWithView(expenses: seq<Transaction>, cats: map<nat, Category>)
    requires LabelsUnambiguous(cats)
    ensures ExpenseByCategory(expenses, cats) == ExpenseByCategoryAsWritten(expenses, cats)
  {
    var names := Names(expenses, cats);
    var labels := Labels(expenses, cats);
    assert labels == LabelsOfNames(names);
    assert LabelsFaithful(names);
    DistinctLabelsOfNames(names);
    var groups := Distinct(names);
    var amounts := Amounts(expenses);
    var byLabel := GroupTotals(labels, amounts, Distinct(labels));
    var asWritten := GroupTotals(names, amounts, groups);
    forall j | 0 <= j < |groups| ensures byLabel[j] == asWritten[j] {
      assert Distinct(labels)[j] == LabelOf(groups[j]);
      SumForLabelsOfNames(names, amounts, groups[j]);
    }
  }

  /**
   * The view's chart: its lists are parallel; every expense has its label in
   * it (an expense without a category under "Uncategorized"); and every label
   * belongs to some expense.
   */
  lemma ExpenseByCategoryAsWrittenShape(expenses: seq<Transaction>, cats: map<nat, Category>)
    ensures var c := ExpenseByCategoryAsWritten(expenses, cats);
      |c.labels| == |c.values| &&
      (forall t :: t in expenses ==> Label(cats, t) in c.labels) &&
      (forall t :: t in expenses && t.category.None? ==> UNCATEGORIZED in c.labels) &&
      (forall j :: 0 <= j < |c.labels| ==> c.labels[j] in Labels(expenses, cats))
  {
    AsWrittenLabelsPresent(expenses, cats);
    AsWrittenLabelsBelong(expenses, cats);
  }

  lemma AsWrittenLabelsPresent(expenses: seq<Transaction>, cats: map<nat, Category>)
    ensures forall t :: t in expenses ==> Label(cats, t) in ExpenseByCategoryAsWritten(expenses, cats).labels
  {
    var names := Names(expenses, cats);
    LabelsOfGroups(names);
    assert ExpenseByCategoryAsWritten(expenses, cats).labels == LabelsOfNames(Distinct(names));
    forall t | t in expenses ensures Label(cats, t) in LabelsOfNames(Distinct(names)) {
      var i :| 0 <= i < |expenses| && expenses[i] == t;
      assert LabelOf(names[i]) == Label(cats, t);
    }
  }

  lemma AsWrittenLabelsBelong(expenses: seq<Transaction>, cats: map<nat, Category>)
    ensures var c := ExpenseByCategoryAsWritten(expenses, cats);
      forall j :: 0 <= j < |c.labels| ==> c.labels[j] in Labels(expenses, cats)
  {
    var names := Names(expenses, cats);
    LabelsOfGroups(names);
    assert Labels(expenses, cats) == LabelsOfNames(names);
    assert ExpenseByCategoryAsWritten(expenses, cats).labels == LabelsOfNames(Distinct(names));
  }

  /** Every name's label is among the labels of the groups, and every group's label is some name's label. */
  lemma LabelsOfGroups(names: seq<Option<string>>)
    ensures forall i :: 0 <= i < |names| ==> LabelOf(names[i]) in LabelsOfNames(Distinct(names))
    ensures forall j :: 0 <= j < |Distinct(names)| ==> LabelsOfNames(Distinct(names))[j] in LabelsOfNames(names)
  {
    var groups := Distinct(names);
    var labels := LabelsOfNames(groups);
    forall i | 0 <= i < |names| ensures LabelOf(names[i]) in labels {
      var k :| 0 <= k < |groups| && groups[k] == names[i];
      assert labels[k] == LabelOf(names[i]);
    }
    forall j | 0 <= j < |groups| ensures labels[j] in LabelsOfNames(names) {
      var i :| 0 <= i < |names| && names[i] == groups[j];
      assert LabelsOfNames(names)[i] == labels[j];
    }
  }

  /**
   * When no label is ambiguous, the view's chart is the one grouped by label:
   * its labels are distinct and each value is the sum of the expenses bearing
   * that label.
   */
  lemma AsWrittenUnambiguous(expenses: seq<Transaction>, cats: map<nat, Category>)
    requires LabelsUnambiguous(cats)
    ensures var c := ExpenseByCategoryAsWritten(expenses, cats);
      c == ExpenseByCategory(expenses, cats) && NoDuplicates(c.labels) &&
      (forall j :: 0 <= j < |c.labels| ==> c.values[j] == SumFor(Labels(expenses, cats), Amounts(expenses), c.labels[j]))
  {
    ByLabelAgreesWithView(expenses, cats);
    ExpenseByCategoryShape(expenses, cats);
  }

  /** A store with a category named "Uncategorized" and an expense without a category. */
  const CLASH_CATEGORIES: map<nat, Category> := map[1 := Category(1, UNCATEGORIZED)]
  const CLASH_EXPENSES: seq<Transaction> := [
    Transaction(1, Expense, Some(1), 1000, Calendar.Date(2025, 6, 1), None),
    Transaction(2, Expense, None, 500, Calendar.Date(2025, 6, 1), None)]

  lemma ClashIsValid()
    ensures ValidStore(Store(CLASH_CATEGORIES, CLASH_EXPENSES))
  {
  }

  /** The query sees two groups: the category named "Uncategorized", and NULL. */
  lemma ClashGroups()
    ensures Names(CLASH_EXPENSES, CLASH_CATEGORIES) == [Some(UNCATEGORIZED), None]
    ensures Distinct(Names(CLASH_EXPENSES, CLASH_CATEGORIES)) == [Some(UNCATEGORIZED), None]
  {
    var names := Names(CLASH_EXPENSES, CLASH_CATEGORIES);
    assert names == [Some(UNCATEGORIZED), None];
    assert Distinct(names[..1]) == [Some(UNCATEGORIZED)] by {
      assert names[..1][..0] == [];
    }
    DistinctLast(names);
  }

  lemma ClashGroupTotals()
    ensures GroupTotals([Some(UNCATEGORIZED), None], [1000, 500], [Some(UNCATEGORIZED), None]) == [1000, 500]
  {
    var names: seq<Option<string>> := [Some(UNCATEGORIZED), None];
    var amounts := [1000, 500];
    assert names[1..] == [None] && amounts[1..] == [500] && names[1..][1..] == [];
    assert SumFor(names[1..], amounts[1..], Some(UNCATEGORIZED)) == 0;
    assert SumFor(names[1..], amounts[1..], None) == 500;
  }

  lemma ClashAsWritten()
    ensures ExpenseByCategoryAsWritten(CLASH_EXPENSES, CLASH_CATEGORIES) == Chart([UNCATEGORIZED, UNCATEGORIZED], [1000, 500])
  {
    ClashGroups();
    ClashGroupTotals();
    assert Amounts(CLASH_EXPENSES) == [1000, 500];
    assert LabelsOfNames([Some(UNCATEGORIZED), None]) == [UNCATEGORIZED, UNCATEGORIZED];
  }

  lemma ClashByLabel()
    ensures ExpenseByCategory(CLASH_EXPENSES, CLASH_CATEGORIES) == Chart([UNCATEGORIZED], [1500])
  {
    var labels := Labels(CLASH_EXPENSES, CLASH_CATEGORIES);
    assert labels == [UNCATEGORIZED, UNCATEGORIZED];
    assert Distinct(labels[..1]) == [UNCATEGORIZED] by {
      assert labels[..1][..0] == [];
    }
    assert Distinct(labels) == [UNCATEGORIZED];
    var amounts := Amounts(CLASH_EXPENSES);
    assert amounts == [1000, 500];
    assert labels[1..] == [UNCATEGORIZED] && amounts[1..] == [500] && labels[1..][1..] == [];
    assert SumFor(labels[1..], amounts[1..], UNCATEGORIZED) == 500;
  }

  /**
   * In a well-formed store, a category named "Uncategorized" and an expense
   * without a category give the view's chart two entries labelled
   * "Uncategorized"; grouping by label gives one entry holding both amounts.
   */
  lemma AsWrittenDuplicatesUncategorized()
    ensures ValidStore(Store(CLASH_CATEGORIES, CLASH_EXPENSES))
    ensures !NoDuplicates(ExpenseByCategoryAsWritten(CLASH_EXPENSES, CLASH_CATEGORIES).labels)
    ensures ExpenseByCategory(CLASH_EXPENSES, CLASH_CATEGORIES) == Chart([UNCATEGORIZED], [1500])
  {
    ClashIsValid();
    ClashAsWritten();
    ClashByLabel();
    var labels := ExpenseByCategoryAsWritten(CLASH_EXPENSES, CLASH_CATEGORIES).labels;
    assert labels[0] == labels[1];
  }
}
