/**
 * The dashboard's headline figures: total income, total expense and balance,
 * in exact cents.
 */
module Totals {
  import opened Wrappers
  import opened Models
  import opened Filtering

  /** The sum of the amounts, in cents. */
  function Sum(ts: seq<Transaction>): int {
    if ts == [] then 0 else ts[0].amount + Sum(ts[1..])
  }

  /** `qs.aggregate(total=Sum('amount'))['total']`: SQL SUM is NULL over no rows. */
  function AggregateSum(ts: seq<Transaction>): Option<int> {
    if ts == [] then None else Some(Sum(ts))
  }

  /** `total or Decimal('0.00')`: a missing or zero total reads as 0. */
  function OrZero(total: Option<int>): int {
    if total.Some? && total.value != 0 then total.value else 0
  }

  /** `qs.filter(type=k).aggregate(total=Sum('amount'))['total'] or Decimal('0.00')`. */
  function Total(ts: seq<Transaction>, k: Kind): int {
    OrZero(AggregateSum(FilterBy(ts, KindIs(k))))
  }

  /** The reference reading: the amounts of the transactions of kind k, added up. */
  function KindSum(ts: seq<Transaction>, k: Kind): int {
    if ts == [] then 0 else (if ts[0].kind == k then ts[0].amount else 0) + KindSum(ts[1..], k)
  }

  /** Any sum of an aggregate, defaulted to zero, is the plain sum. */
  lemma OrZeroAggregate(ts: seq<Transaction>)
    ensures OrZero(AggregateSum(ts)) == Sum(ts)
  {
  }

  lemma {:induction false} SumFilterByKind(ts: seq<Transaction>, k: Kind)
    ensures Sum(FilterBy(ts, KindIs(k))) == KindSum(ts, k)
  {
    if ts != [] {
      SumFilterByKind(ts[1..], k);
      var head := if ts[0].kind == k then [ts[0]] else [];
      var rest := FilterBy(ts[1..], KindIs(k));
      assert FilterBy(ts, KindIs(k)) == head + rest;
      if ts[0].kind == k {
        assert (head + rest)[1..] == rest;
      } else {
        assert head + rest == rest;
      }
    }
  }

  /** A total is the sum of the amounts of that kind, and 0 when there are none. */
  lemma TotalIsKindSum(ts: seq<Transaction>, k: Kind)
    ensures Total(ts, k) == KindSum(ts, k)
    ensures (forall t :: t in ts ==> t.kind != k) ==> Total(ts, k) == 0
  {
    SumFilterByKind(ts, k);
    OrZeroAggregate(FilterBy(ts, KindIs(k)));
  }

  /** An income counts up, an expense counts down. */
  function SignedAmount(t: Transaction): int {
    if t.kind == Income then t.amount else -t.amount
  }

  function NetSum(ts: seq<Transaction>): int {
    if ts == [] then 0 else SignedAmount(ts[0]) + NetSum(ts[1..])
  }

  /** `balance = total_income - total_expense` is the signed sum of the filtered amounts. */
  lemma {:induction false} BalanceIsNet(ts: seq<Transaction>)
    ensures Total(ts, Income) - Total(ts, Expense) == NetSum(ts)
  {
    TotalIsKindSum(ts, Income);
    TotalIsKindSum(ts, Expense);
    KindSumsNet(ts);
  }

  lemma {:induction false} KindSumsNet(ts: seq<Transaction>)
    ensures KindSum(ts, Income) - KindSum(ts, Expense) == NetSum(ts)
    ensures KindSum(ts, Income) + KindSum(ts, Expense) == Sum(ts)
  {
    if ts != [] {
      KindSumsNet(ts[1..]);
    }
  }

  /** Every transaction is income or expense, so the two totals share out the whole sum. */
  lemma TotalsCoverAll(ts: seq<Transaction>)
    ensures Total(ts, Income) + Total(ts, Expense) == Sum(ts)
  {
    TotalIsKindSum(ts, Income);
    TotalIsKindSum(ts, Expense);
    KindSumsNet(ts);
  }

  lemma {:induction false} KindSumSameShape(a: seq<Transaction>, b: seq<Transaction>, k: Kind)
    requires |a| == |b|
    requires forall i :: 0 <= i < |a| ==> a[i].kind == b[i].kind && a[i].amount == b[i].amount
    ensures KindSum(a, k) == KindSum(b, k)
  {
    if a != [] {
      KindSumSameShape(a[1..], b[1..], k);
    }
  }

  /** Deleting a category changes no total: its transactions stay, uncategorised. */
  lemma DeleteCategoryKeepsTotals(s: Store, id: nat, k: Kind)
    ensures Total(DeleteCategory(s, id).transactions, k) == Total(s.transactions, k)
  {
    var r := DeleteCategory(s, id).transactions;
    forall i | 0 <= i < |r| ensures r[i].kind == s.transactions[i].kind && r[i].amount == s.transactions[i].amount {
      assert r[i] == s.transactions[i].(category := r[i].category);
    }
    KindSumSameShape(r, s.transactions, k);
    TotalIsKindSum(r, k);
    TotalIsKindSum(s.transactions, k);
  }
}
