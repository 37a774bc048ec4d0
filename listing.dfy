/**
 * The transaction list: `Transaction.objects.order_by('-date')[:5]`, the
 * five most recent transactions, newest first.
 */
module Listing {
  import opened Calendar
  import opened Models

  /** The slice `[:5]`. */
  const RECENT_COUNT: nat := 5

  /** Dates never increase along the sequence: `order_by('-date')`. */
  predicate NewestFirst(ts: seq<Transaction>) {
    forall i, j :: 0 <= i < j < |ts| ==> DateLe(ts[j].date, ts[i].date)
  }

  lemma DateLeTotal(a: Date, b: Date)
    ensures DateLe(a, b) || DateLe(b, a)
  {
  }

  lemma DateLeTransitive(a: Date, b: Date, c: Date)
    requires DateLe(a, b) && DateLe(b, c)
    ensures DateLe(a, c)
  {
  }

  /** A transaction at least as new as the head of a newest-first sequence can go in front. */
  lemma InsertFront(t: Transaction, ts: seq<Transaction>)
    requires NewestFirst(ts) && ts != [] && DateLe(ts[0].date, t.date)
    ensures NewestFirst([t] + ts)
  {
    var r := [t] + ts;
    forall j | 0 < j < |r| ensures DateLe(r[j].date, t.date) {
      if j > 1 {
        DateLeTransitive(r[j].date, ts[0].date, t.date);
      }
    }
  }

  /** The head stays in front of anything drawn from the rest of the sequence or older than the head. */
  lemma InsertBehind(t: Transaction, ts: seq<Transaction>, rest: seq<Transaction>)
    requires NewestFirst(ts) && ts != [] && !DateLe(ts[0].date, t.date)
    requires NewestFirst(rest) && forall x :: x in rest ==> x == t || x in ts[1..]
    ensures NewestFirst([ts[0]] + rest)
  {
    var r := [ts[0]] + rest;
    DateLeTotal(ts[0].date, t.date);
    forall j | 0 < j < |r| ensures DateLe(r[j].date, ts[0].date) {
      assert r[j] in rest;
      if r[j] != t {
        var k :| 0 <= k < |ts[1..]| && ts[1..][k] == r[j];
        assert ts[k + 1] == r[j];
      }
    }
  }

  /** Put one transaction into a newest-first sequence, ahead of those not newer than it. */
  function Insert(t: Transaction, ts: seq<Transaction>): (r: seq<Transaction>)
    ensures |r| == |ts| + 1
    ensures multiset(r) == multiset(ts) + multiset{t}
    ensures forall x :: x in r ==> x == t || x in ts
    ensures NewestFirst(ts) ==> NewestFirst(r)
  {
    if ts == [] then [t]
    else if DateLe(ts[0].date, t.date) then
      assert NewestFirst(ts) ==> NewestFirst([t] + ts) by {
        if NewestFirst(ts) { InsertFront(t, ts); }
      }
      [t] + ts
    else
      var rest := Insert(t, ts[1..]);
      assert ts == [ts[0]] + ts[1..];
      assert NewestFirst(ts) ==> NewestFirst([ts[0]] + rest) by {
        if NewestFirst(ts) { InsertBehind(t, ts, rest); }
      }
      [ts[0]] + rest
  }

  /** Insertion sort by date, newest first. */
  function SortNewestFirst(ts: seq<Transaction>): (r: seq<Transaction>)
    ensures |r| == |ts|
    ensures multiset(r) == multiset(ts)
    ensures NewestFirst(r)
  {
    if ts == [] then []
    else
      assert ts == [ts[0]] + ts[1..];
      Insert(ts[0], SortNewestFirst(ts[1..]))
  }

  function Min(a: nat, b: nat): nat {
    if a <= b then a else b
  }

  /** `Transaction.objects.order_by('-date')[:5]`. */
  function Recent(ts: seq<Transaction>): seq<Transaction> {
    SortNewestFirst(ts)[..Min(RECENT_COUNT, |ts|)]
  }

  /** In a newest-first sequence, nothing after the first n is newer than anything among them. */
  lemma PrefixIsNewest(s: seq<Transaction>, n: nat)
    requires NewestFirst(s) && n <= |s|
    ensures multiset(s[..n]) <= multiset(s)
    ensures forall x, k :: x in multiset(s) - multiset(s[..n]) && 0 <= k < n ==> DateLe(x.date, s[k].date)
  {
    assert s == s[..n] + s[n..];
    assert multiset(s) == multiset(s[..n]) + multiset(s[n..]);
    forall x, k | x in multiset(s) - multiset(s[..n]) && 0 <= k < n
      ensures DateLe(x.date, s[k].date)
    {
      assert x in multiset(s[n..]);
      var j :| 0 <= j < |s[n..]| && s[n..][j] == x;
      assert s[n + j] == x;
    }
  }

  /**
   * The list holds five transactions (all of them when there are fewer),
   * newest first, taken from the table, and no transaction left out is
   * newer than any transaction shown.
   */
  lemma RecentIsNewest(ts: seq<Transaction>)
    ensures |Recent(ts)| == Min(RECENT_COUNT, |ts|)
    ensures NewestFirst(Recent(ts))
    ensures multiset(Recent(ts)) <= multiset(ts)
    ensures forall x, k :: x in multiset(ts) - multiset(Recent(ts)) && 0 <= k < |Recent(ts)| ==>
              DateLe(x.date, Recent(ts)[k].date)
  {
    PrefixIsNewest(SortNewestFirst(ts), Min(RECENT_COUNT, |ts|));
  }

  /** With five or fewer transactions the list shows every one of them. */
  lemma RecentKeepsSmallTables(ts: seq<Transaction>)
    requires |ts| <= RECENT_COUNT
    ensures multiset(Recent(ts)) == multiset(ts)
  {
    assert SortNewestFirst(ts)[..|ts|] == SortNewestFirst(ts);
  }
}
