/**
 * The dashboard's filter step: reading the four query parameters into filter
 * criteria, and narrowing the transactions one `.filter(...)` at a time.
 */
module Filtering {
  import opened Wrappers
  import opened Digits
  import opened Calendar
  import opened DateParsing
  import opened Models

  /** The raw `request.GET.get(...)` values; None when a parameter is absent. */
  datatype Query = Query(
    startDate: Option<string>,
    endDate: Option<string>,
    category: Option<string>,
    kind: Option<string>)

  /** The filters that will be applied; None means "not applied". */
  datatype Criteria = Criteria(
    start: Option<Date>,
    end: Option<Date>,
    category: Option<nat>,
    kind: Option<Kind>)

  /** `int(category_id)`, applied only when `category_id and category_id.isdigit()`. */
  function ParseCategory(raw: Option<string>): (r: Option<nat>)
    ensures r.Some? <==> raw.Some? && IsDigitString(raw.value)
  {
    if raw.Some? && IsDigitString(raw.value) then Some(DigitsValue(raw.value)) else None
  }

  /** A category id written out in decimal selects that category. */
  lemma ParseCategoryRoundTrip(n: nat)
    ensures ParseCategory(Some(DecimalString(n))) == Some(n)
  {
    DecimalStringRoundTrip(n);
  }

  /** `tx_type in ('income', 'expense')`. */
  function ParseKind(raw: Option<string>): (r: Option<Kind>)
    ensures r.Some? <==> raw == Some("income") || raw == Some("expense")
    ensures r.Some? ==> raw == Some(KindCode(r.value))
  {
    if raw.Some? then KindFromCode(raw.value) else None
  }

  function ParseCriteria(q: Query): Criteria {
    Criteria(ParseDate(q.startDate), ParseDate(q.endDate), ParseCategory(q.category), ParseKind(q.kind))
  }

  /** The queryset lookups the view uses: `date__gte`, `date__lte`, `date`, `category__id`, `type`. */
  datatype Lookup =
    | DateFrom(from: Date)
    | DateUntil(until: Date)
    | DateIs(on: Date)
    | CategoryIs(id: nat)
    | KindIs(kind: Kind)

  predicate Holds(f: Lookup, t: Transaction) {
    match f
    case DateFrom(d) => DateLe(d, t.date)
    case DateUntil(d) => DateLe(t.date, d)
    case DateIs(d) => t.date == d
    case CategoryIs(id) => t.category == Some(id)
    case KindIs(k) => t.kind == k
  }

  /** `qs.filter(lookup)`: the transactions that satisfy it, in their order. */
  function FilterBy(ts: seq<Transaction>, f: Lookup): (r: seq<Transaction>)
    ensures |r| <= |ts|
    ensures forall t :: t in r <==> t in ts && Holds(f, t)
  {
    if ts == [] then []
    else (if Holds(f, ts[0]) then [ts[0]] else []) + FilterBy(ts[1..], f)
  }

  predicate HoldsAll(fs: seq<Lookup>, t: Transaction) {
    forall i :: 0 <= i < |fs| ==> Holds(fs[i], t)
  }

  /** The transactions that satisfy every lookup of `fs` at once, in their order. */
  function Keep(ts: seq<Transaction>, fs: seq<Lookup>): (r: seq<Transaction>)
    ensures forall t :: t in r <==> t in ts && HoldsAll(fs, t)
  {
    if ts == [] then []
    else (if HoldsAll(fs, ts[0]) then [ts[0]] else []) + Keep(ts[1..], fs)
  }

  /** Chaining one more `.filter` is the same as asking for all lookups at once. */
  lemma {:induction false} FilterByKeep(ts: seq<Transaction>, fs: seq<Lookup>, f: Lookup)
    ensures FilterBy(Keep(ts, fs), f) == Keep(ts, fs + [f])
  {
    if ts != [] {
      FilterByKeep(ts[1..], fs, f);
      assert HoldsAll(fs + [f], ts[0]) <==> HoldsAll(fs, ts[0]) && Holds(f, ts[0]) by {
        assert forall i :: 0 <= i < |fs| ==> (fs + [f])[i] == fs[i];
        assert (fs + [f])[|fs|] == f;
      }
      var head := if HoldsAll(fs, ts[0]) then [ts[0]] else [];
      assert Keep(ts, fs) == head + Keep(ts[1..], fs);
      if HoldsAll(fs, ts[0]) {
        assert (head + Keep(ts[1..], fs))[1..] == Keep(ts[1..], fs);
      } else {
        assert head + Keep(ts[1..], fs) == Keep(ts[1..], fs);
      }
    }
  }

  /** A single `.filter` is Keep with one lookup. */
  lemma {:induction false} FilterByIsKeep(ts: seq<Transaction>, f: Lookup)
    ensures FilterBy(ts, f) == Keep(ts, [f])
  {
    if ts != [] {
      FilterByIsKeep(ts[1..], f);
      assert HoldsAll([f], ts[0]) <==> Holds(f, ts[0]) by {
        assert [f][0] == f;
      }
    }
  }

  /** The order in which two filters are chained does not matter. */
  lemma FilterByCommutes(ts: seq<Transaction>, f: Lookup, g: Lookup)
    ensures FilterBy(FilterBy(ts, f), g) == FilterBy(FilterBy(ts, g), f)
  {
    FilterByIsKeep(ts, f);
    FilterByIsKeep(ts, g);
    FilterByKeep(ts, [f], g);
    FilterByKeep(ts, [g], f);
    forall t | true ensures HoldsAll([f] + [g], t) <==> HoldsAll([g] + [f], t) {
      HoldsAllPair(f, g, t);
      HoldsAllPair(g, f, t);
    }
    KeepSameLookups(ts, [f] + [g], [g] + [f]);
  }

  lemma HoldsAllPair(f: Lookup, g: Lookup, t: Transaction)
    ensures HoldsAll([f] + [g], t) <==> Holds(f, t) && Holds(g, t)
  {
    assert ([f] + [g])[0] == f && ([f] + [g])[1] == g;
  }

  /** Keep depends only on what the lookups demand, not on how they are listed. */
  lemma {:induction false} KeepSameLookups(ts: seq<Transaction>, fs: seq<Lookup>, gs: seq<Lookup>)
    requires forall t :: HoldsAll(fs, t) <==> HoldsAll(gs, t)
    ensures Keep(ts, fs) == Keep(ts, gs)
  {
    if ts != [] {
      KeepSameLookups(ts[1..], fs, gs);
    }
  }

  /** A lookup that every transaction satisfies filters nothing out. */
  lemma {:induction false} FilterByKeepsAll(ts: seq<Transaction>, f: Lookup)
    requires forall i :: 0 <= i < |ts| ==> Holds(f, ts[i])
    ensures FilterBy(ts, f) == ts
  {
    if ts != [] {
      FilterByKeepsAll(ts[1..], f);
      assert ts == [ts[0]] + ts[1..];
    }
  }

  lemma {:induction false} KeepNothing(ts: seq<Transaction>)
    ensures Keep(ts, []) == ts
  {
    if ts != [] {
      KeepNothing(ts[1..]);
    }
  }

  /** The lookups the view chains for given criteria, in the view's order. */
  function Lookups(c: Criteria): seq<Lookup> {
    (if c.start.Some? then [DateFrom(c.start.value)] else []) +
    (if c.end.Some? then [DateUntil(c.end.value)] else []) +
    (if c.category.Some? then [CategoryIs(c.category.value)] else []) +
    (if c.kind.Some? then [KindIs(c.kind.value)] else [])
  }

  /** The criteria read directly: every present criterion holds. */
  predicate Satisfies(t: Transaction, c: Criteria) {
    (c.start.Some? ==> DateLe(c.start.value, t.date)) &&
    (c.end.Some? ==> DateLe(t.date, c.end.value)) &&
    (c.category.Some? ==> t.category == Some(c.category.value)) &&
    (c.kind.Some? ==> t.kind == c.kind.value)
  }

  lemma LookupsMeanCriteria(c: Criteria, t: Transaction)
    ensures HoldsAll(Lookups(c), t) <==> Satisfies(t, c)
  {
    var a := if c.start.Some? then [DateFrom(c.start.value)] else [];
    var b := if c.end.Some? then [DateUntil(c.end.value)] else [];
    var k := if c.category.Some? then [CategoryIs(c.category.value)] else [];
    var e := if c.kind.Some? then [KindIs(c.kind.value)] else [];
    var fs := Lookups(c);
    assert fs == a + b + k + e;
    if HoldsAll(fs, t) {
      if c.start.Some? { assert fs[0] == DateFrom(c.start.value); }
      if c.end.Some? { assert fs[|a|] == DateUntil(c.end.value); }
      if c.category.Some? { assert fs[|a| + |b|] == CategoryIs(c.category.value); }
      if c.kind.Some? { assert fs[|a| + |b| + |k|] == KindIs(c.kind.value); }
    }
    if Satisfies(t, c) {
      forall i | 0 <= i < |fs| ensures Holds(fs[i], t) {
        if i < |a| { assert fs[i] == a[i]; }
        else if i < |a| + |b| { assert fs[i] == b[i - |a|]; }
        else if i < |a| + |b| + |k| { assert fs[i] == k[i - |a| - |b|]; }
        else { assert fs[i] == e[i - |a| - |b| - |k|]; }
      }
    }
  }

  /** The filtered transactions for the given criteria. */
  function Filtered(all: seq<Transaction>, c: Criteria): seq<Transaction> {
    Keep(all, Lookups(c))
  }

  /** A transaction is kept exactly when it satisfies every present criterion. */
  lemma FilteredMembership(all: seq<Transaction>, c: Criteria, t: Transaction)
    ensures t in Filtered(all, c) <==> t in all && Satisfies(t, c)
  {
    LookupsMeanCriteria(c, t);
  }

  /** One step of the chain: `qs.filter(f)` when the criterion is present, `qs` otherwise. */
  function Step(fs: seq<Lookup>, f: Option<Lookup>): seq<Lookup> {
    if f.Some? then fs + [f.value] else fs
  }

  lemma StepKeep(all: seq<Transaction>, fs: seq<Lookup>, f: Option<Lookup>)
    ensures (if f.Some? then FilterBy(Keep(all, fs), f.value) else Keep(all, fs)) == Keep(all, Step(fs, f))
  {
    if f.Some? {
      FilterByKeep(all, fs, f.value);
    }
  }

  /** The lookup each criterion contributes, when present. */
  function StartLookup(c: Criteria): Option<Lookup> {
    if c.start.Some? then Some(DateFrom(c.start.value)) else None
  }

  function EndLookup(c: Criteria): Option<Lookup> {
    if c.end.Some? then Some(DateUntil(c.end.value)) else None
  }

  function CategoryLookup(c: Criteria): Option<Lookup> {
    if c.category.Some? then Some(CategoryIs(c.category.value)) else None
  }

  function KindLookup(c: Criteria): Option<Lookup> {
    if c.kind.Some? then Some(KindIs(c.kind.value)) else None
  }

  lemma LookupsBySteps(c: Criteria)
    ensures Lookups(c) == Step(Step(Step(Step([], StartLookup(c)), EndLookup(c)), CategoryLookup(c)), KindLookup(c))
  {
  }

  /** The filter chain of the view: each present criterion narrows `transactions` once more. */
  method ApplyFilters(all: seq<Transaction>, c: Criteria) returns (ts: seq<Transaction>)
    ensures ts == Filtered(all, c)
    ensures forall t :: t in ts <==> t in all && Satisfies(t, c)
  {
    ghost var fs: seq<Lookup> := [];
    KeepNothing(all);
    ts := all;
    var start := StartLookup(c);
    StepKeep(all, fs, start);
    if start.Some? {
      ts := FilterBy(ts, start.value);
    }
    fs := Step(fs, start);
    var end := EndLookup(c);
    StepKeep(all, fs, end);
    if end.Some? {
      ts := FilterBy(ts, end.value);
    }
    fs := Step(fs, end);
    var category := CategoryLookup(c);
    StepKeep(all, fs, category);
    if category.Some? {
      ts := FilterBy(ts, category.value);
    }
    fs := Step(fs, category);
    var kind := KindLookup(c);
    StepKeep(all, fs, kind);
    if kind.Some? {
      ts := FilterBy(ts, kind.value);
    }
    fs := Step(fs, kind);
    LookupsBySteps(c);
    forall t | true ensures t in ts <==> t in all && Satisfies(t, c) {
      FilteredMembership(all, c, t);
    }
  }

  /** An end date before the start date leaves nothing. */
  lemma StartAfterEndIsEmpty(all: seq<Transaction>, c: Criteria)
    requires c.start.Some? && c.end.Some? && DateLt(c.end.value, c.start.value)
    ensures Filtered(all, c) == []
  {
    var r := Filtered(all, c);
    if r != [] {
      FilteredMembership(all, c, r[0]);
      assert false;
    }
  }

  /** A category id that names no stored category leaves nothing. */
  lemma UnknownCategoryIsEmpty(s: Store, c: Criteria)
    requires ValidStore(s) && c.category.Some? && c.category.value !in s.categories
    ensures Filtered(s.transactions, c) == []
  {
    var r := Filtered(s.transactions, c);
    if r != [] {
      FilteredMembership(s.transactions, c, r[0]);
      assert false;
    }
  }

  /** A category parameter that is empty or not all digits is the same as no parameter. */
  lemma CategoryParameterIgnored(q: Query)
    requires !(q.category.Some? && IsDigitString(q.category.value))
    ensures ParseCriteria(q) == ParseCriteria(q.(category := None))
  {
  }

  /** A type parameter other than `income` or `expense` is the same as no parameter. */
  lemma KindParameterIgnored(q: Query)
    requires q.kind != Some("income") && q.kind != Some("expense")
    ensures ParseCriteria(q) == ParseCriteria(q.(kind := None))
  {
  }

  /** A `start_date` that does not parse is the same as no `start_date`, whatever `end_date` is. */
  lemma StartDateParameterIgnored(q: Query)
    requires ParseDate(q.startDate).None?
    ensures ParseCriteria(q) == ParseCriteria(q.(startDate := None))
  {
  }

  /** An `end_date` that does not parse is the same as no `end_date`, whatever `start_date` is. */
  lemma EndDateParameterIgnored(q: Query)
    requires ParseDate(q.endDate).None?
    ensures ParseCriteria(q) == ParseCriteria(q.(endDate := None))
  {
  }
}
