/**
 * The two stored entities, Category and Transaction, the field rules
 * their declarations impose, and what deleting a category does to the
 * transactions that refer to it (`on_delete=SET_NULL`).
 */
module Models {
  import opened Wrappers
  import opened Calendar

  /** The two `TRANSACTION_TYPES` choices. */
  datatype Kind = Income | Expense

  /** The stored value of each choice. */
  function KindCode(k: Kind): (s: string)
    ensures 0 < |s| <= 7
  {
    match k
    case Income => "income"
    case Expense => "expense"
  }

  /** The choices check: a stored type string is one of the two codes. */
  function KindFromCode(s: string): (r: Option<Kind>)
    ensures r.Some? ==> KindCode(r.value) == s
  {
    if s == "income" then Some(Income)
    else if s == "expense" then Some(Expense)
    else None
  }

  lemma KindCodeRoundTrip(k: Kind)
    ensures KindFromCode(KindCode(k)) == Some(k)
  {
  }

  const NAME_MAX_LENGTH := 100
  const NOTE_MAX_LENGTH := 255

  /** Amounts are kept in integer cents: two decimal places exactly. */
  const MAX_DIGITS := 10
  const CENTS_LIMIT := 10_000_000_000

  datatype Category = Category(id: nat, name: string)

  /** A required `CharField(max_length=100)`. */
  predicate ValidCategory(c: Category) {
    0 < |c.name| <= NAME_MAX_LENGTH
  }

  /**
   * A transaction. `category` holds the id of the category it refers to, or
   * None; `note` is optional. The creation timestamp is not modelled.
   */
  datatype Transaction = Transaction(
    id: nat,
    kind: Kind,
    category: Option<nat>,
    amount: int,
    date: Date,
    note: Option<string>)

  /**
   * `DecimalField(max_digits=10, decimal_places=2)`: at most eight digits
   * before the decimal point and two after, so at most ten digits of cents.
   */
  predicate ValidAmount(cents: int) {
    -CENTS_LIMIT < cents < CENTS_LIMIT
  }

  predicate ValidTransaction(t: Transaction) {
    ValidAmount(t.amount) && ValidDate(t.date) && (t.note.Some? ==> |t.note.value| <= NOTE_MAX_LENGTH)
  }

  /** The two tables: categories by primary key, and the transactions. */
  datatype Store = Store(categories: map<nat, Category>, transactions: seq<Transaction>)

  /** Every row is well-formed and every category reference points at a stored category. */
  predicate ValidStore(s: Store) {
    (forall id :: id in s.categories ==> s.categories[id].id == id && ValidCategory(s.categories[id])) &&
    (forall i :: 0 <= i < |s.transactions| ==> ValidTransaction(s.transactions[i])) &&
    (forall i :: 0 <= i < |s.transactions| && s.transactions[i].category.Some? ==>
       s.transactions[i].category.value in s.categories) &&
    (forall i, j :: 0 <= i < j < |s.transactions| ==> s.transactions[i].id != s.transactions[j].id)
  }

  /** A transaction after the category with the given id is deleted. */
  function Detach(t: Transaction, id: nat): Transaction {
    if t.category == Some(id) then t.(category := None) else t
  }

  /** `SET_NULL` applied to every transaction, in place and in order. */
  function DetachAll(ts: seq<Transaction>, id: nat): (r: seq<Transaction>)
    ensures |r| == |ts|
    ensures forall i :: 0 <= i < |ts| ==> r[i].category == (if ts[i].category == Some(id) then None else ts[i].category)
    ensures forall i :: 0 <= i < |ts| ==> r[i] == ts[i].(category := r[i].category)
  {
    if ts == [] then [] else DetachAll(ts[..|ts| - 1], id) + [Detach(ts[|ts| - 1], id)]
  }

  /** Deleting a category: its row goes, the transactions stay and lose the reference. */
  function DeleteCategory(s: Store, id: nat): (r: Store)
    ensures r.categories == s.categories - {id}
    ensures |r.transactions| == |s.transactions|
    ensures forall i :: 0 <= i < |r.transactions| ==> r.transactions[i].category != Some(id)
  {
    Store(s.categories - {id}, DetachAll(s.transactions, id))
  }

  /** Deleting a category keeps the store well-formed. */
  lemma DeleteCategoryKeepsValid(s: Store, id: nat)
    requires ValidStore(s)
    ensures ValidStore(DeleteCategory(s, id))
  {
    var r := DeleteCategory(s, id);
    forall i | 0 <= i < |r.transactions|
      ensures ValidTransaction(r.transactions[i])
      ensures r.transactions[i].category.Some? ==> r.transactions[i].category.value in r.categories
      ensures r.transactions[i].id == s.transactions[i].id
    {
      assert r.transactions[i] == s.transactions[i].(category := r.transactions[i].category);
    }
  }
}
