/** The store and the two read queries both front ends issue against it:
    the customer lookup and the transaction scan with its optional date range. */
module Ledger {
  import opened Results
  import opened Collation

  /** A row of the `customers` table; `accountNumber` is its primary key. */
  datatype Customer = Customer(accountNumber: string, name: string, email: string, balance: real)

  /** A row of the `transactions` table; `kind` is the `type` column. */
  datatype Txn = Txn(accountNumber: string, date: string, kind: string, amount: real, description: string)

  /** The four columns the transaction query selects. */
  datatype Row = Row(date: string, kind: string, amount: real, description: string)

  /** Customers keyed by account number, and the transaction rows in store order. */
  datatype Store = Store(customers: map<string, Customer>, transactions: seq<Txn>)

  /** The schema's own guarantee: the map key is the customer's primary key. */
  predicate Keyed(s: Store) {
    forall k :: k in s.customers ==> s.customers[k].accountNumber == k
  }

  /** Every transaction belongs to a known customer. This is an assumption
      only: the `transactions` table declares no foreign key, so the schema
      does not enforce it, and lemmas that need it say so in their `requires`. */
  predicate Owned(s: Store) {
    forall i :: 0 <= i < |s.transactions| ==> s.transactions[i].accountNumber in s.customers
  }

  /** A store that keeps both the primary key and the assumed foreign key. */
  predicate Valid(s: Store) {
    Keyed(s) && Owned(s)
  }

  /** JavaScript and Python truthiness of an optional text field: present and non-empty. */
  predicate Truthy(o: Option<string>) {
    o.Some? && o.value != ""
  }

  /** The date filter is added to the query only when both bounds are truthy. */
  predicate HasRange(start: Option<string>, end: Option<string>) {
    Truthy(start) && Truthy(end)
  }

  /** `date BETWEEN lo AND hi`: inclusive at both ends, under BINARY collation. */
  predicate Between(date: string, lo: string, hi: string) {
    LexLe(lo, date) && LexLe(date, hi)
  }

  /** The WHERE clause of the transaction query. */
  predicate Matches(t: Txn, account: string, start: Option<string>, end: Option<string>) {
    && t.accountNumber == account
    && (HasRange(start, end) ==> Between(t.date, start.value, end.value))
  }

  /** `SELECT * FROM customers WHERE account_number = ?`: the customer or absent. */
  function GetCustomer(s: Store, account: string): (r: Option<Customer>)
    ensures r.None? <==> account !in s.customers
    ensures r.Some? ==> r.value == s.customers[account]
    ensures Keyed(s) && r.Some? ==> r.value.accountNumber == account
  {
    if account in s.customers then Some(s.customers[account]) else None
  }

  /** The rows the WHERE clause keeps, in store order. */
  function Select(txns: seq<Txn>, account: string, start: Option<string>, end: Option<string>): (r: seq<Txn>)
    ensures |r| <= |txns|
  {
    if |txns| == 0 then []
    else
      (if Matches(txns[0], account, start, end) then [txns[0]] else []) + Select(txns[1..], account, start, end)
  }

  /** The SELECT list: date, type, amount, description. */
  function Project(t: Txn): (row: Row) {
    Row(t.date, t.kind, t.amount, t.description)
  }

  function ProjectAll(txns: seq<Txn>): (rows: seq<Row>)
    ensures |rows| == |txns|
    ensures forall i :: 0 <= i < |txns| ==> rows[i] == Project(txns[i])
  {
    if |txns| == 0 then [] else [Project(txns[0])] + ProjectAll(txns[1..])
  }

  /** `fetchTransactions(accountNumber, startDate, endDate)` / `fetch_transactions`. */
  function FetchTransactions(s: Store, account: string, start: Option<string>, end: Option<string>): (rows: seq<Row>)
    ensures |rows| <= |s.transactions|
    ensures HasRange(start, end) ==> forall i :: 0 <= i < |rows| ==> Between(rows[i].date, start.value, end.value)
  {
    var selected := Select(s.transactions, account, start, end);
    SelectMembers(s.transactions, account, start, end);
    assert forall i :: 0 <= i < |selected| ==> Matches(selected[i], account, start, end) by {
      forall i | 0 <= i < |selected| ensures Matches(selected[i], account, start, end) {
        assert selected[i] in selected;
      }
    }
    ProjectAll(selected)
  }

  /** The whole history of one account, in store order. */
  function History(s: Store, account: string): (txns: seq<Txn>) {
    Select(s.transactions, account, None, None)
  }

  /** The query returns exactly the stored rows that match its WHERE clause. */
  lemma {:induction false} SelectMembers(txns: seq<Txn>, account: string, start: Option<string>, end: Option<string>)
    ensures forall t :: t in Select(txns, account, start, end) <==> t in txns && Matches(t, account, start, end)
  {
    if |txns| > 0 {
      SelectMembers(txns[1..], account, start, end);
      assert txns == [txns[0]] + txns[1..];
    }
  }

  /** The query keeps store order: on a store that is `a` followed by `b`, the
      result is the result on `a` followed by the result on `b`. */
  lemma {:induction false} SelectAppend(a: seq<Txn>, b: seq<Txn>, account: string, start: Option<string>, end: Option<string>)
    ensures Select(a + b, account, start, end) == Select(a, account, start, end) + Select(b, account, start, end)
  {
    if |a| > 0 {
      assert (a + b)[0] == a[0];
      assert (a + b)[1..] == a[1..] + b;
      SelectAppend(a[1..], b, account, start, end);
    } else {
      assert a + b == b;
    }
  }

  /** Every matching row appears as often as it is stored, and no other row appears. */
  lemma {:induction false} SelectCount(txns: seq<Txn>, account: string, start: Option<string>, end: Option<string>, t: Txn)
    ensures multiset(Select(txns, account, start, end))[t]
         == if Matches(t, account, start, end) then multiset(txns)[t] else 0
  {
    if |txns| > 0 {
      var head := if Matches(txns[0], account, start, end) then [txns[0]] else [];
      SelectCount(txns[1..], account, start, end, t);
      assert txns == [txns[0]] + txns[1..];
      assert multiset(txns) == multiset([txns[0]]) + multiset(txns[1..]);
      assert Select(txns, account, start, end) == head + Select(txns[1..], account, start, end);
      assert multiset(Select(txns, account, start, end)) == multiset(head) + multiset(Select(txns[1..], account, start, end));
    }
  }

  /** With both bounds given and non-empty, the rows returned are exactly the
      rows of the account dated from `lo` to `hi` inclusive. */
  lemma FetchInRange(s: Store, account: string, lo: string, hi: string)
    requires lo != "" && hi != ""
    ensures forall t :: t in Select(s.transactions, account, Some(lo), Some(hi))
                    <==> t in s.transactions && t.accountNumber == account && LexLe(lo, t.date) && LexLe(t.date, hi)
  {
    SelectMembers(s.transactions, account, Some(lo), Some(hi));
  }

  /** When either bound is missing or empty, no date filter applies: the result
      is the full history of the account. */
  lemma {:induction false} NoRangeGivesHistory(s: Store, account: string, start: Option<string>, end: Option<string>)
    requires !HasRange(start, end)
    ensures FetchTransactions(s, account, start, end) == ProjectAll(History(s, account))
  {
    SameFilter(s.transactions, account, start, end);
  }

  lemma {:induction false} SameFilter(txns: seq<Txn>, account: string, start: Option<string>, end: Option<string>)
    requires !HasRange(start, end)
    ensures Select(txns, account, start, end) == Select(txns, account, None, None)
  {
    if |txns| > 0 {
      SameFilter(txns[1..], account, start, end);
    }
  }

  /** Rows of other accounts never appear in any query result. */
  lemma OnlyOwnAccount(s: Store, account: string, start: Option<string>, end: Option<string>)
    ensures forall t :: t in Select(s.transactions, account, start, end) ==> t.accountNumber == account
  {
    SelectMembers(s.transactions, account, start, end);
  }

  /** Both ends of the range are inclusive: a row of the account dated exactly
      `lo` or exactly `hi` is returned whenever `lo <= hi`. */
  lemma InclusiveBounds(s: Store, account: string, lo: string, hi: string, t: Txn)
    requires lo != "" && hi != "" && LexLe(lo, hi)
    requires t in s.transactions && t.accountNumber == account
    requires t.date == lo || t.date == hi
    ensures t in Select(s.transactions, account, Some(lo), Some(hi))
  {
    LexLeReflexive(t.date);
    SelectMembers(s.transactions, account, Some(lo), Some(hi));
  }

  /** A range whose start sorts after its end selects nothing. */
  lemma InvertedRangeIsEmpty(s: Store, account: string, lo: string, hi: string)
    requires lo != "" && hi != "" && LexLt(hi, lo)
    ensures Select(s.transactions, account, Some(lo), Some(hi)) == []
  {
    var r := Select(s.transactions, account, Some(lo), Some(hi));
    SelectMembers(s.transactions, account, Some(lo), Some(hi));
    if |r| > 0 {
      assert r[0] in r;
      LexLeTransitive(lo, r[0].date, hi);
      LexLeAntisymmetric(lo, hi);
      assert false;
    }
  }

  /** When every transaction belongs to a known customer, an account without a
      customer row has no transactions. */
  lemma UnknownAccountHasNoRows(s: Store, account: string, start: Option<string>, end: Option<string>)
    requires Owned(s) && account !in s.customers
    ensures FetchTransactions(s, account, start, end) == []
  {
    SelectNone(s.transactions, account, start, end);
  }

  lemma {:induction false} SelectNone(txns: seq<Txn>, account: string, start: Option<string>, end: Option<string>)
    requires forall i :: 0 <= i < |txns| ==> txns[i].accountNumber != account
    ensures Select(txns, account, start, end) == []
  {
    if |txns| > 0 {
      SelectNone(txns[1..], account, start, end);
    }
  }
}
