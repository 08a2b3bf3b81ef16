/** The per-type summary: `summary[t.type] = (summary[t.type] || 0) + t.amount`
    for every row, in order. Types are an open set of strings. */
module Summary {
  import opened Ledger

  /** The distinct types that occur in `rows`. */
  function Types(rows: seq<Row>): (kinds: set<string>) {
    set r | r in rows :: r.kind
  }

  /** Projecting rows onto the selected columns keeps their types. */
  lemma TypesOfProjection(txns: seq<Txn>)
    ensures Types(ProjectAll(txns)) == set t | t in txns :: t.kind
  {
    var rows := ProjectAll(txns);
    forall k | k in Types(rows) ensures k in (set t | t in txns :: t.kind) {
      var r :| r in rows && r.kind == k;
      var i :| 0 <= i < |rows| && rows[i] == r;
      assert txns[i] in txns;
    }
    forall k | k in (set t | t in txns :: t.kind) ensures k in Types(rows) {
      var t :| t in txns && t.kind == k;
      var i :| 0 <= i < |txns| && txns[i] == t;
      assert rows[i] in rows;
    }
  }

  /** Sum of the amounts of the rows of type `kind`. */
  function TypeTotal(rows: seq<Row>, kind: string): (total: real)
    decreases |rows|
  {
    if |rows| == 0 then 0.0
    else TypeTotal(rows[1..], kind) + (if rows[0].kind == kind then rows[0].amount else 0.0)
  }

  /** Sum of all amounts. */
  function Total(rows: seq<Row>): (total: real)
    decreases |rows|
  {
    if |rows| == 0 then 0.0 else rows[0].amount + Total(rows[1..])
  }

  /** One step of the loop: add the row's amount to its type's running total,
      creating the key at 0 when absent. */
  function Accumulate(m: map<string, real>, r: Row): (m': map<string, real>)
    ensures m'.Keys == m.Keys + {r.kind}
    ensures m'[r.kind] - r.amount == if r.kind in m then m[r.kind] else 0.0
    ensures forall k :: k in m && k != r.kind ==> m'[k] == m[k]
  {
    m[r.kind := (if r.kind in m then m[r.kind] else 0.0) + r.amount]
  }

  /** The summary the loop builds, folding the rows from first to last. Its keys
      are exactly the types that occur, each mapped to the sum of its amounts. */
  function Summarize(rows: seq<Row>): (m: map<string, real>)
    ensures m.Keys == Types(rows)
    ensures forall k :: k in m ==> m[k] == TypeTotal(rows, k)
    decreases |rows|
  {
    if |rows| == 0 then map[]
    else
      var init := rows[..|rows| - 1];
      var last := rows[|rows| - 1];
      assert rows == init + [last];
      TypeTotalAppend(init, [last]);
      TypeTotalSingle(last);
      TypeTotalAbsent(init, last.kind);
      Accumulate(Summarize(init), last)
  }

  lemma {:induction false} TypeTotalAppend(a: seq<Row>, b: seq<Row>)
    ensures forall k :: TypeTotal(a + b, k) == TypeTotal(a, k) + TypeTotal(b, k)
    decreases |a|
  {
    if |a| == 0 {
      assert a + b == b;
    } else {
      assert (a + b)[1..] == a[1..] + b;
      TypeTotalAppend(a[1..], b);
    }
  }

  lemma {:induction false} TypeTotalAbsent(rows: seq<Row>, kind: string)
    ensures kind !in Types(rows) ==> TypeTotal(rows, kind) == 0.0
    decreases |rows|
  {
    if |rows| > 0 && kind !in Types(rows) {
      assert rows[0] in rows;
      assert forall r :: r in rows[1..] ==> r in rows;
      TypeTotalAbsent(rows[1..], kind);
    }
  }

  lemma TypeTotalSingle(r: Row)
    ensures forall k :: TypeTotal([r], k) == if r.kind == k then r.amount else 0.0
  {
    forall k ensures TypeTotal([r], k) == if r.kind == k then r.amount else 0.0 {
      assert [r][1..] == [];
    }
  }

  lemma {:induction false} TotalAppend(a: seq<Row>, b: seq<Row>)
    ensures Total(a + b) == Total(a) + Total(b)
    decreases |a|
  {
    if |a| == 0 {
      assert a + b == b;
    } else {
      assert (a + b)[1..] == a[1..] + b;
      TotalAppend(a[1..], b);
    }
  }

  /** Sum of the values of a map, independent of any key order. */
  ghost function MapSum(m: map<string, real>): (total: real)
    decreases |m|
  {
    if |m| == 0 then 0.0
    else
      var k :| k in m;
      m[k] + MapSum(m - {k})
  }

  lemma MapRemoveSize(m: map<string, real>, k: string)
    requires k in m
    ensures |m - {k}| == |m| - 1
  {
    assert (m - {k}).Keys == m.Keys - {k};
  }

  lemma MapSumChoice(m: map<string, real>) returns (j: string)
    requires |m| > 0
    ensures j in m && MapSum(m) == m[j] + MapSum(m - {j})
  {
    j :| j in m && MapSum(m) == m[j] + MapSum(m - {j});
  }

  /** Any key may be taken out first: the sum does not depend on the choice. */
  lemma {:induction false} MapSumRemove(m: map<string, real>, k: string)
    requires k in m
    ensures MapSum(m) == m[k] + MapSum(m - {k})
    decreases |m|
  {
    MapRemoveSize(m, k);
    var j := MapSumChoice(m);
    if j != k {
      MapRemoveSize(m, j);
      MapSumRemove(m - {j}, k);
      MapSumRemove(m - {k}, j);
      assert m - {j} - {k} == m - {k} - {j};
    }
  }

  /** Apart from the row's type, the step leaves the map as it was. */
  lemma AccumulateElsewhere(m: map<string, real>, r: Row)
    ensures Accumulate(m, r) - {r.kind} == m - {r.kind}
  {
  }

  lemma MapSumAccumulate(m: map<string, real>, r: Row)
    ensures MapSum(Accumulate(m, r)) == MapSum(m) + r.amount
  {
    var m' := Accumulate(m, r);
    MapSumRemove(m', r.kind);
    AccumulateElsewhere(m, r);
    if r.kind in m {
      MapSumRemove(m, r.kind);
    } else {
      assert m - {r.kind} == m;
    }
  }

  /** The values of the summary add up to the sum of all amounts. */
  lemma {:induction false} SummaryTotal(rows: seq<Row>)
    ensures MapSum(Summarize(rows)) == Total(rows)
    decreases |rows|
  {
    if |rows| > 0 {
      var init := rows[..|rows| - 1];
      var last := rows[|rows| - 1];
      calc {
        MapSum(Summarize(rows));
        MapSum(Accumulate(Summarize(init), last));
        { MapSumAccumulate(Summarize(init), last); }
        MapSum(Summarize(init)) + last.amount;
        { SummaryTotal(init); }
        Total(init) + last.amount;
        { TotalLast(rows); }
        Total(rows);
      }
    }
  }

  lemma TotalLast(rows: seq<Row>)
    requires |rows| > 0
    ensures Total(rows) == Total(rows[..|rows| - 1]) + rows[|rows| - 1].amount
  {
    var init, last := rows[..|rows| - 1], rows[|rows| - 1];
    assert rows == init + [last];
    TotalAppend(init, [last]);
    assert [last][1..] == [];
  }

  /** The empty history gives the empty summary, with no zero-valued keys. */
  lemma EmptySummary()
    ensures Summarize([]) == map[]
  {
  }

  lemma TypeTotalRemove(b: seq<Row>, i: nat, k: string)
    requires i < |b|
    ensures TypeTotal(b, k) == TypeTotal(b[..i] + b[i + 1..], k) + (if b[i].kind == k then b[i].amount else 0.0)
  {
    var tail := [b[i]] + b[i + 1..];
    assert b == b[..i] + tail;
    assert tail[1..] == b[i + 1..];
    TypeTotalAppend(b[..i], tail);
    TypeTotalAppend(b[..i], b[i + 1..]);
  }

  lemma MultisetRemove(a: seq<Row>, b: seq<Row>, i: nat)
    requires multiset(a) == multiset(b) && |a| > 0 && i < |b| && b[i] == a[0]
    ensures multiset(a[1..]) == multiset(b[..i] + b[i + 1..])
  {
    var x := a[0];
    assert a == [x] + a[1..];
    assert b == b[..i] + [x] + b[i + 1..];
    assert multiset(a[1..]) == multiset(a) - multiset{x};
    assert multiset(b[..i] + b[i + 1..]) == multiset(b) - multiset{x};
  }

  lemma {:induction false} TypeTotalPermutation(a: seq<Row>, b: seq<Row>, k: string)
    requires multiset(a) == multiset(b)
    ensures TypeTotal(a, k) == TypeTotal(b, k)
    decreases |a|
  {
    if |a| > 0 {
      assert a[0] in multiset(b);
      var i :| 0 <= i < |b| && b[i] == a[0];
      MultisetRemove(a, b, i);
      TypeTotalPermutation(a[1..], b[..i] + b[i + 1..], k);
      TypeTotalRemove(b, i, k);
    } else {
      assert |multiset(b)| == 0;
    }
  }

  /** The summary does not depend on the order of the rows. */
  lemma SummaryPermutation(a: seq<Row>, b: seq<Row>)
    requires multiset(a) == multiset(b)
    ensures Summarize(a) == Summarize(b)
  {
    forall r ensures r in a <==> r in b {
      assert r in a <==> r in multiset(a);
      assert r in b <==> r in multiset(b);
    }
    forall k | k in Summarize(a) ensures Summarize(a)[k] == Summarize(b)[k] {
      TypeTotalPermutation(a, b, k);
    }
  }
}
