/**
 * `arcpy.analysis.Statistics(table, out, [["S000", "SUM"]], caseField)`:
 * group the rows by one geocode column and sum S000 per group.
 */
module Aggregate {
  import opened Flows

  /** Sum of S000 over the rows whose endpoint e is block k. */
  function SumFor(rows: seq<Flow>, e: Endpoint, k: nat): int {
    if rows == [] then 0
    else
      var last := rows[|rows| - 1];
      SumFor(rows[..|rows| - 1], e, k) + (if KeyOf(last, e) == k then last.s000 else 0)
  }

  /** The blocks that occur as endpoint e in some row. */
  function KeysOf(rows: seq<Flow>, e: Endpoint): set<nat> {
    set f | f in rows :: KeyOf(f, e)
  }

  /** The summary table as a value: one entry per occurring key, holding its sum; no zero rows. */
  function GroupSumSpec(rows: seq<Flow>, e: Endpoint): map<nat, int> {
    map k | k in KeysOf(rows, e) :: SumFor(rows, e, k)
  }

  /** Adding one row's count to its group, opening the group if it is new. */
  function Accumulate(table: map<nat, int>, k: nat, v: int): map<nat, int> {
    if k in table then table[k := table[k] + v] else table[k := v]
  }

  lemma SumForSnoc(init: seq<Flow>, last: Flow, e: Endpoint, k: nat)
    ensures SumFor(init + [last], e, k) == SumFor(init, e, k) + (if KeyOf(last, e) == k then last.s000 else 0)
  {
    assert (init + [last])[..|init|] == init;
  }

  lemma {:induction false} SumForAbsent(rows: seq<Flow>, e: Endpoint, k: nat)
    requires k !in KeysOf(rows, e)
    ensures SumFor(rows, e, k) == 0
  {
    if rows != [] {
      var init := rows[..|rows| - 1];
      assert KeysOf(init, e) <= KeysOf(rows, e);
      SumForAbsent(init, e, k);
    }
  }

  /** Appending a row to the input updates the summary exactly as Accumulate does. */
  lemma GroupSumSnoc(init: seq<Flow>, last: Flow, e: Endpoint)
    ensures GroupSumSpec(init + [last], e) == Accumulate(GroupSumSpec(init, e), KeyOf(last, e), last.s000)
  {
    var rows := init + [last];
    assert KeysOf(rows, e) == KeysOf(init, e) + {KeyOf(last, e)};
    forall k | k in KeysOf(rows, e)
      ensures SumFor(rows, e, k) == SumFor(init, e, k) + (if KeyOf(last, e) == k then last.s000 else 0)
    {
      SumForSnoc(init, last, e, k);
    }
    if KeyOf(last, e) !in KeysOf(init, e) {
      SumForAbsent(init, e, KeyOf(last, e));
    }
  }

  /**
   * The group-by-sum as a loop that accumulates into a map.  A block is a key
   * exactly when some row has it as endpoint e, and its value is the S000 sum
   * of those rows; blocks with no row are absent, not zero.
   */
  method GroupSum(rows: seq<Flow>, e: Endpoint) returns (table: map<nat, int>)
    ensures forall k :: k in table <==> exists i :: 0 <= i < |rows| && KeyOf(rows[i], e) == k
    ensures forall k :: k in table ==> table[k] == SumFor(rows, e, k)
    ensures table == GroupSumSpec(rows, e)
  {
    table := map[];
    for i := 0 to |rows|
      invariant table == GroupSumSpec(rows[..i], e)
    {
      GroupSumSnoc(rows[..i], rows[i], e);
      assert rows[..i + 1] == rows[..i] + [rows[i]];
      var k := KeyOf(rows[i], e);
      if k in table {
        table := table[k := table[k] + rows[i].s000];
      } else {
        table := table[k := rows[i].s000];
      }
    }
    assert rows[..|rows|] == rows;
    forall k | k in KeysOf(rows, e)
      ensures exists i :: 0 <= i < |rows| && KeyOf(rows[i], e) == k
    {
      var f :| f in rows && KeyOf(f, e) == k;
      var i :| 0 <= i < |rows| && rows[i] == f;
    }
  }

  ghost function Pick(table: map<nat, int>): (k: nat)
    requires table != map[]
    ensures k in table
  {
    var k :| k in table; k
  }

  /** The sum of all values of a summary table. */
  ghost function MapTotal(table: map<nat, int>): int
    decreases |table|
  {
    if table == map[] then 0
    else
      var k := Pick(table);
      assert |table - {k}| < |table| by {
        assert (table - {k}).Keys == table.Keys - {k};
      }
      table[k] + MapTotal(table - {k})
  }

  /** MapTotal does not depend on the order keys are taken in. */
  lemma MapTotalRemove(table: map<nat, int>, k: nat)
    requires k in table
    ensures MapTotal(table) == table[k] + MapTotal(table - {k})
    decreases |table|
  {
    var j := Pick(table);
    if j != k {
      assert (table - {j}).Keys == table.Keys - {j};
      assert (table - {k}).Keys == table.Keys - {k};
      MapTotalRemove(table - {j}, k);
      MapTotalRemove(table - {k}, j);
      assert table - {j} - {k} == table - {k} - {j};
    }
  }

  lemma MapTotalAccumulate(table: map<nat, int>, k: nat, v: int)
    ensures MapTotal(Accumulate(table, k, v)) == MapTotal(table) + v
  {
    var next := Accumulate(table, k, v);
    MapTotalRemove(next, k);
    assert next - {k} == table - {k};
    if k in table {
      MapTotalRemove(table, k);
    } else {
      assert table - {k} == table;
    }
  }

  /** Conservation: the values of a summary table add up to the S000 total of its input, so no worker is lost or counted twice. */
  lemma {:induction false} GroupSumConserves(rows: seq<Flow>, e: Endpoint)
    ensures MapTotal(GroupSumSpec(rows, e)) == Total(rows)
  {
    if rows == [] {
      assert GroupSumSpec(rows, e) == map[];
    } else {
      var init, last := rows[..|rows| - 1], rows[|rows| - 1];
      assert rows == init + [last];
      GroupSumConserves(init, e);
      GroupSumSnoc(init, last, e);
      MapTotalAccumulate(GroupSumSpec(init, e), KeyOf(last, e), last.s000);
    }
  }

  lemma {:induction false} SumForConcat(a: seq<Flow>, b: seq<Flow>, e: Endpoint, k: nat)
    ensures SumFor(a + b, e, k) == SumFor(a, e, k) + SumFor(b, e, k)
  {
    if b != [] {
      var init, last := b[..|b| - 1], b[|b| - 1];
      assert b == init + [last];
      assert a + b == (a + init) + [last];
      SumForConcat(a, init, e, k);
      SumForSnoc(a + init, last, e, k);
      SumForSnoc(init, last, e, k);
    } else {
      assert a + b == a;
    }
  }

  lemma {:induction false} SumForPermutation(a: seq<Flow>, b: seq<Flow>, e: Endpoint, k: nat)
    requires multiset(a) == multiset(b)
    ensures SumFor(a, e, k) == SumFor(b, e, k)
    decreases |a|
  {
    if a != [] {
      var init, last := a[..|a| - 1], a[|a| - 1];
      assert a == init + [last];
      assert last in multiset(b);
      var j :| 0 <= j < |b| && b[j] == last;
      var rest := b[..j] + b[j + 1..];
      assert b == b[..j] + [last] + b[j + 1..];
      assert multiset(b) == multiset(b[..j]) + multiset{last} + multiset(b[j + 1..]);
      assert multiset(a) == multiset(init) + multiset{last};
      assert multiset(rest) == multiset(b[..j]) + multiset(b[j + 1..]);
      assert multiset(rest) == multiset(init) by {
        forall f
          ensures multiset(rest)[f] == multiset(init)[f]
        {
          assert (multiset(init) + multiset{last})[f] == (multiset(rest) + multiset{last})[f];
        }
      }
      SumForPermutation(init, rest, e, k);
      SumForConcat(b[..j] + [last], b[j + 1..], e, k);
      SumForConcat(b[..j], b[j + 1..], e, k);
      SumForSnoc(b[..j], last, e, k);
      SumForSnoc(init, last, e, k);
    } else {
      assert |multiset(b)| == 0;
    }
  }

  /** The summary depends only on which rows there are, not on their order. */
  lemma GroupSumOrderFree(a: seq<Flow>, b: seq<Flow>, e: Endpoint)
    requires multiset(a) == multiset(b)
    ensures GroupSumSpec(a, e) == GroupSumSpec(b, e)
  {
    assert forall f :: f in a <==> f in multiset(a);
    assert forall f :: f in b <==> f in multiset(b);
    assert KeysOf(a, e) == KeysOf(b, e);
    forall k | k in KeysOf(a, e)
      ensures SumFor(a, e, k) == SumFor(b, e, k)
    {
      SumForPermutation(a, b, e, k);
    }
  }
}
