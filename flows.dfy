/**
 * The LODES origin-destination table and the four `DataFrame.query`
 * filters that split it against the study-area block list.
 */
module Flows {

  /** One row of the LODES table: home block, work block and the worker count S000. */
  datatype Flow = Flow(home: nat, work: nat, s000: int)

  /** Which geocode column a step reads: `h_geocode` or `w_geocode`. */
  datatype Endpoint = Home | Work

  function KeyOf(f: Flow, e: Endpoint): nat {
    match e
    case Home => f.home
    case Work => f.work
  }

  /** The four query strings of the script, against `@blockList`. */
  datatype Query =
    | HomeIn            // 'h_geocode in @blockList'
    | WorkNotIn         // 'w_geocode not in @blockList'
    | WorkIn            // 'w_geocode in @blockList'
    | WorkInHomeNotIn   // 'w_geocode in @blockList & h_geocode not in @blockList'

  predicate Matches(q: Query, blocks: seq<int>, f: Flow) {
    match q
    case HomeIn => f.home in blocks
    case WorkNotIn => f.work !in blocks
    case WorkIn => f.work in blocks
    case WorkInHomeNotIn => f.work in blocks && f.home !in blocks
  }

  /**
   * Against one block list the three sets the script keeps per row, `df2`
   * and `df3` (queried from the residents `df`) and `df4` (queried from the
   * whole table), together hold every row with either end in the study area
   * exactly as often as the table does, and no other row: each such row
   * falls into exactly one of them.
   */
  lemma {:induction false} QueryCases(table: seq<Flow>, blocks: seq<int>, f: Flow)
    ensures
      var df := Select(table, HomeIn, blocks);
      multiset(Select(df, WorkNotIn, blocks))[f]
      + multiset(Select(df, WorkIn, blocks))[f]
      + multiset(Select(table, WorkInHomeNotIn, blocks))[f]
      == if f.home in blocks || f.work in blocks then multiset(table)[f] else 0
  {
    var df := Select(table, HomeIn, blocks);
    SelectCount(table, HomeIn, blocks, f);
    SelectCount(df, WorkNotIn, blocks, f);
    SelectCount(df, WorkIn, blocks, f);
    SelectCount(table, WorkInHomeNotIn, blocks, f);
  }

  /** `a` is `b` with some rows dropped and the rest kept in order. */
  predicate IsSubsequence(a: seq<Flow>, b: seq<Flow>)
    decreases |b|
  {
    if a == [] then true
    else if b == [] then false
    else if a[|a| - 1] == b[|b| - 1] then IsSubsequence(a[..|a| - 1], b[..|b| - 1])
    else IsSubsequence(a, b[..|b| - 1])
  }

  /** `rows.query(q)`: the rows that satisfy q, unaltered, in their original order. */
  function Select(rows: seq<Flow>, q: Query, blocks: seq<int>): (r: seq<Flow>)
    ensures |r| <= |rows|
    ensures forall i :: 0 <= i < |r| ==> Matches(q, blocks, r[i])
  {
    if rows == [] then []
    else
      var init, last := rows[..|rows| - 1], rows[|rows| - 1];
      Select(init, q, blocks) + (if Matches(q, blocks, last) then [last] else [])
  }

  /** Unfolding Select at the last row. */
  lemma SelectSnoc(init: seq<Flow>, last: Flow, q: Query, blocks: seq<int>)
    ensures Select(init + [last], q, blocks)
         == Select(init, q, blocks) + (if Matches(q, blocks, last) then [last] else [])
  {
    assert (init + [last])[..|init|] == init;
  }

  /**
   * The filter drops rows and never alters them: a matching row is kept as
   * many times as it occurs, any other row not at all.
   */
  lemma {:induction false} SelectCount(rows: seq<Flow>, q: Query, blocks: seq<int>, f: Flow)
    ensures multiset(Select(rows, q, blocks))[f] == if Matches(q, blocks, f) then multiset(rows)[f] else 0
  {
    if rows != [] {
      var init, last := rows[..|rows| - 1], rows[|rows| - 1];
      assert rows == init + [last];
      SelectSnoc(init, last, q, blocks);
      SelectCount(init, q, blocks, f);
    }
  }

  /** The filter keeps the surviving rows in their original order. */
  lemma {:induction false} SelectSubsequence(rows: seq<Flow>, q: Query, blocks: seq<int>)
    ensures IsSubsequence(Select(rows, q, blocks), rows)
  {
    if rows != [] {
      var init, last := rows[..|rows| - 1], rows[|rows| - 1];
      var r, r0 := Select(rows, q, blocks), Select(init, q, blocks);
      SelectSubsequence(init, q, blocks);
      if Matches(q, blocks, last) {
        assert r == r0 + [last];
        assert r[..|r| - 1] == r0;
      } else {
        assert r == r0;
        if r != [] {
          assert Matches(q, blocks, r[|r| - 1]);
        }
      }
    }
  }

  /** Total S000 over a set of rows. */
  function Total(rows: seq<Flow>): int {
    if rows == [] then 0 else Total(rows[..|rows| - 1]) + rows[|rows| - 1].s000
  }

  lemma TotalSnoc(init: seq<Flow>, last: Flow)
    ensures Total(init + [last]) == Total(init) + last.s000
  {
    assert (init + [last])[..|init|] == init;
  }

  /** Filtering rows that all live inside keeps only rows that live inside (`df2`, `df3` are taken from `df`). */
  lemma ResidentsStayResidents(df: seq<Flow>, q: Query, blocks: seq<int>)
    requires forall i :: 0 <= i < |df| ==> df[i].home in blocks
    ensures forall i :: 0 <= i < |Select(df, q, blocks)| ==> Select(df, q, blocks)[i].home in blocks
  {
    var r := Select(df, q, blocks);
    forall i | 0 <= i < |r|
      ensures r[i].home in blocks
    {
      SelectCount(df, q, blocks, r[i]);
      assert r[i] in multiset(df);
      var j :| 0 <= j < |df| && df[j] == r[i];
    }
  }

  /** The residents `df`: exactly the rows whose home block is in the list. */
  lemma ResidentsExact(rows: seq<Flow>, blocks: seq<int>, f: Flow)
    ensures f in Select(rows, HomeIn, blocks) <==> f in rows && f.home in blocks
  {
    var r := Select(rows, HomeIn, blocks);
    SelectCount(rows, HomeIn, blocks, f);
    assert f in r <==> multiset(r)[f] > 0;
    assert f in rows <==> multiset(rows)[f] > 0;
  }

  /**
   * Splitting a row set by 'w_geocode not in' and 'w_geocode in' (how `df2`
   * and `df3` are taken from `df`) loses no row, repeats no row, and the two
   * parts share no row.
   */
  lemma {:induction false} WorkSplitPartition(rows: seq<Flow>, blocks: seq<int>)
    ensures multiset(Select(rows, WorkNotIn, blocks)) + multiset(Select(rows, WorkIn, blocks)) == multiset(rows)
    ensures |Select(rows, WorkNotIn, blocks)| + |Select(rows, WorkIn, blocks)| == |rows|
    ensures forall f :: f in Select(rows, WorkNotIn, blocks) ==> f !in Select(rows, WorkIn, blocks)
  {
    var out, stay := Select(rows, WorkNotIn, blocks), Select(rows, WorkIn, blocks);
    assert multiset(out) + multiset(stay) == multiset(rows) by {
      forall f
        ensures (multiset(out) + multiset(stay))[f] == multiset(rows)[f]
      {
        SelectCount(rows, WorkNotIn, blocks, f);
        SelectCount(rows, WorkIn, blocks, f);
      }
    }
    assert |multiset(out) + multiset(stay)| == |multiset(rows)|;
  }

  /** The same split keeps S000 whole: total outflow plus total stay-in is the resident total. */
  lemma {:induction false} WorkSplitTotal(rows: seq<Flow>, blocks: seq<int>)
    ensures Total(Select(rows, WorkNotIn, blocks)) + Total(Select(rows, WorkIn, blocks)) == Total(rows)
  {
    if rows != [] {
      var init, last := rows[..|rows| - 1], rows[|rows| - 1];
      assert rows == init + [last];
      WorkSplitTotal(init, blocks);
      SelectSnoc(init, last, WorkNotIn, blocks);
      SelectSnoc(init, last, WorkIn, blocks);
      var out0, stay0 := Select(init, WorkNotIn, blocks), Select(init, WorkIn, blocks);
      TotalSnoc(init, last);
      if last.work in blocks {
        assert Select(rows, WorkNotIn, blocks) == out0;
        assert Select(rows, WorkIn, blocks) == stay0 + [last];
        TotalSnoc(stay0, last);
      } else {
        assert Select(rows, WorkNotIn, blocks) == out0 + [last];
        assert Select(rows, WorkIn, blocks) == stay0;
        TotalSnoc(out0, last);
      }
    }
  }

  /**
   * Non-residents `df4`, taken from the unfiltered table, share no row with
   * the residents `df` nor with `df2` or `df3`, which are taken from `df`.
   */
  lemma NonResidentsDisjoint(rows: seq<Flow>, blocks: seq<int>, f: Flow)
    requires f in Select(rows, WorkInHomeNotIn, blocks)
    ensures f.work in blocks && f.home !in blocks
    ensures f !in Select(rows, HomeIn, blocks)
    ensures f !in Select(Select(rows, HomeIn, blocks), WorkNotIn, blocks)
    ensures f !in Select(Select(rows, HomeIn, blocks), WorkIn, blocks)
  {
    var r := Select(rows, WorkInHomeNotIn, blocks);
    var i :| 0 <= i < |r| && r[i] == f;
    assert Matches(WorkInHomeNotIn, blocks, r[i]);
    ResidentsExact(rows, blocks, f);
    var df := Select(rows, HomeIn, blocks);
    SelectCount(df, WorkNotIn, blocks, f);
    SelectCount(df, WorkIn, blocks, f);
    SelectCount(rows, HomeIn, blocks, f);
  }

  /** With an empty block list no row is a resident and no row works inside. */
  lemma EmptyBlocks(rows: seq<Flow>)
    ensures Select(rows, HomeIn, []) == []
    ensures Select(rows, WorkIn, []) == []
    ensures Select(rows, WorkInHomeNotIn, []) == []
  {
    EmptyWhenNothingMatches(rows, HomeIn, []);
    EmptyWhenNothingMatches(rows, WorkIn, []);
    EmptyWhenNothingMatches(rows, WorkInHomeNotIn, []);
  }

  lemma EmptyWhenNothingMatches(rows: seq<Flow>, q: Query, blocks: seq<int>)
    requires forall f :: !Matches(q, blocks, f)
    ensures Select(rows, q, blocks) == []
  {
    var r := Select(rows, q, blocks);
    forall f
      ensures multiset(r)[f] == 0
    {
      SelectCount(rows, q, blocks, f);
    }
    assert multiset(r) == multiset{};
  }
}
