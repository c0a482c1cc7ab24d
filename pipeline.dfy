/**
 * Steps 4 to 6 of the LODES outflow analysis: build the block list,
 * split the flow table into the four record sets, and produce the five
 * summary tables with their text join keys.
 */
module Lodes {
  import opened Options
  import opened Decimal
  import opened Flows
  import opened Membership
  import opened Aggregate
  import opened StatTables

  /** The four record sets written to outdbf .. outdbf4. */
  datatype RecordSets = RecordSets(
    df: seq<Flow>,    // residents: home in the study area
    df2: seq<Flow>,   // residents working outside
    df3: seq<Flow>,   // residents working inside
    df4: seq<Flow>)   // non-residents working inside

  /** `df` and `df4` are queried from the whole table, `df2` and `df3` from `df`. */
  function Classify(table: seq<Flow>, blockList: seq<int>): (r: RecordSets)
    ensures forall i :: 0 <= i < |r.df| ==> r.df[i].home in blockList
    ensures forall i :: 0 <= i < |r.df2| ==> r.df2[i].home in blockList && r.df2[i].work !in blockList
    ensures forall i :: 0 <= i < |r.df3| ==> r.df3[i].home in blockList && r.df3[i].work in blockList
    ensures forall i :: 0 <= i < |r.df4| ==> r.df4[i].work in blockList && r.df4[i].home !in blockList
    ensures |r.df2| + |r.df3| == |r.df| && |r.df| + |r.df4| <= |table|
  {
    var df := Select(table, HomeIn, blockList);
    WorkSplitPartition(df, blockList);
    ResidentsStayResidents(df, WorkNotIn, blockList);
    ResidentsStayResidents(df, WorkIn, blockList);
    DisjointSetsFit(table, blockList);
    RecordSets(
      df,
      Select(df, WorkNotIn, blockList),
      Select(df, WorkIn, blockList),
      Select(table, WorkInHomeNotIn, blockList))
  }

  /** Residents and non-residents are disjoint filters of the table, so together they are no larger than it. */
  lemma DisjointSetsFit(table: seq<Flow>, blockList: seq<int>)
    ensures |Select(table, HomeIn, blockList)| + |Select(table, WorkInHomeNotIn, blockList)| <= |table|
  {
    var df, df4 := Select(table, HomeIn, blockList), Select(table, WorkInHomeNotIn, blockList);
    assert multiset(df) + multiset(df4) <= multiset(table) by {
      forall f
        ensures (multiset(df) + multiset(df4))[f] <= multiset(table)[f]
      {
        SelectCount(table, HomeIn, blockList, f);
        SelectCount(table, WorkInHomeNotIn, blockList, f);
      }
    }
    var both := multiset(df) + multiset(df4);
    assert multiset(table) == both + (multiset(table) - both);
    assert |multiset(table)| == |both| + |multiset(table) - both|;
  }

  /** The sums of statTable1 .. statTable5. */
  datatype Summaries = Summaries(
    stat1: map<nat, int>,   // residents by work block
    stat2: map<nat, int>,   // outflow by home block
    stat3: map<nat, int>,   // stay-in by home block
    stat4: map<nat, int>,   // non-residents by home block
    stat5: map<nat, int>)   // non-residents by work block

  /** statTable1 groups `df` by work block; 2 and 3 group `df2`, `df3` by home; 4 and 5 group `df4` by home and by work. */
  function Summarise(sets: RecordSets): (s: Summaries)
    ensures s.stat1.Keys == KeysOf(sets.df, Work) && MapTotal(s.stat1) == Total(sets.df)
    ensures s.stat2.Keys == KeysOf(sets.df2, Home) && MapTotal(s.stat2) == Total(sets.df2)
    ensures s.stat3.Keys == KeysOf(sets.df3, Home) && MapTotal(s.stat3) == Total(sets.df3)
    ensures s.stat4.Keys == KeysOf(sets.df4, Home) && MapTotal(s.stat4) == Total(sets.df4)
    ensures s.stat5.Keys == KeysOf(sets.df4, Work) && MapTotal(s.stat5) == Total(sets.df4)
  {
    GroupSumConserves(sets.df, Work);
    GroupSumConserves(sets.df2, Home);
    GroupSumConserves(sets.df3, Home);
    GroupSumConserves(sets.df4, Home);
    GroupSumConserves(sets.df4, Work);
    Summaries(
      GroupSumSpec(sets.df, Work),
      GroupSumSpec(sets.df2, Home),
      GroupSumSpec(sets.df3, Home),
      GroupSumSpec(sets.df4, Home),
      GroupSumSpec(sets.df4, Work))
  }

  datatype Report = Report(
    blockList: seq<int>,
    sets: RecordSets,
    statTable1: StatTable,
    statTable2: StatTable,
    statTable3: StatTable,
    statTable4: StatTable,
    statTable5: StatTable)

  /**
   * The script from the block-list cursor to the last CalculateField.  It
   * stops (None) when a GEOID is not an integer, as `int` would raise.
   */
  method Analyse(geoids: seq<string>, table: seq<Flow>) returns (report: Option<Report>)
    ensures report.Some? <==> AllParse(geoids)
    ensures report.Some? ==>
      var r := report.value;
      && |r.blockList| == |geoids|
      && (forall i :: 0 <= i < |geoids| ==> ParseInt(geoids[i]) == Some(r.blockList[i]))
      && r.sets == Classify(table, r.blockList)
    ensures report.Some? ==>
      var r := report.value;
      var s := Summarise(r.sets);
      && fresh(r.statTable1) && r.statTable1.sums == s.stat1 && r.statTable1.textColumns == map["w_geo_txt" := KeyText(s.stat1)]
      && fresh(r.statTable2) && r.statTable2.sums == s.stat2 && r.statTable2.textColumns == map["h_geo_txt" := KeyText(s.stat2)]
      && fresh(r.statTable3) && r.statTable3.sums == s.stat3 && r.statTable3.textColumns == map["h_geo_txt" := KeyText(s.stat3)]
      && fresh(r.statTable4) && r.statTable4.sums == s.stat4 && r.statTable4.textColumns == map["h_geo_txt" := KeyText(s.stat4)]
      && fresh(r.statTable5) && r.statTable5.sums == s.stat5 && r.statTable5.textColumns == map["w_geo_txt" := KeyText(s.stat5)]
    // five separately named feature classes, never one table under two names
    ensures report.Some? ==>
      var r := report.value;
      && r.statTable1 != r.statTable2 && r.statTable1 != r.statTable3 && r.statTable1 != r.statTable4
      && r.statTable1 != r.statTable5 && r.statTable2 != r.statTable3 && r.statTable2 != r.statTable4
      && r.statTable2 != r.statTable5 && r.statTable3 != r.statTable4 && r.statTable3 != r.statTable5
      && r.statTable4 != r.statTable5
  {
    var parsed := BuildBlockList(geoids);
    if parsed.None? {
      return None;
    }
    var blockList := parsed.value;
    var df := Select(table, HomeIn, blockList);
    var df2 := Select(df, WorkNotIn, blockList);
    var df3 := Select(df, WorkIn, blockList);
    var df4 := Select(table, WorkInHomeNotIn, blockList);
    var statTable1 := BuildSummary(df, Work, "w_geo_txt");
    var statTable2 := BuildSummary(df2, Home, "h_geo_txt");
    var statTable3 := BuildSummary(df3, Home, "h_geo_txt");
    var statTable4 := BuildSummary(df4, Home, "h_geo_txt");
    var statTable5 := BuildSummary(df4, Work, "w_geo_txt");
    report := Some(Report(blockList, RecordSets(df, df2, df3, df4),
                          statTable1, statTable2, statTable3, statTable4, statTable5));
  }

  /**
   * No worker is lost or counted twice across the tables: statTable1 holds
   * the resident total, which statTable2 and statTable3 split between them,
   * and statTable4 and statTable5 both hold the non-resident total.
   */
  lemma TablesConserveWorkers(table: seq<Flow>, blockList: seq<int>)
    ensures var sets := Classify(table, blockList);
            var s := Summarise(sets);
            && MapTotal(s.stat1) == Total(sets.df)
            && MapTotal(s.stat1) == MapTotal(s.stat2) + MapTotal(s.stat3)
            && MapTotal(s.stat4) == Total(sets.df4)
            && MapTotal(s.stat5) == Total(sets.df4)
  {
    var sets := Classify(table, blockList);
    GroupSumConserves(sets.df, Work);
    GroupSumConserves(sets.df2, Home);
    GroupSumConserves(sets.df3, Home);
    GroupSumConserves(sets.df4, Home);
    GroupSumConserves(sets.df4, Work);
    WorkSplitTotal(sets.df, blockList);
  }

  /** An empty block list yields four empty record sets and five empty tables. */
  lemma EmptyStudyArea(table: seq<Flow>)
    ensures Classify(table, []) == RecordSets([], [], [], [])
    ensures Summarise(Classify(table, [])) == Summaries(map[], map[], map[], map[], map[])
  {
    EmptyBlocks(table);
    EmptyBlocks([]);
  }

  lemma SelectOrderFree(a: seq<Flow>, b: seq<Flow>, q: Query, blockList: seq<int>)
    requires multiset(a) == multiset(b)
    ensures multiset(Select(a, q, blockList)) == multiset(Select(b, q, blockList))
  {
    forall f
      ensures multiset(Select(a, q, blockList))[f] == multiset(Select(b, q, blockList))[f]
    {
      SelectCount(a, q, blockList, f);
      SelectCount(b, q, blockList, f);
    }
  }

  /** Reordering the rows of the flow table leaves every summary table unchanged. */
  lemma SummariesOrderFree(a: seq<Flow>, b: seq<Flow>, blockList: seq<int>)
    requires multiset(a) == multiset(b)
    ensures Summarise(Classify(a, blockList)) == Summarise(Classify(b, blockList))
  {
    var sa, sb := Classify(a, blockList), Classify(b, blockList);
    SelectOrderFree(a, b, HomeIn, blockList);
    SelectOrderFree(sa.df, sb.df, WorkNotIn, blockList);
    SelectOrderFree(sa.df, sb.df, WorkIn, blockList);
    SelectOrderFree(a, b, WorkInHomeNotIn, blockList);
    GroupSumOrderFree(sa.df, sb.df, Work);
    GroupSumOrderFree(sa.df2, sb.df2, Home);
    GroupSumOrderFree(sa.df3, sb.df3, Home);
    GroupSumOrderFree(sa.df4, sb.df4, Home);
    GroupSumOrderFree(sa.df4, sb.df4, Work);
  }

  lemma SingleRowSummary(f: Flow, e: Endpoint)
    ensures GroupSumSpec([f], e) == map[KeyOf(f, e) := f.s000]
  {
    assert KeysOf([], e) == {};
    assert GroupSumSpec([], e) == map[];
    assert [] + [f] == [f];
    GroupSumSnoc([], f, e);
  }

  /** Blocks {100, 200}; rows 100->300 (5), 300->200 (7), 100->200 (3): the record sets. */
  lemma SmallStudyAreaSets()
    ensures var rows := [Flow(100, 300, 5), Flow(300, 200, 7), Flow(100, 200, 3)];
            Classify(rows, [100, 200]) == RecordSets([rows[0], rows[2]], [rows[0]], [rows[2]], [rows[1]])
  {
    var rows := [Flow(100, 300, 5), Flow(300, 200, 7), Flow(100, 200, 3)];
    var blocks := [100, 200];
    var r0, r1, r2 := rows[0], rows[1], rows[2];
    assert rows[..2] == [r0, r1] && rows[..1] == [r0];
    assert [r0, r1][..1] == [r0];
    var df := [r0, r2];
    assert Select(rows, HomeIn, blocks) == df;
    assert df[..1] == [r0];
    assert Select(df, WorkNotIn, blocks) == [r0];
    assert Select(df, WorkIn, blocks) == [r2];
    assert Select(rows, WorkInHomeNotIn, blocks) == [r1];
  }

  /** The same study area: the five summary tables. */
  lemma SmallStudyAreaTables()
    ensures var rows := [Flow(100, 300, 5), Flow(300, 200, 7), Flow(100, 200, 3)];
            Summarise(Classify(rows, [100, 200]))
              == Summaries(map[300 := 5, 200 := 3], map[100 := 5], map[100 := 3], map[300 := 7], map[200 := 7])
  {
    SmallStudyAreaSets();
    var r0, r1, r2 := Flow(100, 300, 5), Flow(300, 200, 7), Flow(100, 200, 3);
    SingleRowSummary(r0, Work);
    assert [r0] + [r2] == [r0, r2];
    GroupSumSnoc([r0], r2, Work);
    assert map[300 := 5][200 := 3] == map[300 := 5, 200 := 3];
    SingleRowSummary(r0, Home);
    SingleRowSummary(r2, Home);
    SingleRowSummary(r1, Home);
    SingleRowSummary(r1, Work);
  }
}
