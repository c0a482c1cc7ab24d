# LODES outflow analysis: the tabular core

This project models the part of `LODES_Script_Tool.py` (an ArcGIS Pro script
that reproduces the Census Bureau's OnTheMap inflow/outflow analysis from
LEHD Origin-Destination Employment Statistics) that works on tables rather
than on geometry:

- **Block list**: the GEOIDs of the census blocks selected inside the study
  area are read with `int(...)` into `blockList` (`Membership`).
- **Classification**: the LODES flow table (`h_geocode`, `w_geocode`,
  `S000`) is split by four `DataFrame.query` filters into residents `df`,
  residents working outside `df2`, residents working inside `df3` (both taken
  from `df`) and non-residents working inside `df4` (taken from the whole
  table) (`Flows`).
- **Summary tables**: `Statistics(..., [["S000", "SUM"]], caseField)` groups a
  record set by one geocode and sums S000, giving `statTable1` .. `statTable5`
  (`Aggregate`); each table is then edited in place by `AddField` and
  `CalculateField` to carry the text join key `str(int(geocode))`
  (`StatTables`, `Decimal`).
- **WHERE clause**: `buildWhereClauseFromList` renders `field IN(v1, v2, ...)`,
  quoting the values for a String field (`WhereClauses`).
- **Pipeline**: `Lodes.Analyse` runs the steps in the script's order.

Rows are `Flow(home, work, s000)` with geocodes as `nat`; the block list is a
`seq<int>`, as `int(...)` can produce any integer. A summary table is a
`map<nat, int>` from geocode to summed S000. It is sparse: a block that no
row has at that endpoint has no entry, rather than a zero entry. `Select`
models `query`: it keeps the rows that match, unaltered and in order.

In three places the script is less defensive than one might expect. The model follows the script:

- An empty block list does not stop the script at lines 147-231. Every
  record set and every table then comes out empty (`Lodes.EmptyStudyArea`).
  The WHERE clause built from it at line 255 is the empty list `GEOID IN()`,
  which `WhereClauses.ReadInList` rejects.
- Duplicate GEOIDs stay in `blockList`. They raise the count printed at line
  153 and repeat entries of the IN list built at lines 255, 264 and 282
  (`WhereClauses.Items` keeps one entry per value). They change neither the
  membership tests of the queries nor the blocks the IN list selects.
- `int(...)` on an identifier is a parse that can fail. No epsilon check is
  made on fractional identifiers.

## Model

| member | source | states |
|---|---|---|
| `Decimal.DecimalText` | LODES_Script_Tool.py:206-207 | `str(int(id))` of a non-negative id is a non-empty string of decimal digits with no '.' and no leading zero unless it is "0" |
| `Decimal.IntText` | LODES_Script_Tool.py:97 | `str(v)` of any integer is non-empty, made of digits and '-', and starts with '-' exactly when v is negative |
| `Decimal.ParseInt` | LODES_Script_Tool.py:150 | `int(s)` succeeds exactly on a non-empty digit string, optionally after one '+' or '-'; the value is that of the digits, negated after '-'; every other text is the ValueError |
| `Decimal.DecimalTextValue` | LODES_Script_Tool.py:206-207 | the digits of `str(n)` have value n |
| `Decimal.ParseDecimalText` | LODES_Script_Tool.py:150 | `int(str(n)) == n` for every non-negative id: the join key parses back to the geocode |
| `Decimal.ParseIntText` | LODES_Script_Tool.py:150 | `int(str(i)) == i` for every integer, negative ones included |
| `Decimal.CanonicalText` | LODES_Script_Tool.py:150 | every canonical digit string is `str` of its own `int` value, so the two are inverse on canonical texts |
| `Decimal.DecimalTextInjective` | LODES_Script_Tool.py:206-207 | distinct geocodes get distinct text keys |
| `Membership.BuildBlockList` | LODES_Script_Tool.py:147-150 | the loop yields a list exactly when every GEOID parses; it then has one entry per GEOID, in cursor order, each `int(GEOID)` |
| `Flows.QueryCases` | LODES_Script_Tool.py:170-191 | the four query strings split the table: every row with its home or its work block in the study area lands in exactly one of `df2`, `df3`, `df4`, as often as it occurs in the table, and a row with neither end inside lands in none |
| `Flows.Select` | LODES_Script_Tool.py:170-191 | a `query` result is no longer than its input and every row in it satisfies the query |
| `Flows.SelectCount` | LODES_Script_Tool.py:170-191 | the filter drops rows and never alters them: a matching row keeps its multiplicity, any other row is absent |
| `Flows.SelectSubsequence` | LODES_Script_Tool.py:170-191 | the filter keeps rows in their input order (`df2`, `df3` are subsequences of `df`) |
| `Flows.ResidentsStayResidents` | LODES_Script_Tool.py:177-184 | every row of `df2` and `df3`, being queried from `df`, has its home in the block list |
| `Flows.ResidentsExact` | LODES_Script_Tool.py:170 | a row is in `df` exactly when it is in the table and its home block is in `blockList` |
| `Flows.WorkSplitPartition` | LODES_Script_Tool.py:177-184 | `df2` and `df3` are disjoint, their multisets add up to that of `df`, and `|df2| + |df3| == |df|` |
| `Flows.WorkSplitTotal` | LODES_Script_Tool.py:177-184 | total S000 of `df2` plus that of `df3` is the total of `df` |
| `Flows.NonResidentsDisjoint` | LODES_Script_Tool.py:191 | every row of `df4` works inside and lives outside, and is in none of `df`, `df2`, `df3` |
| `Flows.EmptyBlocks` | LODES_Script_Tool.py:170-191 | with an empty block list the resident, work-inside and non-resident filters return nothing |
| `Aggregate.GroupSumSnoc` | LODES_Script_Tool.py:205 | one more input row changes the summary only by adding its S000 to its key's group, opening it if new |
| `Aggregate.GroupSum` | LODES_Script_Tool.py:205-229 | the group-by loop: a block is a key exactly when some row has it at the endpoint, its value is the S000 sum of those rows, and the map equals the reference summary |
| `Aggregate.MapTotalRemove` | LODES_Script_Tool.py:205-229 | the sum of a table's values does not depend on the order its keys are taken in |
| `Aggregate.GroupSumConserves` | LODES_Script_Tool.py:205-229 | the values of a summary table add up to the S000 total of its input: nothing lost, nothing counted twice |
| `Aggregate.GroupSumOrderFree` | LODES_Script_Tool.py:205-229 | a summary depends only on the multiset of input rows, not on their order |
| `StatTables.KeyText` | LODES_Script_Tool.py:206-207 | the text column has a cell for every row of the table; each is canonical decimal text that `int` reads back as that row's geocode |
| `StatTables.StatTable.constructor` | LODES_Script_Tool.py:205 | Statistics creates a table whose sums are the group-by-sum of its input and that has no text field yet; every method keeps each text column either all null or equal to the key text of every row |
| `StatTables.StatTable.AddTextField` | LODES_Script_Tool.py:206 | AddField adds an all-null TEXT column, leaves an existing field alone and does not touch the sums |
| `StatTables.StatTable.CalculateKeyText` | LODES_Script_Tool.py:207 | CalculateField fills the column with each row's key text, which parses back to its geocode; sums unchanged |
| `StatTables.BuildSummary` | LODES_Script_Tool.py:205-207 | the three calls leave a fresh table with the group-by sums and exactly one text column, holding the key text |
| `WhereClauses.Join` | LODES_Script_Tool.py:97 | `', '.join(items)` is empty for no items and otherwise starts with the first item; `WhereClauses.SplitJoin` gives it back item by item |
| `WhereClauses.Item` | LODES_Script_Tool.py:93-94 | an entry has no comma and starts with a single quote exactly when the field is a String field |
| `WhereClauses.Items` | LODES_Script_Tool.py:94 | one entry per value, in input order |
| `WhereClauses.BuildWhereClause` | LODES_Script_Tool.py:97 | for an empty value list the clause is `field IN()` |
| `WhereClauses.SplitJoin` | LODES_Script_Tool.py:97 | splitting `", ".join(items)` at its separators gives the items back when none holds a comma |
| `WhereClauses.WhereClauseRoundTrip` | LODES_Script_Tool.py:82-98 | reading a clause built from a non-empty list gives back exactly the values, in order |
| `WhereClauses.WhereClauseQuoting` | LODES_Script_Tool.py:93-97 | read with the opposite quoting convention the clause is rejected: entries are quoted exactly for a String field |
| `GeoidKeys.KeyTextDropsLeadingZero` | LODES_Script_Tool.py:206-207 | as written, `str(int(g))` differs from any digit GEOID g that starts with '0' |
| `GeoidKeys.AlabamaBlockExample` | LODES_Script_Tool.py:206-207 | the 15-digit GEOID 010010201001000 is not its own key as written, and is under the padded key |
| `GeoidKeys.PaddedRoundTrip` | LODES_Script_Tool.py:206-207 | zero-padding the decimal text to a digit string's width gives that string back from its value |
| `GeoidKeys.GeoidKeyMatches` | LODES_Script_Tool.py:206-207 | for every 15-digit GEOID, the padded key of its value is the GEOID itself |
| `GeoidKeys.KeyTextAgreesWithoutLeadingZero` | LODES_Script_Tool.py:206-207 | for GEOIDs without a leading zero (Texas, FIPS 48) the key as written and the padded key both equal the GEOID |
| `Lodes.Analyse` | LODES_Script_Tool.py:147-231 | the run fails exactly when a GEOID does not parse; otherwise it gives the parsed block list, the four record sets of the queries, and five fresh, pairwise distinct tables holding the specified sums and text keys |
| `Lodes.Classify` | LODES_Script_Tool.py:165-191 | `df` holds only residents, `df2` only residents working outside, `df3` only residents working inside, `df4` only non-residents working inside; `|df2| + |df3| == |df|` and `df`, `df4` together fit in the table |
| `Lodes.DisjointSetsFit` | LODES_Script_Tool.py:170-191 | `df` and `df4`, both queried from the whole table, share no row, so their sizes add to at most the table's |
| `Lodes.Summarise` | LODES_Script_Tool.py:205-229 | which record set and case field each Statistics call uses: each table's keys are the blocks at that endpoint in that set, and its values total that set's S000 |
| `Lodes.TablesConserveWorkers` | LODES_Script_Tool.py:205-229 | total of statTable1 is the resident total and equals statTable2 plus statTable3; statTable4 and statTable5 both total the non-residents |
| `Lodes.EmptyStudyArea` | LODES_Script_Tool.py:170-231 | an empty block list gives four empty record sets and five empty tables |
| `Lodes.SelectOrderFree` | LODES_Script_Tool.py:170-191 | filters of two reorderings of one table are reorderings of each other |
| `Lodes.SummariesOrderFree` | LODES_Script_Tool.py:170-229 | reordering the flow table leaves all five summary tables unchanged |
| `Lodes.SingleRowSummary` | LODES_Script_Tool.py:205 | a one-row input gives a one-entry table holding that row's S000 |
| `Lodes.SmallStudyAreaSets` | LODES_Script_Tool.py:170-191 | blocks {100, 200} with rows 100->300 (5), 300->200 (7), 100->200 (3): `df2` is row 1, `df3` row 3, `df4` row 2 |
| `Lodes.SmallStudyAreaTables` | LODES_Script_Tool.py:205-229 | the same input gives statTable1 {300: 5, 200: 3}, statTable2 {100: 5}, statTable3 {100: 3}, statTable4 {300: 7}, statTable5 {200: 7} |

## Left out

- ArcGIS session and project setup, tool parameters and output paths (lines 28-50): environment and I/O.
- The polygon check on the study area (lines 106-109): it asks arcpy for geometry metadata.
- Adding the living-atlas block layer and finding it by feature count (lines 116-132): network and map UI.
- Select by location (lines 142, 238-250), including the INVERT split of statTable1 into inside and outside work locations: geometry done by arcpy. The block list is taken as given.
- Reading the gzip CSV and writing CSV and DBF files (lines 164-194): I/O. The table is an in-memory `seq<Flow>`, and columns other than the two geocodes and S000 are not modelled.
- `AddJoin` with KEEP_COMMON, `CopyFeatures` and `RemoveJoin` (lines 240-286): foreign feature-class operations. The text keys they join on are modelled.
- Symbology and rendering (lines 294-420), and `AddMsgAndPrint` messaging (lines 62-79).
- `arcpy.AddFieldDelimiters` and `ListFields` in `buildWhereClauseFromList` (lines 87-90): the delimited field name and the field type are parameters.
- Floating point: geocodes become doubles once exported to DBF. Ids are `nat`, and the truncation done by `int(double)` is taken as already done. 15-digit geocodes are below 2^53, so doubles hold them exactly.
- `Decimal.ParseInt`: Python's `int(str)` also accepts surrounding whitespace, underscores between digits and non-ASCII digits. Only an optional sign and ASCII digits are modelled.
- `Aggregate.GroupSum`: Statistics also writes a FREQUENCY column (the row count per group). Its rows come out in an order of its own choosing. Only the key-to-sum map is modelled. Sums are unbounded integers; no 64-bit limit is modelled.
- `StatTables.StatTable.CalculateKeyText`: requires the text field to exist. The script always adds it first. What CalculateField does with a missing field is not modelled.
- `Lodes.Analyse`: failures of arcpy calls other than `int(...)` are not modelled.

## Findings

| source | as written | input that shows it | evidently intended | confidence | as-written member | corrected member |
|---|---|---|---|---|---|---|
| LODES_Script_Tool.py:206-207 | The join key is `str(int(geocode))`, which drops leading zeros. It is then joined by exact text match against the 15-character block GEOID. The WHERE clause at line 255 renders `str(v)` the same way. | GEOID `010010201001000` (Autauga County, Alabama; state FIPS 01) gets key `10010201001000`. The KEEP_COMMON join drops every block of a state with FIPS 01-09. That is possible with the nationwide block layer that the comment at line 33 offers. | A key zero-padded to the GEOID width, equal to the GEOID for every block | medium, not executed | `GeoidKeys.KeyTextDropsLeadingZero` | `GeoidKeys.GeoidKeyMatches` |

The summary tables keep the key as written (`StatTables.KeyText`) because
that is what the script writes. For Texas blocks (FIPS 48) the two keys agree
(`GeoidKeys.KeyTextAgreesWithoutLeadingZero`).
