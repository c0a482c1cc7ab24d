/**
 * The summary tables the script creates with Statistics and then edits in
 * place: AddField adds a TEXT column, CalculateField fills it with
 * `str(int(!geocode!))` so that it can be joined against the block GEOIDs.
 */
module StatTables {
  import opened Options
  import opened Decimal
  import opened Flows
  import opened Aggregate

  /** The TEXT join-key column for a summary: `str(int(geocode))` on every row. */
  function KeyText(sums: map<nat, int>): (column: map<nat, string>)
    ensures column.Keys == sums.Keys
    ensures forall k :: k in column ==> IsCanonical(column[k]) && ParseInt(column[k]) == Some(k as int)
  {
    forall k | k in sums
      ensures ParseInt(DecimalText(k)) == Some(k as int)
    {
      ParseDecimalText(k);
    }
    map k | k in sums :: DecimalText(k)
  }

  class StatTable {
    /** The case field the table was grouped by. */
    const caseField: Endpoint
    /** One row per case-field value, holding SUM_S000. */
    var sums: map<nat, int>
    /** TEXT fields added after the fact; a row missing from a column holds null. */
    var textColumns: map<string, map<nat, string>>

    /** Every text column is either still all null or holds the key text of every row. */
    ghost predicate Valid()
      reads this
    {
      forall name :: name in textColumns ==> textColumns[name] == map[] || textColumns[name] == KeyText(sums)
    }

    /** Statistics(rows, out, [["S000", "SUM"]], caseField). */
    constructor (rows: seq<Flow>, caseField: Endpoint)
      ensures Valid()
      ensures this.caseField == caseField
      ensures sums == GroupSumSpec(rows, caseField)
      ensures textColumns == map[]
    {
      var table := GroupSum(rows, caseField);
      this.caseField := caseField;
      sums := table;
      textColumns := map[];
    }

    /** AddField(table, name, 'TEXT'): a new column of nulls; a field that already exists is left alone. */
    method AddTextField(name: string)
      requires Valid()
      modifies this
      ensures Valid()
      ensures sums == old(sums)
      ensures textColumns == if name in old(textColumns) then old(textColumns) else old(textColumns)[name := map[]]
    {
      if name !in textColumns {
        textColumns := textColumns[name := map[]];
      }
    }

    /**
     * CalculateField(table, name, 'str(int(!geocode!))'): every row's cell in
     * the column becomes the decimal text of its geocode, which reads back as
     * that geocode; the sums are untouched.
     */
    method CalculateKeyText(name: string)
      requires Valid() && name in textColumns
      modifies this
      ensures Valid()
      ensures sums == old(sums)
      ensures textColumns == old(textColumns)[name := KeyText(sums)]
      ensures forall k :: k in sums ==> k in textColumns[name] && ParseInt(textColumns[name][k]) == Some(k as int)
    {
      textColumns := textColumns[name := KeyText(sums)];
    }
  }

  /** The three steps that produce each summary table: Statistics, AddField, CalculateField. */
  method BuildSummary(rows: seq<Flow>, caseField: Endpoint, textField: string) returns (table: StatTable)
    ensures fresh(table) && table.Valid()
    ensures table.caseField == caseField
    ensures table.sums == GroupSumSpec(rows, caseField)
    ensures table.textColumns == map[textField := KeyText(table.sums)]
  {
    table := new StatTable(rows, caseField);
    table.AddTextField(textField);
    table.CalculateKeyText(textField);
  }
}
