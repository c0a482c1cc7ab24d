/**
 * `buildWhereClauseFromList(table, field, valueList)`: the SQL
 * `field IN(v1, v2, ...)` used to select the study-area blocks by GEOID.
 * The delimited field name and the field type are passed in, as the
 * geodatabase lookups that produce them are not part of this model.
 */
module WhereClauses {
  import opened Options
  import opened Decimal

  /** `sep.join(items)`: it starts with the first item. */
  function Join(items: seq<string>, sep: string): (r: string)
    ensures items == [] ==> r == ""
    ensures items != [] ==> |r| >= |items[0]| && r[..|items[0]|] == items[0]
  {
    if items == [] then ""
    else if |items| == 1 then items[0]
    else items[0] + sep + Join(items[1..], sep)
  }

  /** One list entry: `str(v)`, wrapped as `"'%s'" % v` for a String field. */
  function Item(v: int, quoted: bool): (item: string)
    ensures ',' !in item
    ensures |item| > 0 && (item[0] == '\'' <==> quoted)
  {
    if quoted then "'" + IntText(v) + "'" else IntText(v)
  }

  /** The entries in input order, one per value. */
  function Items(values: seq<int>, quoted: bool): (items: seq<string>)
    ensures |items| == |values|
    ensures forall i :: 0 <= i < |items| ==> items[i] == Item(values[i], quoted)
  {
    if values == [] then [] else [Item(values[0], quoted)] + Items(values[1..], quoted)
  }

  /**
   * `"%s IN(%s)" % (fieldDelimited, ', '.join(map(str, valueList)))`.  What
   * the clause means is stated by WhereClauseRoundTrip (it reads back to the
   * values, in order) and WhereClauseQuoting (entries are quoted exactly for
   * a String field).
   */
  function BuildWhereClause(fieldDelimited: string, fieldType: string, values: seq<int>): (clause: string)
    ensures values == [] ==> clause == fieldDelimited + " IN()"
  {
    fieldDelimited + " IN(" + Join(Items(values, fieldType == "String"), ", ") + ")"
  }

  /** Splits a list written as `a, b, c` back into its entries. */
  function SplitList(s: string): (parts: seq<string>)
    ensures |parts| >= 1
    decreases |s|
  {
    if s == [] then [""]
    else if s[0] == ',' then [""] + SplitList(if |s| > 1 && s[1] == ' ' then s[2..] else s[1..])
    else
      var rest := SplitList(s[1..]);
      [[s[0]] + rest[0]] + rest[1..]
  }

  function Unquote(item: string, quoted: bool): Option<string> {
    if !quoted then Some(item)
    else if |item| >= 2 && item[0] == '\'' && item[|item| - 1] == '\'' then Some(item[1..|item| - 1])
    else None
  }

  function ParseItems(items: seq<string>, quoted: bool): Option<seq<int>> {
    if items == [] then Some([])
    else
      match Unquote(items[0], quoted)
      case None => None
      case Some(text) =>
        match ParseInt(text)
        case None => None
        case Some(v) =>
          match ParseItems(items[1..], quoted)
          case None => None
          case Some(vs) => Some([v] + vs)
  }

  /** Reads the entries of `field IN(...)` back as integers; None when the clause is not of that form. */
  function ReadInList(fieldDelimited: string, quoted: bool, clause: string): Option<seq<int>> {
    var head := fieldDelimited + " IN(";
    if |clause| > |head| && clause[..|head|] == head && clause[|clause| - 1] == ')' then
      ParseItems(SplitList(clause[|head|..|clause| - 1]), quoted)
    else
      None
  }

  lemma {:induction false} SplitPrefix(x: string, t: string)
    requires ',' !in x
    ensures SplitList(x + t) == [x + SplitList(t)[0]] + SplitList(t)[1..]
  {
    if x != [] {
      assert (x + t)[1..] == x[1..] + t;
      SplitPrefix(x[1..], t);
      assert [x[0]] + (x[1..] + SplitList(t)[0]) == x + SplitList(t)[0];
    } else {
      assert x + t == t;
      assert x + SplitList(t)[0] == SplitList(t)[0];
      assert SplitList(t) == [SplitList(t)[0]] + SplitList(t)[1..];
    }
  }

  lemma {:induction false} SplitJoin(items: seq<string>)
    requires items != []
    requires forall i :: 0 <= i < |items| ==> ',' !in items[i]
    ensures SplitList(Join(items, ", ")) == items
  {
    if |items| == 1 {
      SplitPrefix(items[0], "");
      assert items[0] + "" == items[0];
    } else {
      var rest := Join(items[1..], ", ");
      assert Join(items, ", ") == items[0] + (", " + rest);
      SplitPrefix(items[0], ", " + rest);
      assert (", " + rest)[2..] == rest;
      assert SplitList(", " + rest) == [""] + SplitList(rest);
      SplitJoin(items[1..]);
      assert items[0] + "" == items[0];
      assert items == [items[0]] + items[1..];
    }
  }

  lemma ReadItem(v: int, quoted: bool)
    ensures Unquote(Item(v, quoted), quoted) == Some(IntText(v))
    ensures ParseInt(IntText(v)) == Some(v)
  {
    ParseIntText(v);
    if quoted {
      var item := Item(v, quoted);
      assert item[1..|item| - 1] == IntText(v);
    }
  }

  lemma {:induction false} ParseItemsOf(values: seq<int>, quoted: bool)
    ensures ParseItems(Items(values, quoted), quoted) == Some(values)
  {
    if values != [] {
      var items := Items(values, quoted);
      assert items[0] == Item(values[0], quoted);
      assert items[1..] == Items(values[1..], quoted);
      ReadItem(values[0], quoted);
      ParseItemsOf(values[1..], quoted);
      assert values == [values[0]] + values[1..];
    }
  }

  /** Cutting `head + inner + ")"` back into its parts. */
  lemma ClauseParts(head: string, inner: string)
    ensures var clause := head + inner + ")";
            && |clause| > |head| && clause[..|head|] == head && clause[|clause| - 1] == ')'
            && clause[|head|..|clause| - 1] == inner
  {
    var clause := head + inner + ")";
    assert clause[..|head|] == head;
    assert clause[|head|..|clause| - 1] == inner;
  }

  /** For a non-empty list, reading the clause back gives the values, in input order. */
  lemma WhereClauseRoundTrip(fieldDelimited: string, fieldType: string, values: seq<int>)
    requires values != []
    ensures ReadInList(fieldDelimited, fieldType == "String", BuildWhereClause(fieldDelimited, fieldType, values)) == Some(values)
  {
    var quoted := fieldType == "String";
    var items := Items(values, quoted);
    var inner := Join(items, ", ");
    ClauseParts(fieldDelimited + " IN(", inner);
    SplitJoin(items);
    ParseItemsOf(values, quoted);
  }

  /** The entries are quoted exactly when the field is a String field: read with the other convention, the list is rejected. */
  lemma WhereClauseQuoting(fieldDelimited: string, fieldType: string, values: seq<int>)
    requires values != []
    ensures ReadInList(fieldDelimited, fieldType != "String", BuildWhereClause(fieldDelimited, fieldType, values)) == None
  {
    var quoted := fieldType == "String";
    var items := Items(values, quoted);
    ClauseParts(fieldDelimited + " IN(", Join(items, ", "));
    SplitJoin(items);
    var first := items[0];
    if quoted {
      assert first[0] == '\'';
      assert ParseInt(first) == None;
    } else {
      assert first[0] != '\'';
      assert Unquote(first, true) == None;
    }
  }
}
