/**
 * The data-manipulation statements of the WebSQL provider: the INSERT that
 * `save` builds for a new record, the DELETE of `del`, the SELECT of `find`
 * with its optional constraint, and the records `find` makes of the rows.
 */
module Statements {
  import opened Wrappers
  import opened SqlText
  import opened Schema

  /** The lifecycle states of a model record that the provider reads or sets. */
  datatype RecordState = StateNew | StateValid | StateDestroyed

  /**
   * The model object passed to the provider: its table name, its `__meta`
   * in iteration order, its `record` as (property, rendered value) pairs in
   * iteration order, its state and its identity key.
   */
  datatype Model = Model(name: string, meta: seq<Field>, record: seq<(string, string)>, state: RecordState, id: nat)

  /** `__meta[prop].type`: the declared type of the first field named `prop`, if there is one. */
  function LookupType(meta: seq<Field>, prop: string): Option<string>
  {
    if |meta| == 0 then None
    else if meta[0].name == prop then Some(meta[0].typ)
    else LookupType(meta[1..], prop)
  }

  /** The lookup finds the first field of that name, and fails only when no field has it. */
  lemma {:induction false} LookupTypeFirst(meta: seq<Field>, prop: string)
    ensures LookupType(meta, prop).None? <==> forall i :: 0 <= i < |meta| ==> meta[i].name != prop
    ensures LookupType(meta, prop).Some? ==>
      exists i :: 0 <= i < |meta| && meta[i] == Field(prop, LookupType(meta, prop).value, meta[i].isRequired)
                && forall j :: 0 <= j < i ==> meta[j].name != prop
  {
    if |meta| > 0 && meta[0].name != prop {
      LookupTypeFirst(meta[1..], prop);
      if LookupType(meta, prop).Some? {
        var i :| 0 <= i < |meta[1..]| && meta[1..][i] == Field(prop, LookupType(meta, prop).value, meta[1..][i].isRequired)
                 && forall j :: 0 <= j < i ==> meta[1..][j].name != prop;
        assert meta[i + 1] == meta[1..][i];
        forall j | 0 <= j < i + 1
          ensures meta[j].name != prop
        {
          if j > 0 { assert meta[j] == meta[1..][j - 1]; }
        }
      } else {
        forall i | 0 <= i < |meta|
          ensures meta[i].name != prop
        {
          if i > 0 { assert meta[i] == meta[1..][i - 1]; }
        }
      }
    } else if |meta| > 0 {
      assert meta[0] == Field(prop, LookupType(meta, prop).value, meta[0].isRequired);
    }
  }

  /** Every record property has metadata. */
  predicate AllKnown(meta: seq<Field>, record: seq<(string, string)>)
  {
    forall i :: 0 <= i < |record| ==> LookupType(meta, record[i].0).Some?
  }

  /** The position of the first record property without metadata. */
  function FirstUnknown(meta: seq<Field>, record: seq<(string, string)>): (k: nat)
    requires !AllKnown(meta, record)
    ensures k < |record| && LookupType(meta, record[k].0).None?
    ensures forall j :: 0 <= j < k ==> LookupType(meta, record[j].0).Some?
  {
    if LookupType(meta, record[0].0).None? then 0 else 1 + FirstUnknown(meta, record[1..])
  }

  /** The declared types whose values the INSERT writes in double quotes. */
  predicate IsTextType(typ: string)
  {
    typ == "String" || typ == "Text"
  }

  /** One INSERT value, with the quoting `save` applies for its declared type. */
  function QuoteValue(typ: string, v: string): string
  {
    if IsTextType(typ) then "\"" + v + "\"" else v
  }

  /**
   * The quoting rule: a value is wrapped in `"` exactly when its declared type
   * is String or Text, and written as it is otherwise; the value can be read
   * back from between the quotes.
   */
  lemma QuoteRule(typ: string, v: string)
    ensures QuoteValue(typ, v) == "\"" + v + "\"" <==> IsTextType(typ)
    ensures QuoteValue(typ, v) == v <==> !IsTextType(typ)
    ensures IsTextType(typ) ==> var r := QuoteValue(typ, v); r[0] == '"' && r[|r| - 1] == '"' && r[1..|r| - 1] == v
  {
    if !IsTextType(typ) {
      assert |"\"" + v + "\""| != |v|;
    }
  }

  /** The INSERT's column names: the record's properties in iteration order. */
  function Columns(record: seq<(string, string)>): (cs: seq<string>)
    ensures |cs| == |record| && forall i :: 0 <= i < |record| ==> cs[i] == record[i].0
  {
    seq(|record|, i requires 0 <= i < |record| => record[i].0)
  }

  /** The INSERT's values, in the same order, each quoted by its declared type. */
  function Values(meta: seq<Field>, record: seq<(string, string)>): (vs: seq<string>)
    requires AllKnown(meta, record)
    ensures |vs| == |record|
    ensures forall i :: 0 <= i < |record| ==> vs[i] == QuoteValue(LookupType(meta, record[i].0).value, record[i].1)
  {
    seq(|record|, i requires 0 <= i < |record| => QuoteValue(LookupType(meta, record[i].0).value, record[i].1))
  }

  /** `x + sep` for every element, in order. */
  function SuffixEach(xs: seq<string>, sep: string): string
  {
    if |xs| == 0 then "" else SuffixEach(xs[..|xs| - 1], sep) + xs[|xs| - 1] + sep
  }

  /** A separator after every element is the join followed by one separator. */
  lemma {:induction false} SuffixEachJoin(xs: seq<string>, sep: string)
    requires |xs| >= 1
    ensures SuffixEach(xs, sep) == Join(xs, sep) + sep
  {
    var init := xs[..|xs| - 1];
    if |xs| == 1 {
      assert init == [];
    } else {
      SuffixEachJoin(init, sep);
      JoinSnoc(init, xs[|xs| - 1], sep);
      assert init + [xs[|xs| - 1]] == xs;
    }
  }

  /**
   * What the INSERT builder leaves for an empty record: both cuts at the last
   * comma find no separator to strip and cut into the text before it.
   */
  function EmptyInsertText(name: string): string
  {
    CutAtLastComma(CutAtLastComma("INSERT INTO " + name + " (") + ") VALUES (") + "); "
  }

  /**
   * The INSERT `save` issues for a new record:
   * `INSERT INTO <name> (c1, …, cn) VALUES (v1, …, vn); `. The first
   * property without metadata makes the builder throw.
   */
  function InsertText(name: string, meta: seq<Field>, record: seq<(string, string)>): Result<string, BuildError>
  {
    if !AllKnown(meta, record) then Failure(UnknownField(record[FirstUnknown(meta, record)].0))
    else if |record| == 0 then Success(EmptyInsertText(name))
    else
      Success("INSERT INTO " + name + " (" + Join(Columns(record), ", ") + ") VALUES ("
              + Join(Values(meta, record), ", ") + "); ")
  }

  /** For an empty record and a comma-free table name the INSERT collapses to `); `. */
  lemma EmptyInsertCollapses(name: string)
    requires ',' !in name
    ensures InsertText(name, [], []) == Success("); ")
  {
    var s1 := "INSERT INTO " + name + " (";
    assert forall j :: 0 <= j < |s1| ==> s1[j] != ',';
    LastIndexOfIsLast(s1, ',');
    assert LastIndexOf(s1, ',') == -1;
    assert CutAtLastComma(s1) == "";
    var s2 := "" + ") VALUES (";
    LastIndexOfIsLast(s2, ',');
    assert LastIndexOf(s2, ',') == -1;
    assert CutAtLastComma(s2) == "";
    assert EmptyInsertText(name) == CutAtLastComma(s2) + "); " == "); ";
    assert AllKnown([], []);
    assert InsertText(name, [], []) == Success(EmptyInsertText(name));
  }

  /**
   * The two lists of a non-empty INSERT: split at their commas (no commas in
   * names or values), the column list gives the properties in order and the
   * value list gives the values in the same order, each quoted exactly when
   * its declared type is String or Text; neither list has a stray separator.
   */
  lemma InsertLists(name: string, meta: seq<Field>, record: seq<(string, string)>)
    requires AllKnown(meta, record) && |record| > 0
    requires forall i :: 0 <= i < |record| ==> ',' !in record[i].0 && ',' !in record[i].1
    ensures var cl := Join(Columns(record), ", ");
            var vl := Join(Values(meta, record), ", ");
            && InsertText(name, meta, record) == Success("INSERT INTO " + name + " (" + cl + ") VALUES (" + vl + "); ")
            && |SplitChar(cl, ',')| == |record| && |SplitChar(vl, ',')| == |record|
            && forall i :: 0 <= i < |record| ==>
                 var lead := if i == 0 then "" else " ";
                 && SplitChar(cl, ',')[i] == lead + record[i].0
                 && SplitChar(vl, ',')[i] == lead + QuoteValue(LookupType(meta, record[i].0).value, record[i].1)
  {
    var cs := Columns(record);
    var vs := Values(meta, record);
    forall i | 0 <= i < |record|
      ensures ',' !in vs[i]
    {
      var v := record[i].1;
      if IsTextType(LookupType(meta, record[i].0).value) {
        assert vs[i] == "\"" + v + "\"";
        assert forall j :: 0 <= j < |vs[i]| ==> vs[i][j] == '"' || vs[i][j] == v[j - 1];
      }
    }
    JoinCommaSplit(cs);
    JoinCommaSplit(vs);
    forall i | 0 <= i < |record|
      ensures SplitChar(Join(cs, ", "), ',')[i] == (if i == 0 then "" else " ") + record[i].0
      ensures SplitChar(Join(vs, ", "), ',')[i] == (if i == 0 then "" else " ") + vs[i]
    {
      if i == 0 {
        assert "" + cs[0] == cs[0];
        assert "" + vs[0] == vs[0];
      }
    }
  }

  /** The cut at the last comma strips exactly the separator left after the last element. */
  lemma CutList(head: string, xs: seq<string>)
    ensures |xs| > 0 ==> CutAtLastComma(head + SuffixEach(xs, ", ")) == head + Join(xs, ", ")
    ensures |xs| == 0 ==> CutAtLastComma(head + SuffixEach(xs, ", ")) == CutAtLastComma(head)
  {
    if |xs| > 0 {
      SuffixEachJoin(xs, ", ");
      assert head + SuffixEach(xs, ", ") == (head + Join(xs, ", ")) + ", ";
      CutTrailingSeparator(head + Join(xs, ", "));
    } else {
      assert head + SuffixEach(xs, ", ") == head;
    }
  }

  /**
   * The INSERT builder of `save`, as the source runs it: `prop + ', '` per
   * property, a cut at the last comma, `) VALUES (`, the quoted value and
   * `', '` per property, a second cut and `); `.
   */
  method BuildInsert(name: string, meta: seq<Field>, record: seq<(string, string)>) returns (r: Result<string, BuildError>)
    ensures r == InsertText(name, meta, record)
  {
    var sql := AppendColumns("INSERT INTO " + name + " (", record);
    sql := CutAtLastComma(sql) + ") ";
    sql := sql + "VALUES (";
    var withValues := AppendValues(sql, meta, record);
    if withValues.Failure? {
      return withValues;
    }
    InsertAssembled(name, meta, record, sql);
    sql := CutAtLastComma(withValues.value) + "); ";
    return Success(sql);
  }

  /** The first loop of the INSERT builder: `prop + ', '` for every record property. */
  method AppendColumns(sql0: string, record: seq<(string, string)>) returns (sql: string)
    ensures sql == sql0 + SuffixEach(Columns(record), ", ")
  {
    sql := sql0;
    ghost var cs := Columns(record);
    var i := 0;
    while i < |record|
      invariant 0 <= i <= |record|
      invariant sql == sql0 + SuffixEach(cs[..i], ", ")
    {
      assert cs[..i + 1][..i] == cs[..i];
      sql := sql + record[i].0 + ", ";
      i := i + 1;
    }
    assert cs[..i] == cs;
  }

  /**
   * The second loop of the INSERT builder: the quoted value and `', '` for
   * every record property; a property without metadata throws.
   */
  method AppendValues(sql0: string, meta: seq<Field>, record: seq<(string, string)>) returns (r: Result<string, BuildError>)
    ensures AllKnown(meta, record) ==> r == Success(sql0 + SuffixEach(Values(meta, record), ", "))
    ensures !AllKnown(meta, record) ==> r == Failure(UnknownField(record[FirstUnknown(meta, record)].0))
  {
    var sql := sql0;
    var i := 0;
    while i < |record|
      invariant 0 <= i <= |record|
      invariant AllKnown(meta, record[..i])
      invariant sql == sql0 + SuffixEach(Values(meta, record[..i]), ", ")
    {
      var t := LookupType(meta, record[i].0);
      if t.None? {
        FirstUnknownAt(meta, record, i);
        return Failure(UnknownField(record[i].0));
      }
      ValuesExtend(meta, record, i);
      sql := sql + QuoteValue(t.value, record[i].1) + ", ";
      i := i + 1;
    }
    assert record[..i] == record;
    return Success(sql);
  }

  /** The two cuts of the builder assemble exactly the INSERT text. */
  lemma InsertAssembled(name: string, meta: seq<Field>, record: seq<(string, string)>, mid: string)
    requires AllKnown(meta, record)
    requires mid == CutAtLastComma("INSERT INTO " + name + " (" + SuffixEach(Columns(record), ", ")) + ") " + "VALUES ("
    ensures InsertText(name, meta, record) == Success(CutAtLastComma(mid + SuffixEach(Values(meta, record), ", ")) + "); ")
  {
    if |record| > 0 {
      NonEmptyInsertAssembled(name, meta, record, mid);
    } else {
      var head := "INSERT INTO " + name + " (";
      assert head + SuffixEach(Columns(record), ", ") == head;
      assert ") " + "VALUES (" == ") VALUES (";
      assert mid + SuffixEach(Values(meta, record), ", ") == mid;
      assert mid == CutAtLastComma(head) + ") VALUES (";
      assert InsertText(name, meta, record) == Success(EmptyInsertText(name));
      assert EmptyInsertText(name) == CutAtLastComma(mid) + "); ";
    }
  }

  lemma NonEmptyInsertAssembled(name: string, meta: seq<Field>, record: seq<(string, string)>, mid: string)
    requires AllKnown(meta, record) && |record| > 0
    requires mid == CutAtLastComma("INSERT INTO " + name + " (" + SuffixEach(Columns(record), ", ")) + ") " + "VALUES ("
    ensures InsertText(name, meta, record) == Success(CutAtLastComma(mid + SuffixEach(Values(meta, record), ", ")) + "); ")
  {
    var head := "INSERT INTO " + name + " (";
    var cl := Join(Columns(record), ", ");
    var vl := Join(Values(meta, record), ", ");
    CutList(head, Columns(record));
    assert mid == head + cl + ") VALUES (";
    CutList(mid, Values(meta, record));
    assert CutAtLastComma(mid + SuffixEach(Values(meta, record), ", ")) == mid + vl;
  }

  /** A property without metadata after known ones is the first unknown property. */
  lemma FirstUnknownAt(meta: seq<Field>, record: seq<(string, string)>, i: nat)
    requires i < |record| && AllKnown(meta, record[..i]) && LookupType(meta, record[i].0).None?
    ensures !AllKnown(meta, record) && FirstUnknown(meta, record) == i
  {
    assert forall j :: 0 <= j < i ==> record[..i][j] == record[j];
  }

  /** One more known property extends the value list by its quoted value. */
  lemma ValuesExtend(meta: seq<Field>, record: seq<(string, string)>, i: nat)
    requires i < |record| && AllKnown(meta, record[..i]) && LookupType(meta, record[i].0).Some?
    ensures AllKnown(meta, record[..i + 1])
    ensures SuffixEach(Values(meta, record[..i + 1]), ", ")
         == SuffixEach(Values(meta, record[..i]), ", ") + QuoteValue(LookupType(meta, record[i].0).value, record[i].1) + ", "
  {
    assert record[..i + 1][..i] == record[..i];
    var vs := Values(meta, record[..i + 1]);
    assert vs[..i] == Values(meta, record[..i]);
  }

  /** The DELETE `del` issues: `DELETE FROM <name> WHERE ID=<id>;`. */
  function DeleteText(name: string, id: nat): string
  {
    "DELETE FROM " + name + " WHERE ID=" + NatToDecimal(id) + ";"
  }

  /** The statement for the record `Contact` with identity 7. */
  lemma DeleteContactSeven()
    ensures DeleteText("Contact", 7) == "DELETE FROM Contact WHERE ID=7;"
  {
    assert NatToDecimal(7) == "7";
  }

  /** Different identities give different DELETE statements on one table. */
  lemma DeleteTextInjective(name: string, a: nat, b: nat)
    requires DeleteText(name, a) == DeleteText(name, b)
    ensures a == b
  {
    var p := "DELETE FROM " + name + " WHERE ID=";
    var da, db := NatToDecimal(a), NatToDecimal(b);
    assert DeleteText(name, a) == p + da + ";";
    assert DeleteText(name, b) == p + db + ";";
    assert |da| == |db|;
    assert da == DeleteText(name, a)[|p|..|p| + |da|];
    assert db == DeleteText(name, b)[|p|..|p| + |db|];
    DecimalInjective(a, b);
  }

  /** The column part of `find`'s SELECT: the `obj.columns` if-chain. */
  function ColumnList(columns: Option<seq<string>>): string
  {
    match columns
    case None => "* "
    case Some(cs) => if |cs| > 1 then Join(cs, ", ") else if |cs| == 1 then cs[0] + " " else ""
  }

  /** `SELECT <columns> FROM <name>`, before the constraint. */
  function SelectHead(columns: Option<seq<string>>, name: string): string
  {
    "SELECT " + ColumnList(columns) + " FROM " + name
  }

  /**
   * The four forms of the SELECT head: `*` when no columns are given, the
   * single column followed by a space, several columns joined by `, ` (one
   * comma between neighbours, a comma-free column name per piece), and
   * nothing at all for an empty column array, which JavaScript treats as given.
   */
  lemma SelectHeadForms(columns: Option<seq<string>>, name: string)
    ensures columns.None? ==> SelectHead(columns, name) == "SELECT *  FROM " + name
    ensures columns.Some? && |columns.value| == 0 ==> SelectHead(columns, name) == "SELECT  FROM " + name
    ensures columns.Some? && |columns.value| == 1 ==>
      SelectHead(columns, name) == "SELECT " + columns.value[0] + "  FROM " + name
    ensures columns.Some? && |columns.value| > 1 ==>
      SelectHead(columns, name) == "SELECT " + Join(columns.value, ", ") + " FROM " + name
    ensures columns.Some? && |columns.value| > 1 && (forall i :: 0 <= i < |columns.value| ==> ',' !in columns.value[i]) ==>
      var pieces := SplitChar(ColumnList(columns), ',');
      && |pieces| == |columns.value| && pieces[0] == columns.value[0]
      && forall i :: 0 < i < |pieces| ==> pieces[i] == " " + columns.value[i]
  {
    if columns.Some? && |columns.value| > 1 && (forall i :: 0 <= i < |columns.value| ==> ',' !in columns.value[i]) {
      JoinCommaSplit(columns.value);
    }
  }

  /** A caller's constraint: a statement fragment and, optionally, its positional parameters. */
  datatype Constraint = Constraint(statement: string, parameters: Option<seq<string>>)

  /** A statement ready for `executeSql`: its text and its bound parameters. */
  datatype Query = Query(sql: string, params: seq<string>)

  /** The placeholder count as the source computes it: `statement.split("?").length - 1`. */
  function PlaceholderCount(statement: string): int
  {
    |SplitChar(statement, '?')| - 1
  }

  /**
   * The constraint rule of `find`, stated in terms of the number of `?` in
   * the fragment. With parameters, the fragment is appended and the
   * parameters bound exactly when that number equals their count, and the
   * call is rejected (None) otherwise. Without parameters, a fragment with no
   * `?` is appended verbatim and one with `?` is dropped.
   */
  function ApplyConstraint(head: string, constraint: Option<Constraint>): (r: Option<Query>)
    ensures constraint.None? ==> r == Some(Query(head, []))
    ensures constraint.Some? && constraint.value.parameters.Some? ==>
      (r.Some? <==> CountChar(constraint.value.statement, '?') == |constraint.value.parameters.value|)
    ensures constraint.Some? && constraint.value.parameters.Some? && r.Some? ==>
      r.value == Query(head + constraint.value.statement, constraint.value.parameters.value)
    ensures constraint.Some? && constraint.value.parameters.None? ==>
      r == Some(Query(if CountChar(constraint.value.statement, '?') == 0 then head + constraint.value.statement else head, []))
  {
    match constraint
    case None => Some(Query(head, []))
    case Some(c) =>
      SplitCount(c.statement, '?');
      var n := PlaceholderCount(c.statement);
      match c.parameters
      case Some(ps) => if n == |ps| then Some(Query(head + c.statement, ps)) else None
      case None => if n == 0 then Some(Query(head + c.statement, [])) else Some(Query(head, []))
  }

  /** The statement `find` runs, or None when the constraint is rejected. */
  function SelectStatement(name: string, columns: Option<seq<string>>, constraint: Option<Constraint>): Option<Query>
  {
    ApplyConstraint(SelectHead(columns, name), constraint)
  }

  /** One result row: column name to value. */
  type Row = map<string, string>

  /** A record made from a result row, carrying the state it was loaded with. */
  datatype LoadedRecord = LoadedRecord(row: Row, state: RecordState)

  /**
   * The row loop of `find`'s statement callback: one record per row, in row
   * order, each in state VALID.
   */
  method CollectRows(rows: seq<Row>) returns (result: seq<LoadedRecord>)
    ensures |result| == |rows|
    ensures forall i :: 0 <= i < |rows| ==> result[i] == LoadedRecord(rows[i], StateValid)
  {
    result := [];
    var i := 0;
    while i < |rows|
      invariant 0 <= i <= |rows|
      invariant |result| == i
      invariant forall j :: 0 <= j < i ==> result[j] == LoadedRecord(rows[j], StateValid)
    {
      result := result + [LoadedRecord(rows[i], StateValid)];
      i := i + 1;
    }
  }
}
