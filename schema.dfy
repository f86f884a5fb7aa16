/**
 * Schema translation of the WebSQL provider: the declared-type table, the
 * column clause built for one metadata field and the CREATE TABLE statement
 * built from a model's whole metadata.
 */
module Schema {
  import opened Wrappers
  import opened SqlText

  /** One entry of a model's `__meta`: the field name, its declared type and its required flag. */
  datatype Field = Field(name: string, typ: string, isRequired: bool)

  /** What a statement builder throws. */
  datatype BuildError =
    | UnmappedType(field: string, typ: string)  // typeMapping has no entry for the declared type
    | UnknownField(prop: string)                // a record property without metadata

  /** The declared types the provider knows. */
  const DeclaredTypes: set<string> := {"String", "Text", "Float", "Integer", "Date", "Boolean"}

  /** The provider's `typeMapping`: declared type to native column type. */
  function TypeMapping(typ: string): (r: Option<string>)
    ensures r.Some? <==> typ in DeclaredTypes
  {
    if typ == "String" then Some("varchar(255)")
    else if typ == "Text" then Some("text")
    else if typ == "Float" then Some("float")
    else if typ == "Integer" then Some("integer")
    else if typ == "Date" then Some("date")
    else if typ == "Boolean" then Some("boolean")
    else None
  }

  /** The column type keyword written into a column clause: the mapped type, upper-cased. */
  function ColumnType(typ: string): Option<string>
  {
    match TypeMapping(typ)
    case None => None
    case Some(t) => Some(ToUpper(t))
  }

  /** The six column type keywords. */
  lemma ColumnTypes()
    ensures ColumnType("String") == Some("VARCHAR(255)")
    ensures ColumnType("Text") == Some("TEXT")
    ensures ColumnType("Float") == Some("FLOAT")
    ensures ColumnType("Integer") == Some("INTEGER")
    ensures ColumnType("Date") == Some("DATE")
    ensures ColumnType("Boolean") == Some("BOOLEAN")
  {
    assert ToUpper("varchar(255)") == "VARCHAR(255)";
    assert ToUpper("text") == "TEXT";
    assert ToUpper("float") == "FLOAT";
    assert ToUpper("integer") == "INTEGER";
    assert ToUpper("date") == "DATE";
    assert ToUpper("boolean") == "BOOLEAN";
  }

  /**
   * What the round trip of a column clause needs of each keyword: it reads
   * back as its declared type, it does not itself end in ` NOT NULL`, and it
   * holds no comma.
   */
  lemma KeywordFacts(typ: string)
    requires typ in DeclaredTypes
    ensures ColumnType(typ).Some?
    ensures KeywordType(ColumnType(typ).value) == Some(typ)
    ensures var t := ColumnType(typ).value; !(|t| >= |NotNull| && t[|t| - |NotNull|..] == NotNull)
    ensures ',' !in ColumnType(typ).value
  {
    ColumnTypes();
    if typ == "String" {
      assert "VARCHAR(255)"[3..] == "CHAR(255)";
    }
  }

  /** The modifier a required field adds to its column clause. */
  const NotNull := " NOT NULL"

  /**
   * `buildDbAttrFromProp`: the field name, a space, the column type and
   * ` NOT NULL` for a required field. An unmapped declared type has no
   * column type; the source then calls `toUpperCase` on `undefined` and throws.
   */
  function BuildDbAttrFromProp(f: Field): (r: Result<string, BuildError>)
    ensures r.Failure? <==> f.typ !in DeclaredTypes
    ensures r.Failure? ==> r.error == UnmappedType(f.name, f.typ)
  {
    match ColumnType(f.typ)
    case None => Failure(UnmappedType(f.name, f.typ))
    case Some(t) => Success(f.name + " " + t + (if f.isRequired then NotNull else ""))
  }

  /** The declared type a column type keyword came from. */
  function KeywordType(kw: string): Option<string>
  {
    if kw == "VARCHAR(255)" then Some("String")
    else if kw == "TEXT" then Some("Text")
    else if kw == "FLOAT" then Some("Float")
    else if kw == "INTEGER" then Some("Integer")
    else if kw == "DATE" then Some("Date")
    else if kw == "BOOLEAN" then Some("Boolean")
    else None
  }

  /** Reads a column clause back: name up to the first space, type keyword, optional ` NOT NULL`. */
  function ParseColumnClause(s: string): Option<Field>
  {
    var k := IndexOf(s, ' ');
    if k < 0 then None
    else
      var rest := s[k + 1..];
      var required := |rest| >= |NotNull| && rest[|rest| - |NotNull|..] == NotNull;
      var kw := if required then rest[..|rest| - |NotNull|] else rest;
      match KeywordType(kw)
      case None => None
      case Some(typ) => Some(Field(s[..k], typ, required))
  }

  /**
   * A column clause determines its field: the name, the declared type (the
   * keyword is the mapping of exactly that type) and the required flag
   * (` NOT NULL` is present exactly when the field is required).
   */
  lemma ColumnClauseRoundTrip(f: Field)
    requires ' ' !in f.name
    requires f.typ in DeclaredTypes
    ensures ParseColumnClause(BuildDbAttrFromProp(f).value) == Some(f)
  {
    KeywordFacts(f.typ);
    var t := ColumnType(f.typ).value;
    var s := BuildDbAttrFromProp(f).value;
    var tail := t + (if f.isRequired then NotNull else "");
    assert s == f.name + [' '] + tail;
    assert s[|f.name|] == ' ';
    assert forall j :: 0 <= j < |f.name| ==> s[j] == f.name[j];
    var k := IndexOf(s, ' ');
    assert k == |f.name|;
    assert s[..k] == f.name;
    assert s[k + 1..] == tail;
    if f.isRequired {
      assert tail[|tail| - |NotNull|..] == NotNull;
      assert tail[..|tail| - |NotNull|] == t;
    } else {
      assert tail == t;
    }
  }

  /** Every field's declared type is in the table. */
  predicate AllMapped(fields: seq<Field>)
  {
    forall i :: 0 <= i < |fields| ==> fields[i].typ in DeclaredTypes
  }

  /** The position of the first field with an unmapped declared type. */
  function FirstUnmapped(fields: seq<Field>): (k: nat)
    requires !AllMapped(fields)
    ensures k < |fields| && fields[k].typ !in DeclaredTypes
    ensures forall j :: 0 <= j < k ==> fields[j].typ in DeclaredTypes
  {
    if fields[0].typ !in DeclaredTypes then 0 else 1 + FirstUnmapped(fields[1..])
  }

  /** The column clauses of fully mapped metadata, field by field in iteration order. */
  function Clauses(fields: seq<Field>): (cs: seq<string>)
    requires AllMapped(fields)
    ensures |cs| == |fields|
    ensures forall i :: 0 <= i < |fields| ==> BuildDbAttrFromProp(fields[i]) == Success(cs[i])
  {
    seq(|fields|, i requires 0 <= i < |fields| => BuildDbAttrFromProp(fields[i]).value)
  }

  /** `sep + x` for every element, in order. */
  function PrefixEach(xs: seq<string>, sep: string): string
  {
    if |xs| == 0 then "" else PrefixEach(xs[..|xs| - 1], sep) + sep + xs[|xs| - 1]
  }

  /** A separator in front of every element is one separator in front of the join. */
  lemma {:induction false} PrefixEachJoin(xs: seq<string>, sep: string)
    ensures PrefixEach(xs, sep) == if |xs| == 0 then "" else sep + Join(xs, sep)
  {
    if |xs| > 1 {
      var init, last := xs[..|xs| - 1], xs[|xs| - 1];
      PrefixEachJoin(init, sep);
      JoinSnoc(init, last, sep);
      assert init + [last] == xs;
      calc {
        PrefixEach(xs, sep);
        PrefixEach(init, sep) + sep + last;
        (sep + Join(init, sep)) + sep + last;
        sep + (Join(init, sep) + sep + last);
        sep + Join(xs, sep);
      }
    } else if |xs| == 1 {
      assert xs[..0] == [];
    }
  }

  /** Joining with one more element at the end appends the separator and the element. */
  lemma {:induction false} JoinSnoc(xs: seq<string>, y: string, sep: string)
    requires |xs| >= 1
    ensures Join(xs + [y], sep) == Join(xs, sep) + sep + y
  {
    if |xs| == 1 {
      assert (xs + [y])[1..] == [y];
    } else {
      assert (xs + [y])[1..] == xs[1..] + [y];
      JoinSnoc(xs[1..], y, sep);
    }
  }

  const CreateHead := "CREATE TABLE IF NOT EXISTS "
  /** The engine-generated primary key column that opens every column list. */
  const IdColumn := " (ID INTEGER PRIMARY KEY ASC AUTOINCREMENT UNIQUE"

  /**
   * The statement `createTable` builds for a model: the head, the ID
   * column, `, <clause>` for every metadata field in iteration order, `);`.
   * The first field with an unmapped type makes the builder throw.
   */
  function CreateTableText(name: string, fields: seq<Field>): (r: Result<string, BuildError>)
    ensures r.Failure? <==> exists i :: 0 <= i < |fields| && fields[i].typ !in DeclaredTypes
  {
    if !AllMapped(fields) then
      var k := FirstUnmapped(fields);
      Failure(UnmappedType(fields[k].name, fields[k].typ))
    else
      Success(CreateHead + name + IdColumn + PrefixEach(Clauses(fields), ", ") + ");")
  }

  /** Clauses of comma-free field names contain no comma: the keywords have none. */
  lemma ClausesCommaFree(fields: seq<Field>)
    requires AllMapped(fields)
    requires forall i :: 0 <= i < |fields| ==> ',' !in fields[i].name
    ensures forall i :: 0 <= i < |fields| ==> ',' !in Clauses(fields)[i]
  {
    forall i | 0 <= i < |fields|
      ensures ',' !in Clauses(fields)[i]
    {
      var f := fields[i];
      KeywordFacts(f.typ);
      assert Clauses(fields)[i] == f.name + " " + ColumnType(f.typ).value + (if f.isRequired then NotNull else "");
    }
  }

  /**
   * The CREATE statement in join form: with no fields only the ID column;
   * otherwise the ID column, `, ` and exactly the fields' clauses joined by
   * `, `, so that splitting that list at its commas (names without commas)
   * gives one piece per field, in order.
   */
  lemma CreateTableColumns(name: string, fields: seq<Field>)
    requires AllMapped(fields)
    requires forall i :: 0 <= i < |fields| ==> ',' !in fields[i].name
    ensures |fields| == 0 ==> CreateTableText(name, fields) == Success(CreateHead + name + IdColumn + ");")
    ensures |fields| > 0 ==>
      var cs := Clauses(fields);
      && CreateTableText(name, fields) == Success(CreateHead + name + IdColumn + ", " + Join(cs, ", ") + ");")
      && |SplitChar(Join(cs, ", "), ',')| == |fields|
      && SplitChar(Join(cs, ", "), ',')[0] == cs[0]
      && forall i :: 0 < i < |fields| ==> SplitChar(Join(cs, ", "), ',')[i] == " " + cs[i]
  {
    var cs := Clauses(fields);
    var head := CreateHead + name + IdColumn;
    PrefixEachJoin(cs, ", ");
    if |fields| == 0 {
      assert head + PrefixEach(cs, ", ") == head;
    } else {
      assert head + PrefixEach(cs, ", ") + ");" == head + ", " + Join(cs, ", ") + ");";
      ClausesCommaFree(fields);
      JoinCommaSplit(cs);
    }
  }

  /** An unmapped field after mapped ones is the first unmapped field. */
  lemma FirstUnmappedAt(fields: seq<Field>, i: nat)
    requires i < |fields| && AllMapped(fields[..i]) && fields[i].typ !in DeclaredTypes
    ensures !AllMapped(fields) && FirstUnmapped(fields) == i
  {
    assert forall j :: 0 <= j < i ==> fields[..i][j] == fields[j];
  }

  /** One more mapped field adds `, ` and its clause to the column list built so far. */
  lemma ClausesExtend(fields: seq<Field>, i: nat)
    requires i < |fields| && AllMapped(fields[..i]) && fields[i].typ in DeclaredTypes
    ensures AllMapped(fields[..i + 1])
    ensures PrefixEach(Clauses(fields[..i + 1]), ", ")
         == PrefixEach(Clauses(fields[..i]), ", ") + ", " + BuildDbAttrFromProp(fields[i]).value
  {
    assert fields[..i + 1][..i] == fields[..i];
    assert Clauses(fields[..i + 1])[..i] == Clauses(fields[..i]);
  }

  /**
   * `createTable`'s text, built as the source builds it: `sql +=` one
   * `, <clause>` per field inside the loop over the metadata.
   */
  method BuildCreateTable(name: string, fields: seq<Field>) returns (r: Result<string, BuildError>)
    ensures r == CreateTableText(name, fields)
  {
    var sql := CreateHead + name + IdColumn;
    var i := 0;
    while i < |fields|
      invariant 0 <= i <= |fields|
      invariant AllMapped(fields[..i])
      invariant sql == CreateHead + name + IdColumn + PrefixEach(Clauses(fields[..i]), ", ")
    {
      var attr := BuildDbAttrFromProp(fields[i]);
      if attr.Failure? {
        FirstUnmappedAt(fields, i);
        return Failure(attr.error);
      }
      ClausesExtend(fields, i);
      sql := sql + ", " + attr.value;
      i := i + 1;
    }
    assert fields[..i] == fields;
    sql := sql + ");";
    return Success(sql);
  }
}
