/** SPARQL results as JSON: what a table of terms is written as, and what is read back from it. */
module SparqlResults {
  import opened Wrappers
  import opened Json

  datatype Term =
    | Iri(text: string)
    | Blank(name: string)
    | Literal(value: string, kind: Option<string>, lang: Option<string>)

  /** Cells hold the surface text of a term; parsing it is the term parser's business. */
  type ParseTerm = string -> Option<Term>

  datatype Table = Table(vars: seq<string>, rows: seq<seq<Option<string>>>)

  /** No row has more cells than there are variables. */
  ghost predicate Shaped(t: Table) {
    forall r :: r in t.rows ==> |r| <= |t.vars|
  }

  // ------------------------------------------------------------------------- writing

  function TypedJson(kind: string, value: string): Json {
    Obj([Field("type", Str(kind)), Field("value", Str(value))])
  }

  function TaggedJson(value: string, tag: string, text: string): Json {
    Obj([Field("type", Str("literal")), Field("value", Str(value)), Field(tag, Str(text))])
  }

  /** One cell; a language tag hides a datatype, and unparsable text is a plain literal. */
  function CellJson(parse: ParseTerm, cell: string): Json {
    match parse(cell)
    case Some(Iri(s)) => TypedJson("uri", s)
    case Some(Blank(l)) => TypedJson("bnode", l)
    case Some(Literal(v, dt, lang)) =>
      if lang.Some? then TaggedJson(v, "xml:lang", lang.value)
      else if dt.Some? then TaggedJson(v, "datatype", dt.value)
      else TypedJson("literal", v)
    case None => TypedJson("literal", cell)
  }

  function RowFields(parse: ParseTerm, vars: seq<string>, row: seq<Option<string>>): seq<Field>
    requires |row| <= |vars|
  {
    if row == [] then []
    else
      var rest := RowFields(parse, vars, row[..|row| - 1]);
      match row[|row| - 1]
      case None => rest
      case Some(cell) => rest + [Field(vars[|row| - 1], CellJson(parse, cell))]
  }

  function RowJson(parse: ParseTerm, vars: seq<string>, row: seq<Option<string>>): Json
    requires |row| <= |vars|
  {
    Obj(RowFields(parse, vars, row))
  }

  function RowsJson(parse: ParseTerm, vars: seq<string>, rows: seq<seq<Option<string>>>): seq<Json>
    requires forall r :: r in rows ==> |r| <= |vars|
  {
    seq(|rows|, i requires 0 <= i < |rows| => RowJson(parse, vars, rows[i]))
  }

  function VarsJson(vars: seq<string>): seq<Json> {
    seq(|vars|, i requires 0 <= i < |vars| => Str(vars[i]))
  }

  function TableJson(parse: ParseTerm, t: Table): Json
    requires Shaped(t)
  {
    Obj([Field("head", Obj([Field("vars", Arr(VarsJson(t.vars)))])),
         Field("results", Obj([Field("bindings", Arr(RowsJson(parse, t.vars, t.rows)))]))])
  }

  // ------------------------------------------------------------------------- reading

  /** The first field with this key. */
  function Find(fields: seq<Field>, key: string): Option<Json> {
    if fields == [] then None
    else if fields[0].key == key then Some(fields[0].value)
    else Find(fields[1..], key)
  }

  function Get(j: Json, key: string): Option<Json> {
    if j.Obj? then Find(j.fields, key) else None
  }

  function GetText(j: Json, key: string): Option<string> {
    match Get(j, key)
    case Some(Str(s)) => Some(s)
    case _ => None
  }

  function TermOf(j: Json): Result<Term> {
    var kind := GetText(j, "type");
    var value := GetText(j, "value");
    if kind.None? || value.None? then Err
    else if kind.value == "uri" then Ok(Iri(value.value))
    else if kind.value == "bnode" then Ok(Blank(value.value))
    else Ok(Literal(value.value, GetText(j, "datatype"), GetText(j, "xml:lang")))
  }

  type Solution = seq<(string, Term)>

  function SolutionOf(fields: seq<Field>): Result<Solution> {
    if fields == [] then Ok([])
    else
      var rest :- SolutionOf(fields[..|fields| - 1]);
      var t :- TermOf(fields[|fields| - 1].value);
      Ok(rest + [(fields[|fields| - 1].key, t)])
  }

  function SolutionsOf(rows: seq<Json>): Result<seq<Solution>> {
    if rows == [] then Ok([])
    else
      var rest :- SolutionsOf(rows[..|rows| - 1]);
      if !rows[|rows| - 1].Obj? then Err else
      var s :- SolutionOf(rows[|rows| - 1].fields);
      Ok(rest + [s])
  }

  function ReadResults(num: IsNumber, body: string): Result<seq<Solution>> {
    var j :- Parse(num, body);
    match Get(j, "results")
    case None => Err
    case Some(r) =>
      match Get(r, "bindings")
      case Some(Arr(rows)) => SolutionsOf(rows)
      case _ => Err
  }

  // ---------------------------------------------------------------- what is read back

  /** The term a cell is read back as. */
  function Shown(parse: ParseTerm, cell: string): Term {
    match parse(cell)
    case Some(Literal(v, dt, Some(l))) => Literal(v, None, Some(l))
    case Some(t) => t
    case None => Literal(cell, None, None)
  }

  /** The term a cell stands for; text that is no term stands for itself. */
  function Meant(parse: ParseTerm, cell: string): Term {
    match parse(cell)
    case Some(t) => t
    case None => Literal(cell, None, None)
  }

  /** The cell's term carries both a language and a datatype. */
  predicate Overloaded(parse: ParseTerm, cell: string) {
    var t := parse(cell);
    t.Some? && t.value.Literal? && t.value.lang.Some? && t.value.kind.Some?
  }

  /** A cell's term is read back as it was exactly when it does not carry both a language and a
      datatype. */
  lemma ShownIsSame(parse: ParseTerm, cell: string)
    ensures Shown(parse, cell) == Meant(parse, cell) <==> !Overloaded(parse, cell)
  {
  }

  function ShownRow(parse: ParseTerm, vars: seq<string>, row: seq<Option<string>>): Solution
    requires |row| <= |vars|
  {
    if row == [] then []
    else
      var rest := ShownRow(parse, vars, row[..|row| - 1]);
      match row[|row| - 1]
      case None => rest
      case Some(cell) => rest + [(vars[|row| - 1], Shown(parse, cell))]
  }

  function ShownRows(parse: ParseTerm, vars: seq<string>, rows: seq<seq<Option<string>>>): seq<Solution>
    requires forall r :: r in rows ==> |r| <= |vars|
  {
    if rows == [] then []
    else ShownRows(parse, vars, rows[..|rows| - 1]) + [ShownRow(parse, vars, rows[|rows| - 1])]
  }

  lemma Two(a: Field, b: Field, key: string)
    ensures Find([a, b], key) == if a.key == key then Some(a.value) else if b.key == key then Some(b.value) else None
  {
    assert [a, b][1..] == [b] && [b][1..] == [];
    assert Find([b], key) == if b.key == key then Some(b.value) else None;
  }

  lemma Three(a: Field, b: Field, c: Field, key: string)
    ensures Find([a, b, c], key)
            == if a.key == key then Some(a.value) else if b.key == key then Some(b.value)
               else if c.key == key then Some(c.value) else None
  {
    assert [a, b, c][1..] == [b, c];
    Two(b, c, key);
  }

  lemma Keys()
    ensures "type" != "value" && "type" != "xml:lang" && "type" != "datatype" && "value" != "xml:lang"
    ensures "value" != "datatype" && "xml:lang" != "datatype" && "uri" != "bnode" && "uri" != "literal"
    ensures "bnode" != "literal" && "head" != "results"
  {
    assert "type"[0] == 't' && "value"[0] == 'v' && "xml:lang"[0] == 'x' && "datatype"[0] == 'd';
    assert "uri"[0] == 'u' && "bnode"[0] == 'b' && "literal"[0] == 'l' && "head"[0] == 'h' && "results"[0] == 'r';
  }

  lemma TypedReads(kind: string, value: string)
    requires kind == "uri" || kind == "bnode" || kind == "literal"
    ensures TermOf(TypedJson(kind, value))
            == Ok(if kind == "uri" then Iri(value)
                  else if kind == "bnode" then Blank(value)
                  else Literal(value, None, None))
  {
    hide Find;
    Keys();
    var a, b := Field("type", Str(kind)), Field("value", Str(value));
    Two(a, b, "type");
    Two(a, b, "value");
    Two(a, b, "datatype");
    Two(a, b, "xml:lang");
  }

  lemma TaggedReads(value: string, tag: string, text: string)
    requires tag == "datatype" || tag == "xml:lang"
    ensures TermOf(TaggedJson(value, tag, text))
            == Ok(if tag == "datatype" then Literal(value, Some(text), None) else Literal(value, None, Some(text)))
  {
    hide Find;
    Keys();
    var a, b, c := Field("type", Str("literal")), Field("value", Str(value)), Field(tag, Str(text));
    Three(a, b, c, "type");
    Three(a, b, c, "value");
    Three(a, b, c, "datatype");
    Three(a, b, c, "xml:lang");
  }

  lemma CellReads(parse: ParseTerm, cell: string)
    ensures TermOf(CellJson(parse, cell)) == Ok(Shown(parse, cell))
  {
    hide TermOf;
    hide TypedJson;
    hide TaggedJson;
    match parse(cell)
    case Some(Iri(s)) => TypedReads("uri", s);
    case Some(Blank(l)) => TypedReads("bnode", l);
    case Some(Literal(v, dt, lang)) =>
      if lang.Some? {
        TaggedReads(v, "xml:lang", lang.value);
      } else if dt.Some? {
        TaggedReads(v, "datatype", dt.value);
      } else {
        TypedReads("literal", v);
      }
    case None => TypedReads("literal", cell);
  }

  lemma {:induction false} RowReads(parse: ParseTerm, vars: seq<string>, row: seq<Option<string>>)
    requires |row| <= |vars|
    ensures SolutionOf(RowFields(parse, vars, row)) == Ok(ShownRow(parse, vars, row))
  {
    hide TermOf;
    hide CellJson;
    hide Shown;
    if row != [] {
      RowReads(parse, vars, row[..|row| - 1]);
      match row[|row| - 1]
      case None =>
      case Some(cell) =>
        CellReads(parse, cell);
        var fields := RowFields(parse, vars, row);
        assert fields[..|fields| - 1] == RowFields(parse, vars, row[..|row| - 1]);
    }
  }

  lemma {:induction false} RowsRead(parse: ParseTerm, vars: seq<string>, rows: seq<seq<Option<string>>>)
    requires forall r :: r in rows ==> |r| <= |vars|
    ensures SolutionsOf(RowsJson(parse, vars, rows)) == Ok(ShownRows(parse, vars, rows))
  {
    hide SolutionOf;
    hide RowFields;
    hide ShownRow;
    if rows != [] {
      var init := rows[..|rows| - 1];
      RowsRead(parse, vars, init);
      var all := RowsJson(parse, vars, rows);
      assert all[..|all| - 1] == RowsJson(parse, vars, init);
      RowReads(parse, vars, rows[|rows| - 1]);
    }
  }

  // --------------------------------------------------------------- the whole round trip

  lemma CellReadable(num: IsNumber, parse: ParseTerm, cell: string)
    ensures Readable(num, CellJson(parse, cell))
  {
  }

  lemma {:induction false} RowReadable(num: IsNumber, parse: ParseTerm, vars: seq<string>, row: seq<Option<string>>)
    requires |row| <= |vars|
    ensures forall i :: 0 <= i < |RowFields(parse, vars, row)| ==> Readable(num, RowFields(parse, vars, row)[i].value)
  {
    hide CellJson;
    hide Readable;
    if row != [] {
      RowReadable(num, parse, vars, row[..|row| - 1]);
      if row[|row| - 1].Some? {
        CellReadable(num, parse, row[|row| - 1].value);
      }
    }
  }

  lemma TableReadable(num: IsNumber, parse: ParseTerm, t: Table)
    requires Shaped(t)
    ensures Readable(num, TableJson(parse, t))
  {
    hide RowFields;
    var rows := RowsJson(parse, t.vars, t.rows);
    forall i | 0 <= i < |rows|
      ensures Readable(num, rows[i])
    {
      assert t.rows[i] in t.rows;
      RowReadable(num, parse, t.vars, t.rows[i]);
    }
    assert Readable(num, Arr(rows));
    var vars := VarsJson(t.vars);
    assert Readable(num, Arr(vars));
    assert Readable(num, Obj([Field("vars", Arr(vars))]));
    assert Readable(num, Obj([Field("bindings", Arr(rows))]));
  }

  lemma TableFinds(parse: ParseTerm, t: Table)
    requires Shaped(t)
    ensures var r := Get(TableJson(parse, t), "results");
            r.Some? && Get(r.value, "bindings") == Some(Arr(RowsJson(parse, t.vars, t.rows)))
  {
    Keys();
    hide Find;
    Two(Field("head", Obj([Field("vars", Arr(VarsJson(t.vars)))])),
        Field("results", Obj([Field("bindings", Arr(RowsJson(parse, t.vars, t.rows)))])), "results");
    One(Field("bindings", Arr(RowsJson(parse, t.vars, t.rows))));
  }

  lemma One(f: Field)
    ensures Find([f], f.key) == Some(f.value)
  {
  }

  /** Reading a written table gives, row by row and in order, the bound variables with the terms of
      their cells, whatever characters they contain. */
  lemma ResultsRoundTrip(num: IsNumber, parse: ParseTerm, t: Table)
    requires Shaped(t)
    ensures ReadResults(num, Render(TableJson(parse, t))) == Ok(ShownRows(parse, t.vars, t.rows))
  {
    hide Render;
    hide Parse;
    hide TableJson;
    hide SolutionsOf;
    TableReadable(num, parse, t);
    ParseRender(num, TableJson(parse, t));
    TableFinds(parse, t);
    RowsRead(parse, t.vars, t.rows);
  }

  // ---------------------------------------------------------- when nothing is lost at all

  /** The bound variables of a row with the terms their cells stand for. */
  function MeantRow(parse: ParseTerm, vars: seq<string>, row: seq<Option<string>>): Solution
    requires |row| <= |vars|
  {
    if row == [] then []
    else
      var rest := MeantRow(parse, vars, row[..|row| - 1]);
      match row[|row| - 1]
      case None => rest
      case Some(cell) => rest + [(vars[|row| - 1], Meant(parse, cell))]
  }

  function MeantRows(parse: ParseTerm, vars: seq<string>, rows: seq<seq<Option<string>>>): seq<Solution>
    requires forall r :: r in rows ==> |r| <= |vars|
  {
    if rows == [] then []
    else MeantRows(parse, vars, rows[..|rows| - 1]) + [MeantRow(parse, vars, rows[|rows| - 1])]
  }

  predicate RowLosesNothing(parse: ParseTerm, row: seq<Option<string>>) {
    forall i :: 0 <= i < |row| && row[i].Some? ==> !Overloaded(parse, row[i].value)
  }

  lemma {:induction false} RowSame(parse: ParseTerm, vars: seq<string>, row: seq<Option<string>>)
    requires |row| <= |vars|
    ensures |ShownRow(parse, vars, row)| == |MeantRow(parse, vars, row)|
    ensures ShownRow(parse, vars, row) == MeantRow(parse, vars, row) <==> RowLosesNothing(parse, row)
  {
    hide Shown;
    hide Meant;
    hide Overloaded;
    if row != [] {
      var init, last := row[..|row| - 1], row[|row| - 1];
      RowSame(parse, vars, init);
      var a, b := ShownRow(parse, vars, row), MeantRow(parse, vars, row);
      if last.Some? {
        ShownIsSame(parse, last.value);
        assert a[..|a| - 1] == ShownRow(parse, vars, init) && b[..|b| - 1] == MeantRow(parse, vars, init);
        assert a[|a| - 1].1 == Shown(parse, last.value) && b[|b| - 1].1 == Meant(parse, last.value);
      }
      RowLast(parse, row);
    }
  }

  lemma RowLast(parse: ParseTerm, row: seq<Option<string>>)
    requires row != []
    ensures RowLosesNothing(parse, row) <==>
              && RowLosesNothing(parse, row[..|row| - 1])
              && (row[|row| - 1].Some? ==> !Overloaded(parse, row[|row| - 1].value))
  {
    hide Overloaded;
    var init := row[..|row| - 1];
    if RowLosesNothing(parse, row) {
      assert forall i :: 0 <= i < |init| ==> init[i] == row[i];
    } else {
      assert forall i :: 0 <= i < |init| ==> row[i] == init[i];
    }
  }

  predicate TableLosesNothing(parse: ParseTerm, rows: seq<seq<Option<string>>>) {
    forall i {:trigger rows[i]} :: 0 <= i < |rows| ==> RowLosesNothing(parse, rows[i])
  }

  lemma {:induction false} RowsSame(parse: ParseTerm, vars: seq<string>, rows: seq<seq<Option<string>>>)
    requires forall r :: r in rows ==> |r| <= |vars|
    ensures |ShownRows(parse, vars, rows)| == |MeantRows(parse, vars, rows)| == |rows|
    ensures ShownRows(parse, vars, rows) == MeantRows(parse, vars, rows) <==> TableLosesNothing(parse, rows)
  {
    hide ShownRow;
    hide MeantRow;
    hide RowLosesNothing;
    if rows != [] {
      var init, last := rows[..|rows| - 1], rows[|rows| - 1];
      RowsSame(parse, vars, init);
      RowSame(parse, vars, last);
      var a, b := ShownRows(parse, vars, rows), MeantRows(parse, vars, rows);
      assert a[..|a| - 1] == ShownRows(parse, vars, init) && b[..|b| - 1] == MeantRows(parse, vars, init);
      assert a[|a| - 1] == ShownRow(parse, vars, last) && b[|b| - 1] == MeantRow(parse, vars, last);
      assert forall i :: 0 <= i < |init| ==> rows[i] == init[i];
    }
  }

  /** Reading a written table gives exactly the bound variables with the terms their cells stand for if
      and only if no cell's term carries both a language and a datatype. */
  lemma ResultsLossless(num: IsNumber, parse: ParseTerm, t: Table)
    requires Shaped(t)
    ensures ReadResults(num, Render(TableJson(parse, t))) == Ok(MeantRows(parse, t.vars, t.rows))
            <==> TableLosesNothing(parse, t.rows)
  {
    hide Render;
    hide ReadResults;
    hide TableJson;
    hide TableLosesNothing;
    hide ShownRows;
    hide MeantRows;
    ResultsRoundTrip(num, parse, t);
    RowsSame(parse, t.vars, t.rows);
  }
}
