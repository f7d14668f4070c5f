/** The results writer and the reader as written: loops that push onto text, and a parser that moves a
    cursor over the characters. */
module SparqlJson {
  import opened Wrappers
  import opened Json
  import opened SparqlResults

  // ------------------------------------------------------------------------- writing

  lemma {:induction false} EscapedMore(s: string, c: char)
    ensures Escaped(s + [c]) == Escaped(s) + Escape(c)
  {
    hide Escape;
    if s == "" {
      assert s + [c] == [c];
      assert [c][1..] == "";
    } else {
      EscapedMore(s[1..], c);
      assert (s + [c])[1..] == s[1..] + [c];
    }
  }

  /** Quote and escape a string. */
  method WriteString(s: string) returns (out: string)
    ensures out == Quoted(s)
  {
    hide Escape;
    out := ['"'];
    for i := 0 to |s|
      invariant out == ['"'] + Escaped(s[..i])
    {
      assert s[..i + 1] == s[..i] + [s[i]];
      EscapedMore(s[..i], s[i]);
      var e := WriteChar(s[i]);
      out := out + e;
    }
    assert s[..|s|] == s;
    out := out + ['"'];
  }

  method WriteChar(c: char) returns (out: string)
    ensures out == Escape(c)
  {
    match c
    case '"' => out := "\\\"";
    case '\\' => out := "\\\\";
    case '\n' => out := "\\n";
    case '\r' => out := "\\r";
    case '\t' => out := "\\t";
    case _ =>
      if c < ' ' {
        out := ['\\', 'u', '0', '0', HexDigit(c as int / 16), HexDigit(c as int % 16)];
      } else {
        out := [c];
      }
  }

  lemma {:induction false} ItemsMore(items: seq<Json>, j: Json)
    ensures RenderItems(items + [j]) == if items == [] then Render(j) else RenderItems(items) + ([','] + Render(j))
  {
    hide Render;
    var all := items + [j];
    if |items| == 1 {
      assert all[1..] == [j];
    } else if |items| > 1 {
      ItemsMore(items[1..], j);
      assert all[1..] == items[1..] + [j];
      assert Render(items[0]) + ([','] + (RenderItems(items[1..]) + ([','] + Render(j))))
          == RenderItems(items) + ([','] + Render(j));
    }
  }

  lemma {:induction false} FieldsMore(fields: seq<Field>, f: Field)
    ensures RenderFields(fields + [f]) == if fields == [] then RenderField(f)
        else RenderFields(fields) + ([','] + RenderField(f))
  {
    hide RenderField;
    var all := fields + [f];
    if |fields| == 1 {
      assert all[1..] == [f];
    } else if |fields| > 1 {
      FieldsMore(fields[1..], f);
      assert all[1..] == fields[1..] + [f];
      assert RenderField(fields[0]) + ([','] + (RenderFields(fields[1..]) + ([','] + RenderField(f))))
          == RenderFields(fields) + ([','] + RenderField(f));
    }
  }

  /** Text without special characters is its own escaped form. */
  lemma {:induction false} NothingToEscape(s: string)
    requires forall i :: 0 <= i < |s| ==> s[i] >= ' ' && s[i] != '"' && s[i] != '\\'
    ensures Escaped(s) == s
  {
    if s != "" {
      NothingToEscape(s[1..]);
      assert s == [s[0]] + s[1..];
    }
  }

  lemma PlainQuote(s: string)
    requires forall i :: 0 <= i < |s| ==> s[i] >= ' ' && s[i] != '"' && s[i] != '\\'
    ensures Quoted(s) == ['"'] + s + ['"']
  {
    NothingToEscape(s);
  }

  lemma CellKeys()
    ensures Quoted("type") == "\"type\"" && Quoted("value") == "\"value\"" && Quoted("xml:lang") == "\"xml:lang\""
    ensures Quoted("datatype") == "\"datatype\"" && Quoted("uri") == "\"uri\"" && Quoted("bnode") == "\"bnode\""
    ensures Quoted("literal") == "\"literal\""
  {
    hide Quoted;
    PlainQuote("type");
    PlainQuote("value");
    PlainQuote("xml:lang");
    PlainQuote("datatype");
    PlainQuote("uri");
    PlainQuote("bnode");
    PlainQuote("literal");
  }

  lemma TableKeys()
    ensures Quoted("head") == "\"head\"" && Quoted("vars") == "\"vars\""
    ensures Quoted("results") == "\"results\"" && Quoted("bindings") == "\"bindings\""
  {
    hide Quoted;
    PlainQuote("head");
    PlainQuote("vars");
    PlainQuote("results");
    PlainQuote("bindings");
  }

  lemma TwoFields(a: Field, b: Field)
    ensures RenderFields([a, b]) == RenderField(a) + ([','] + RenderField(b))
  {
    hide RenderField;
    assert [a, b][1..] == [b];
  }

  lemma ThreeFields(a: Field, b: Field, c: Field)
    ensures RenderFields([a, b, c]) == RenderField(a) + ([','] + (RenderField(b) + ([','] + RenderField(c))))
  {
    hide RenderField;
    assert [a, b, c][1..] == [b, c];
    TwoFields(b, c);
  }

  method WriteTyped(kind: string, value: string) returns (out: string)
    requires Quoted("type") == "\"type\"" && Quoted("value") == "\"value\"" && Quoted(kind) == ['"'] + kind + ['"']
    ensures out == Render(TypedJson(kind, value))
  {
    hide Quoted;
    hide RenderFields;
    var q := WriteString(value);
    TwoFields(Field("type", Str(kind)), Field("value", Str(value)));
    out := "{\"type\":\"" + kind + "\",\"value\":" + q + "}";
  }

  method WriteTagged(value: string, tag: string, text: string) returns (out: string)
    requires Quoted("type") == "\"type\"" && Quoted("value") == "\"value\"" && Quoted("literal") == "\"literal\""
    requires Quoted(tag) == ['"'] + tag + ['"']
    ensures out == Render(TaggedJson(value, tag, text))
  {
    hide Quoted;
    hide RenderFields;
    var q := WriteString(value);
    var r := WriteString(text);
    ThreeFields(Field("type", Str("literal")), Field("value", Str(value)), Field(tag, Str(text)));
    out := "{\"type\":\"literal\",\"value\":" + q + ",\"" + tag + "\":" + r + "}";
  }

  /** One cell as a JSON object. */
  method WriteCell(parse: ParseTerm, cell: string) returns (out: string)
    ensures out == Render(CellJson(parse, cell))
  {
    hide Quoted;
    hide Render;
    CellKeys();
    match parse(cell)
    case Some(Iri(s)) => out := WriteTyped("uri", s);
    case Some(Blank(l)) => out := WriteTyped("bnode", l);
    case Some(Literal(v, dt, lang)) =>
      if lang.Some? {
        out := WriteTagged(v, "xml:lang", lang.value);
      } else if dt.Some? {
        out := WriteTagged(v, "datatype", dt.value);
      } else {
        out := WriteTyped("literal", v);
      }
    case None => out := WriteTyped("literal", cell);
  }

  /** One row: its bound cells, unbound ones left out. */
  method WriteRow(parse: ParseTerm, vars: seq<string>, row: seq<Option<string>>) returns (out: string)
    requires |row| <= |vars|
    ensures out == Render(RowJson(parse, vars, row))
  {
    hide Quoted;
    hide CellJson;
    hide RenderFields;
    out := ['{'];
    var first := true;
    NoFields();
    for i := 0 to |row|
      invariant out == ['{'] + RenderFields(RowFields(parse, vars, row[..i]))
      invariant first <==> RowFields(parse, vars, row[..i]) == []
    {
      assert row[..i + 1][..i] == row[..i];
      if row[i].Some? {
        ghost var fields := RowFields(parse, vars, row[..i]);
        FieldsMore(fields, Field(vars[i], CellJson(parse, row[i].value)));
        if !first {
          out := out + [','];
        }
        first := false;
        var k := WriteString(vars[i]);
        var c := WriteCell(parse, row[i].value);
        out := out + k + [':'] + c;
      }
    }
    assert row[..|row|] == row;
    out := out + ['}'];
  }

  method WriteVars(vars: seq<string>) returns (out: string)
    ensures out == RenderItems(VarsJson(vars))
  {
    hide Quoted;
    hide RenderItems;
    out := "";
    NoItems();
    assert VarsJson(vars[..0]) == [];
    for i := 0 to |vars|
      invariant out == RenderItems(VarsJson(vars[..i]))
    {
      assert VarsJson(vars[..i + 1]) == VarsJson(vars[..i]) + [Str(vars[i])];
      ItemsMore(VarsJson(vars[..i]), Str(vars[i]));
      if i > 0 {
        out := out + [','];
      }
      var q := WriteString(vars[i]);
      out := out + q;
    }
    assert vars[..|vars|] == vars;
  }

  method WriteRows(parse: ParseTerm, vars: seq<string>, rows: seq<seq<Option<string>>>) returns (out: string)
    requires forall r :: r in rows ==> |r| <= |vars|
    ensures out == RenderItems(RowsJson(parse, vars, rows))
  {
    hide RenderItems;
    hide Render;
    hide RowJson;
    out := "";
    NoItems();
    assert RowsJson(parse, vars, rows[..0]) == [];
    for i := 0 to |rows|
      invariant out == RenderItems(RowsJson(parse, vars, rows[..i]))
    {
      assert RowsJson(parse, vars, rows[..i + 1]) == RowsJson(parse, vars, rows[..i]) + [RowJson(parse, vars, rows[i])];
      ItemsMore(RowsJson(parse, vars, rows[..i]), RowJson(parse, vars, rows[i]));
      if i > 0 {
        out := out + [','];
      }
      var r := WriteRow(parse, vars, rows[i]);
      out := out + r;
    }
    assert rows[..|rows|] == rows;
  }

  /** An object with one list. */
  lemma ListText(key: string, items: seq<Json>)
    ensures Render(Obj([Field(key, Arr(items))])) == "{" + Quoted(key) + ":[" + RenderItems(items) + "]}"
  {
    hide Quoted;
    hide RenderItems;
    var f := Field(key, Arr(items));
    assert RenderFields([f]) == RenderField(f);
    assert Render(f.value) == ['['] + (RenderItems(items) + [']']);
  }

  lemma GlueHead(v: string)
    ensures "{" + "\"head\"" + ":" + ("{" + "\"vars\"" + ":[" + v + "]}") == "{\"head\":{\"vars\":[" + v + "]}"
  {
  }

  lemma GlueResults(a: string, b: string)
    ensures a + "," + "\"results\"" + ":" + ("{" + "\"bindings\"" + ":[" + b + "]}") + "}"
            == a + ",\"results\":{\"bindings\":[" + b + "]}}"
  {
  }

  lemma GlueAll(v: string, b: string)
    ensures ("{\"head\":{\"vars\":[" + v + "]}") + ",\"results\":{\"bindings\":[" + b + "]}}"
            == "{\"head\":{\"vars\":[" + v + "]},\"results\":{\"bindings\":[" + b + "]}}"
  {
  }

  /** An object with two objects. */
  lemma PairText(a: Field, b: Field)
    ensures Render(Obj([a, b])) ==
            "{" + Quoted(a.key) + ":" + Render(a.value) + "," + Quoted(b.key) + ":" + Render(b.value) + "}"
  {
    hide Quoted;
    hide RenderFields;
    TwoFields(a, b);
  }

  lemma TableText(parse: ParseTerm, t: Table)
    requires Shaped(t)
    ensures Render(TableJson(parse, t)) ==
            "{\"head\":{\"vars\":[" + RenderItems(VarsJson(t.vars)) + "]},\"results\":{\"bindings\":["
            + RenderItems(RowsJson(parse, t.vars, t.rows)) + "]}}"
  {
    hide Quoted;
    hide Render;
    hide RenderItems;
    hide RowsJson;
    hide VarsJson;
    TableKeys();
    var v, b := VarsJson(t.vars), RowsJson(parse, t.vars, t.rows);
    var x, y := RenderItems(v), RenderItems(b);
    var head, results := Field("head", Obj([Field("vars", Arr(v))])),
        Field("results", Obj([Field("bindings", Arr(b))]));
    ListText("vars", v);
    ListText("bindings", b);
    PairText(head, results);
    GlueHead(x);
    GlueResults("{\"head\":{\"vars\":[" + x + "]}", y);
    GlueAll(x, y);
  }

  /** Write a whole table. */
  method WriteSelectJson(parse: ParseTerm, t: Table) returns (out: string)
    requires Shaped(t)
    ensures out == Render(TableJson(parse, t))
  {
    hide RenderItems;
    hide Render;
    out := "{\"head\":{\"vars\":[";
    var v := WriteVars(t.vars);
    out := out + v + "]},\"results\":{\"bindings\":[";
    var r := WriteRows(parse, t.vars, t.rows);
    out := out + r + "]}}";
    TableText(parse, t);
  }

  // ------------------------------------------------------------------------- reading

  /** A step of the parser did what reading at that position does. */
  ghost predicate Did<T>(spec: Result<(T, nat)>, r: Result<T>, pos: nat) {
    match spec
    case Ok(v) => r == Ok(v.0) && pos == v.1
    case Err => r.Err?
  }

  class JsonParser {
    const num: IsNumber
    const chars: string
    var pos: nat

    ghost predicate Valid()
      reads this
    {
      pos <= |chars|
    }

    constructor (num: IsNumber, text: string)
      ensures Valid() && this.num == num && chars == text && pos == 0
    {
      this.num, chars, pos := num, text, 0;
    }

    method SkipWs()
      requires Valid()
      modifies this
      ensures Valid() && pos == SkipSpace(chars, old(pos))
    {
      while pos < |chars| && IsSpace(chars[pos])
        invariant Valid() && SkipSpace(chars, pos) == SkipSpace(chars, old(pos))
        decreases |chars| - pos
      {
        pos := pos + 1;
      }
    }

    method Hex() returns (r: Result<nat>)
      requires Valid()
      modifies this
      ensures Valid() && Did(HexCode(chars, old(pos), 4, 0), r, pos)
    {
      var code := 0;
      for i := 0 to 4
        invariant Valid() && HexCode(chars, pos, 4 - i, code) == HexCode(chars, old(pos), 4, 0)
      {
        if pos >= |chars| {
          return Err;
        }
        var d := HexValue(chars[pos]);
        pos := pos + 1;
        if d.None? {
          return Err;
        }
        code := code * 16 + d.value;
      }
      r := Ok(code);
    }

    method EscapeSequence() returns (r: Result<char>)
      requires Valid()
      modifies this
      ensures Valid() && Did(Unescape(chars, old(pos)), r, pos)
    {
      hide HexCode;
      if pos >= |chars| {
        return Err;
      }
      var c := chars[pos];
      pos := pos + 1;
      match c {
        case '"' => r := Ok('"');
        case '\\' => r := Ok('\\');
        case '/' => r := Ok('/');
        case 'n' => r := Ok('\n');
        case 't' => r := Ok('\t');
        case 'r' => r := Ok('\r');
        case 'b' => r := Ok('\U{0008}');
        case 'f' => r := Ok('\U{000C}');
        case 'u' =>
          var code :- Hex();
          r := Ok(CharOf(code));
        case _ => r := Err;
      }
    }

    method Text() returns (r: Result<string>)
      requires Valid()
      modifies this
      ensures Valid() && Did(ReadString(chars, old(pos)), r, pos)
    {
      hide Unescape;
      if pos >= |chars| || chars[pos] != '"' {
        return Err;
      }
      pos := pos + 1;
      var out := "";
      while true
        invariant Valid() && ReadChars(chars, pos, out) == ReadString(chars, old(pos))
        decreases |chars| - pos
      {
        if pos >= |chars| {
          return Err;
        }
        var c := chars[pos];
        pos := pos + 1;
        if c == '"' {
          return Ok(out);
        } else if c == '\\' {
          var e := EscapeSequence();
          if e.Err? {
            return Err;
          }
          out := out + [e.value];
        } else {
          out := out + [c];
        }
      }
    }

    method Word(word: string) returns (matched: bool)
      requires Valid()
      modifies this
      ensures Valid() && matched == WordAt(chars, old(pos), word)
      ensures pos == if matched then old(pos) + |word| else old(pos)
    {
      var end := pos + |word|;
      matched := end <= |chars| && chars[pos..end] == word;
      if matched {
        pos := end;
      }
    }

    method Number() returns (r: Result<Json>)
      requires Valid()
      modifies this
      ensures Valid()
      ensures var q := NumberEnd(chars, old(pos));
              Did(if num(chars[old(pos)..q]) then Ok((Num(chars[old(pos)..q]), q)) else Err, r, pos)
    {
      var start := pos;
      while pos < |chars| && InNumber(chars[pos])
        invariant start <= pos && Valid() && NumberEnd(chars, pos) == NumberEnd(chars, start)
        decreases |chars| - pos
      {
        pos := pos + 1;
      }
      r := if num(chars[start..pos]) then Ok(Num(chars[start..pos])) else Err;
    }

    method Value() returns (r: Result<Json>)
      requires Valid()
      modifies this
      ensures Valid() && Did(ReadValue(num, chars, old(pos)), r, pos)
      decreases |chars| - pos, 2
    {
      hide ReadString;
      hide ReadObject;
      hide ReadArray;
      hide SkipSpace;
      hide NumberEnd;
      SkipWs();
      if pos >= |chars| {
        return Err;
      }
      var c := chars[pos];
      if c == '{' {
        r := Object();
      } else if c == '[' {
        r := Array();
      } else if c == '"' {
        var s :- Text();
        r := Ok(Str(s));
      } else if c == 't' || c == 'f' {
        var yes := Word("true");
        if yes {
          return Ok(Bool(true));
        }
        var no := Word("false");
        r := if no then Ok(Bool(false)) else Err;
      } else if c == 'n' {
        var nothing := Word("null");
        r := if nothing then Ok(Null) else Err;
      } else if c == '-' || IsDigit(c) {
        r := Number();
      } else {
        r := Err;
      }
    }

    method OneField() returns (r: Result<Field>)
      requires Valid()
      modifies this
      ensures Valid() && Did(ReadField(num, chars, old(pos)), r, pos)
      decreases |chars| - pos, 3
    {
      hide ReadString;
      hide ReadValue;
      hide SkipSpace;
      SkipWs();
      var key :- Text();
      SkipWs();
      if pos >= |chars| || chars[pos] != ':' {
        return Err;
      }
      pos := pos + 1;
      var v :- Value();
      r := Ok(Field(key, v));
    }

    method Object() returns (r: Result<Json>)
      requires Valid() && pos < |chars| && chars[pos] == '{'
      modifies this
      ensures Valid() && Did(ReadObject(num, chars, old(pos)), r, pos)
      decreases |chars| - pos, 1
    {
      hide ReadField;
      hide SkipSpace;
      pos := pos + 1;
      SkipWs();
      if pos < |chars| && chars[pos] == '}' {
        pos := pos + 1;
        return Ok(Obj([]));
      }
      var fields: seq<Field> := [];
      while true
        invariant Valid() && old(pos) < pos && ReadFields(num, chars, pos, fields) == ReadObject(num, chars, old(pos))
        decreases |chars| - pos
      {
        var f := OneField();
        if f.Err? {
          return Err;
        }
        fields := fields + [f.value];
        SkipWs();
        if pos >= |chars| {
          return Err;
        }
        var c := chars[pos];
        pos := pos + 1;
        if c == '}' {
          return Ok(Obj(fields));
        } else if c != ',' {
          return Err;
        }
      }
    }

    method Array() returns (r: Result<Json>)
      requires Valid() && pos < |chars| && chars[pos] == '['
      modifies this
      ensures Valid() && Did(ReadArray(num, chars, old(pos)), r, pos)
      decreases |chars| - pos, 1
    {
      hide ReadValue;
      hide SkipSpace;
      pos := pos + 1;
      SkipWs();
      if pos < |chars| && chars[pos] == ']' {
        pos := pos + 1;
        return Ok(Arr([]));
      }
      var items: seq<Json> := [];
      while true
        invariant Valid() && old(pos) < pos && ReadItems(num, chars, pos, items) == ReadArray(num, chars, old(pos))
        decreases |chars| - pos
      {
        var v := Value();
        if v.Err? {
          return Err;
        }
        items := items + [v.value];
        SkipWs();
        if pos >= |chars| {
          return Err;
        }
        var c := chars[pos];
        pos := pos + 1;
        if c == ']' {
          return Ok(Arr(items));
        } else if c != ',' {
          return Err;
        }
      }
    }
  }

  method ParseText(num: IsNumber, text: string) returns (r: Result<Json>)
    ensures r == Parse(num, text)
  {
    hide ReadValue;
    hide SkipSpace;
    var p := new JsonParser(num, text);
    p.SkipWs();
    var j :- p.Value();
    p.SkipWs();
    r := if p.pos == |text| then Ok(j) else Err;
  }

  /** Read a results document: one solution per row, each its bound variables in order. */
  method ParseSparqlJson(num: IsNumber, body: string) returns (r: Result<seq<Solution>>)
    ensures r == ReadResults(num, body)
  {
    hide Parse;
    hide TermOf;
    var j :- ParseText(num, body);
    var results := Get(j, "results");
    if results.None? {
      return Err;
    }
    var bindings := Get(results.value, "bindings");
    if bindings.None? || !bindings.value.Arr? {
      return Err;
    }
    r := ReadRows(bindings.value.items);
  }

  method ReadRows(rows: seq<Json>) returns (r: Result<seq<Solution>>)
    ensures r == SolutionsOf(rows)
  {
    hide SolutionOf;
    var out: seq<Solution> := [];
    for i := 0 to |rows|
      invariant SolutionsOf(rows[..i]) == Ok(out)
    {
      assert rows[..i + 1][..i] == rows[..i];
      if !rows[i].Obj? {
        SolutionsFail(rows, i + 1);
        return Err;
      }
      var s := ReadRow(rows[i].fields);
      if s.Err? {
        SolutionsFail(rows, i + 1);
        return Err;
      }
      out := out + [s.value];
    }
    assert rows[..|rows|] == rows;
    r := Ok(out);
  }

  lemma {:induction false} SolutionsFail(rows: seq<Json>, i: nat)
    requires i <= |rows| && SolutionsOf(rows[..i]).Err?
    ensures SolutionsOf(rows).Err?
  {
    hide SolutionOf;
    if i < |rows| {
      var init := rows[..|rows| - 1];
      assert init[..i] == rows[..i];
      SolutionsFail(init, i);
    } else {
      assert rows[..i] == rows;
    }
  }

  method ReadRow(fields: seq<Field>) returns (r: Result<Solution>)
    ensures r == SolutionOf(fields)
  {
    hide TermOf;
    var out: Solution := [];
    for i := 0 to |fields|
      invariant SolutionOf(fields[..i]) == Ok(out)
    {
      assert fields[..i + 1][..i] == fields[..i];
      var t := TermOf(fields[i].value);
      if t.Err? {
        SolutionFails(fields, i + 1);
        return Err;
      }
      out := out + [(fields[i].key, t.value)];
    }
    assert fields[..|fields|] == fields;
    r := Ok(out);
  }

  lemma {:induction false} SolutionFails(fields: seq<Field>, i: nat)
    requires i <= |fields| && SolutionOf(fields[..i]).Err?
    ensures SolutionOf(fields).Err?
  {
    hide TermOf;
    if i < |fields| {
      var init := fields[..|fields| - 1];
      assert init[..i] == fields[..i];
      SolutionFails(init, i);
    } else {
      assert fields[..i] == fields;
    }
  }
}
