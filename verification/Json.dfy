/** JSON text: a printer of compact text and a recursive-descent reader, as functions. Numbers are kept
    as the text they were read from; which texts are numbers is the float parser's business. */
module Json {
  import opened Wrappers

  datatype Json =
    | Null
    | Bool(b: bool)
    | Num(text: string)
    | Str(s: string)
    | Arr(items: seq<Json>)
    | Obj(fields: seq<Field>)

  datatype Field = Field(key: string, value: Json)

  // ------------------------------------------------------------------------ printing

  function HexDigit(d: nat): char
    requires d < 16
  {
    "0123456789abcdef"[d]
  }

  function Escape(c: char): string {
    if c == '"' then "\\\"" else
    if c == '\\' then "\\\\" else
    if c == '\n' then "\\n" else
    if c == '\r' then "\\r" else
    if c == '\t' then "\\t" else
    if c < ' ' then ['\\', 'u', '0', '0', HexDigit(c as int / 16), HexDigit(c as int % 16)]
    else [c]
  }

  function Escaped(s: string): string {
    if s == "" then "" else Escape(s[0]) + Escaped(s[1..])
  }

  function Quoted(s: string): string { ['"'] + (Escaped(s) + ['"']) }

  function Render(j: Json): string {
    match j
    case Null => "null"
    case Bool(b) => if b then "true" else "false"
    case Num(text) => text
    case Str(s) => Quoted(s)
    case Arr(items) => ['['] + (RenderItems(items) + [']'])
    case Obj(fields) => ['{'] + (RenderFields(fields) + ['}'])
  }

  function RenderItems(items: seq<Json>): string {
    if items == [] then ""
    else if |items| == 1 then Render(items[0])
    else Render(items[0]) + ([','] + RenderItems(items[1..]))
  }

  function RenderField(f: Field): string {
    Quoted(f.key) + ([':'] + Render(f.value))
  }

  function RenderFields(fields: seq<Field>): string {
    if fields == [] then ""
    else if |fields| == 1 then RenderField(fields[0])
    else RenderField(fields[0]) + ([','] + RenderFields(fields[1..]))
  }

  // ------------------------------------------------------------------------- reading

  predicate IsSpace(c: char) { c == ' ' || c == '\t' || c == '\n' || c == '\r' }

  predicate IsDigit(c: char) { '0' <= c <= '9' }

  function SkipSpace(s: string, pos: nat): (p: nat)
    requires pos <= |s|
    ensures pos <= p <= |s|
    decreases |s| - pos
  {
    if pos < |s| && IsSpace(s[pos]) then SkipSpace(s, pos + 1) else pos
  }

  function HexValue(c: char): Option<nat> {
    if '0' <= c <= '9' then Some(c as int - '0' as int)
    else if 'a' <= c <= 'f' then Some(c as int - 'a' as int + 10)
    else if 'A' <= c <= 'F' then Some(c as int - 'A' as int + 10)
    else None
  }

  /** Four hexadecimal digits starting with accumulated value `code`, `n` still to come. */
  function HexCode(s: string, pos: nat, n: nat, code: nat): (r: Result<(nat, nat)>)
    requires pos <= |s|
    ensures r.Ok? ==> pos <= r.value.1 <= |s|
    decreases n
  {
    if n == 0 then Ok((code, pos))
    else if pos >= |s| then Err
    else
      match HexValue(s[pos])
      case None => Err
      case Some(d) => HexCode(s, pos + 1, n - 1, code * 16 + d)
  }

  /** The character with this code, or the replacement character. */
  function CharOf(code: nat): char {
    if code < 0xD800 || 0xE000 <= code < 0x11_0000 then code as char else '\U{FFFD}'
  }

  /** The character an escape stands for; the backslash is already behind `pos`. */
  function Unescape(s: string, pos: nat): (r: Result<(char, nat)>)
    requires pos <= |s|
    ensures r.Ok? ==> pos < r.value.1 <= |s|
  {
    if pos >= |s| then Err else
    var c := s[pos];
    if c == '"' || c == '\\' || c == '/' then Ok((c, pos + 1))
    else if c == 'n' then Ok(('\n', pos + 1))
    else if c == 't' then Ok(('\t', pos + 1))
    else if c == 'r' then Ok(('\r', pos + 1))
    else if c == 'b' then Ok(('\U{0008}', pos + 1))
    else if c == 'f' then Ok(('\U{000C}', pos + 1))
    else if c == 'u' then
      var (code, p) :- HexCode(s, pos + 1, 4, 0);
      Ok((CharOf(code), p))
    else Err
  }

  /** The rest of a string after its opening quote, with `out` already read. */
  function ReadChars(s: string, pos: nat, out: string): (r: Result<(string, nat)>)
    requires pos <= |s|
    ensures r.Ok? ==> pos < r.value.1 <= |s|
    decreases |s| - pos
  {
    if pos >= |s| then Err
    else if s[pos] == '"' then Ok((out, pos + 1))
    else if s[pos] == '\\' then
      var (c, p) :- Unescape(s, pos + 1);
      ReadChars(s, p, out + [c])
    else ReadChars(s, pos + 1, out + [s[pos]])
  }

  function ReadString(s: string, pos: nat): (r: Result<(string, nat)>)
    requires pos <= |s|
    ensures r.Ok? ==> pos < r.value.1 <= |s|
  {
    if pos < |s| && s[pos] == '"' then ReadChars(s, pos + 1, "") else Err
  }

  predicate InNumber(c: char) {
    c == '-' || c == '+' || c == '.' || c == 'e' || c == 'E' || IsDigit(c)
  }

  function NumberEnd(s: string, pos: nat): (p: nat)
    requires pos <= |s|
    ensures pos <= p <= |s|
    decreases |s| - pos
  {
    if pos < |s| && InNumber(s[pos]) then NumberEnd(s, pos + 1) else pos
  }

  predicate WordAt(s: string, pos: nat, word: string) {
    pos + |word| <= |s| && s[pos..pos + |word|] == word
  }

  type IsNumber = string -> bool

  /** A text the reader takes for a number, as a whole. */
  predicate NumberText(num: IsNumber, t: string) {
    t != "" && (t[0] == '-' || IsDigit(t[0])) && (forall i :: 0 <= i < |t| ==> InNumber(t[i])) && num(t)
  }

  /** Every number in the value is a text the reader takes for a number. */
  ghost predicate Readable(num: IsNumber, j: Json) {
    match j
    case Num(t) => NumberText(num, t)
    case Arr(items) => forall i :: 0 <= i < |items| ==> Readable(num, items[i])
    case Obj(fields) => forall i :: 0 <= i < |fields| ==> Readable(num, fields[i].value)
    case _ => true
  }

  function ReadValue(num: IsNumber, s: string, pos: nat): (r: Result<(Json, nat)>)
    requires pos <= |s|
    ensures r.Ok? ==> pos < r.value.1 <= |s|
    decreases |s| - pos, 2
  {
    var p := SkipSpace(s, pos);
    if p >= |s| then Err
    else if s[p] == '{' then ReadObject(num, s, p)
    else if s[p] == '[' then ReadArray(num, s, p)
    else if s[p] == '"' then
      var (t, q) :- ReadString(s, p);
      Ok((Str(t), q))
    else if s[p] == 't' || s[p] == 'f' then
      if WordAt(s, p, "true") then Ok((Bool(true), p + 4))
      else if WordAt(s, p, "false") then Ok((Bool(false), p + 5))
      else Err
    else if s[p] == 'n' then
      if WordAt(s, p, "null") then Ok((Null, p + 4)) else Err
    else if s[p] == '-' || IsDigit(s[p]) then
      var q := NumberEnd(s, p);
      if num(s[p..q]) then Ok((Num(s[p..q]), q)) else Err
    else Err
  }

  function ReadObject(num: IsNumber, s: string, pos: nat): (r: Result<(Json, nat)>)
    requires pos < |s| && s[pos] == '{'
    ensures r.Ok? ==> pos < r.value.1 <= |s|
    decreases |s| - pos, 1
  {
    var p := SkipSpace(s, pos + 1);
    if p < |s| && s[p] == '}' then Ok((Obj([]), p + 1)) else ReadFields(num, s, p, [])
  }

  /** A key, a colon and a value. */
  function ReadField(num: IsNumber, s: string, pos: nat): (r: Result<(Field, nat)>)
    requires pos <= |s|
    ensures r.Ok? ==> pos < r.value.1 <= |s|
    decreases |s| - pos, 3
  {
    var (key, p) :- ReadString(s, SkipSpace(s, pos));
    var colon := SkipSpace(s, p);
    if colon >= |s| || s[colon] != ':' then Err else
    var (v, q) :- ReadValue(num, s, colon + 1);
    Ok((Field(key, v), q))
  }

  function ReadFields(num: IsNumber, s: string, pos: nat, fields: seq<Field>): (r: Result<(Json, nat)>)
    requires pos <= |s|
    ensures r.Ok? ==> pos < r.value.1 <= |s|
    decreases |s| - pos, 4
  {
    var (f, q) :- ReadField(num, s, pos);
    var e := SkipSpace(s, q);
    if e >= |s| then Err
    else if s[e] == ',' then ReadFields(num, s, e + 1, fields + [f])
    else if s[e] == '}' then Ok((Obj(fields + [f]), e + 1))
    else Err
  }

  function ReadArray(num: IsNumber, s: string, pos: nat): (r: Result<(Json, nat)>)
    requires pos < |s| && s[pos] == '['
    ensures r.Ok? ==> pos < r.value.1 <= |s|
    decreases |s| - pos, 1
  {
    var p := SkipSpace(s, pos + 1);
    if p < |s| && s[p] == ']' then Ok((Arr([]), p + 1)) else ReadItems(num, s, p, [])
  }

  function ReadItems(num: IsNumber, s: string, pos: nat, items: seq<Json>): (r: Result<(Json, nat)>)
    requires pos <= |s|
    ensures r.Ok? ==> pos < r.value.1 <= |s|
    decreases |s| - pos, 3
  {
    var (v, q) :- ReadValue(num, s, pos);
    var e := SkipSpace(s, q);
    var all := items + [v];
    if e >= |s| then Err
    else if s[e] == ',' then ReadItems(num, s, e + 1, all)
    else if s[e] == ']' then Ok((Arr(all), e + 1))
    else Err
  }

  /** A whole text: one value with space around it and nothing else. */
  function Parse(num: IsNumber, s: string): Result<Json> {
    var (j, p) :- ReadValue(num, s, SkipSpace(s, 0));
    if SkipSpace(s, p) == |s| then Ok(j) else Err
  }

  // ----------------------------------------------------------- strings print and read back

  ghost predicate At(s: string, pos: nat, t: string) {
    pos + |t| <= |s| && s[pos..pos + |t|] == t
  }

  lemma AtSplit(s: string, pos: nat, a: string, b: string)
    requires At(s, pos, a + b)
    ensures At(s, pos, a) && At(s, pos + |a|, b)
  {
    var w := s[pos..pos + |a + b|];
    assert w[..|a|] == a && w[|a|..] == b;
    assert s[pos..pos + |a|] == w[..|a|];
    assert s[pos + |a|..pos + |a| + |b|] == w[|a|..];
  }

  lemma AtChar(s: string, pos: nat, c: char, rest: string)
    requires At(s, pos, [c] + rest)
    ensures pos < |s| && s[pos] == c && At(s, pos + 1, rest)
  {
    AtSplit(s, pos, [c], rest);
    assert s[pos..pos + 1][0] == c;
  }

  lemma HexRoundTrip(d: nat)
    requires d < 16
    ensures HexValue(HexDigit(d)) == Some(d)
  {
  }

  lemma ControlReads(s: string, pos: nat, c: char)
    requires c < ' ' && At(s, pos, ['u', '0', '0', HexDigit(c as int / 16), HexDigit(c as int % 16)])
    ensures Unescape(s, pos) == Ok((c, pos + 5))
  {
    hide HexDigit;
    hide HexValue;
    var hi, lo := c as int / 16, c as int % 16;
    var w := ['u', '0', '0', HexDigit(hi), HexDigit(lo)];
    assert forall i :: 0 <= i < 5 ==> s[pos + i] == s[pos..pos + 5][i] == w[i];
    HexRoundTrip(hi);
    HexRoundTrip(lo);
    HexRoundTrip(0);
    assert HexDigit(0) == '0' by {
      ZeroDigit();
    }
    assert s[pos + 0] == 'u' && s[pos + 1] == '0' && s[pos + 2] == '0' && s[pos + 3] == w[3] && s[pos + 4] == w[4];
    assert HexCode(s, pos + 5, 0, c as int) == Ok((c as int, pos + 5));
    assert HexCode(s, pos + 4, 1, hi) == Ok((c as int, pos + 5));
    assert HexCode(s, pos + 3, 2, 0) == Ok((c as int, pos + 5));
    assert HexCode(s, pos + 2, 3, 0) == Ok((c as int, pos + 5));
  }

  lemma ZeroDigit()
    ensures HexDigit(0) == '0'
  {
  }

  lemma EscapeReads(s: string, pos: nat, c: char, out: string)
    requires At(s, pos, Escape(c))
    ensures ReadChars(s, pos, out) == ReadChars(s, pos + |Escape(c)|, out + [c])
  {
    hide HexCode;
    var w := Escape(c);
    assert forall i :: 0 <= i < |w| ==> s[pos + i] == s[pos..pos + |w|][i] == w[i];
    assert s[pos + 0] == w[0];
    if |w| == 2 {
      assert s[pos + 1] == w[1];
    } else if |w| == 6 {
      assert w == ['\\'] + w[1..];
      AtChar(s, pos, '\\', w[1..]);
      ControlReads(s, pos + 1, c);
    }
  }

  lemma {:induction false} EscapedReads(s: string, pos: nat, t: string, out: string)
    requires At(s, pos, Escaped(t) + ['"'])
    ensures ReadChars(s, pos, out) == Ok((out + t, pos + |Escaped(t)| + 1))
    decreases |t|
  {
    hide Escape;
    if t == "" {
      assert Escaped(t) + ['"'] == ['"'] + [];
      AtChar(s, pos, '"', []);
      assert out + t == out;
    } else {
      var a, b := Escape(t[0]), Escaped(t[1..]);
      assert Escaped(t) + ['"'] == a + (b + ['"']);
      AtSplit(s, pos, a, b + ['"']);
      EscapeReads(s, pos, t[0], out);
      EscapedReads(s, pos + |a|, t[1..], out + [t[0]]);
      assert out + [t[0]] + t[1..] == out + t;
    }
  }

  /** Any string whatever, control characters included, reads back from its quoted form. */
  lemma QuotedReads(s: string, pos: nat, t: string)
    requires At(s, pos, Quoted(t))
    ensures ReadString(s, pos) == Ok((t, pos + |Quoted(t)|))
  {
    hide Escaped;
    hide ReadChars;
    AtChar(s, pos, '"', Escaped(t) + ['"']);
    EscapedReads(s, pos + 1, t, "");
    assert "" + t == t;
  }

  // ------------------------------------------------------------ values print and read back

  /** A printed value begins with a character that is neither space nor a closing bracket. */
  lemma Begins(num: IsNumber, j: Json)
    requires Readable(num, j)
    ensures var r := Render(j); r != "" && !IsSpace(r[0]) && r[0] != ']'
  {
    hide Escaped;
    hide RenderItems;
    hide RenderFields;
  }

  lemma NoSpace(s: string, pos: nat)
    requires pos < |s| && !IsSpace(s[pos])
    ensures SkipSpace(s, pos) == pos
  {
  }

  lemma AtFirst(s: string, pos: nat, t: string)
    requires t != "" && At(s, pos, t)
    ensures pos < |s| && s[pos] == t[0]
  {
    assert s[pos..pos + |t|][0] == t[0];
  }

  lemma WordBegins(s: string, pos: nat, word: string)
    ensures word != "" && WordAt(s, pos, word) ==> s[pos] == word[0]
  {
    if word != "" && WordAt(s, pos, word) {
      assert s[pos..pos + |word|][0] == word[0];
    }
  }

  /** No number goes on at `pos`. */
  predicate Stops(s: string, pos: nat) {
    pos >= |s| || !InNumber(s[pos])
  }

  lemma {:induction false} NumberEnds(s: string, pos: nat, t: string)
    requires At(s, pos, t) && (forall i :: 0 <= i < |t| ==> InNumber(t[i])) && Stops(s, pos + |t|)
    ensures NumberEnd(s, pos) == pos + |t|
    decreases |t|
  {
    if t != "" {
      assert t == [t[0]] + t[1..];
      AtChar(s, pos, t[0], t[1..]);
      NumberEnds(s, pos + 1, t[1..]);
    }
  }

  lemma NumberReads(num: IsNumber, s: string, pos: nat, t: string)
    requires NumberText(num, t) && At(s, pos, t) && Stops(s, pos + |t|)
    ensures ReadValue(num, s, pos) == Ok((Num(t), pos + |t|))
  {
    hide NumberEnd;
    AtFirst(s, pos, t);
    NoSpace(s, pos);
    NumberEnds(s, pos, t);
  }

  lemma WordReads(num: IsNumber, s: string, pos: nat, j: Json)
    requires (j.Null? || j.Bool?) && At(s, pos, Render(j))
    ensures ReadValue(num, s, pos) == Ok((j, pos + |Render(j)|))
  {
    AtFirst(s, pos, Render(j));
    NoSpace(s, pos);
    assert WordAt(s, pos, Render(j));
    WordBegins(s, pos, "true");
  }

  /** Reading undoes printing, wherever the text stands and whatever follows it. */
  lemma {:induction false} RenderReads(num: IsNumber, s: string, pos: nat, j: Json)
    requires Readable(num, j) && At(s, pos, Render(j)) && (j.Num? ==> Stops(s, pos + |Render(j)|))
    ensures ReadValue(num, s, pos) == Ok((j, pos + |Render(j)|))
    decreases j, 0
  {
    hide Escaped;
    hide RenderItems;
    hide RenderFields;
    hide ReadItems;
    hide ReadFields;
    hide ReadChars;
    Begins(num, j);
    AtFirst(s, pos, Render(j));
    NoSpace(s, pos);
    match j
    case Null => WordReads(num, s, pos, j);
    case Bool(_) => WordReads(num, s, pos, j);
    case Num(t) => NumberReads(num, s, pos, t);
    case Str(t) => QuotedReads(s, pos, t);
    case Arr(items) =>
      AtChar(s, pos, '[', RenderItems(items) + [']']);
      if items == [] {
        EmptyList(s, pos + 1, RenderItems(items), ']');
        NoItems();
      } else {
        ItemsRead(num, s, pos + 1, items, []);
        assert [] + items == items;
      }
    case Obj(fields) =>
      AtChar(s, pos, '{', RenderFields(fields) + ['}']);
      if fields == [] {
        EmptyList(s, pos + 1, RenderFields(fields), '}');
        NoFields();
      } else {
        FieldsRead(num, s, pos + 1, fields, []);
        assert [] + fields == fields;
      }
  }

  lemma NoItems()
    ensures RenderItems([]) == ""
  {
  }

  lemma NoFields()
    ensures RenderFields([]) == ""
  {
  }

  lemma EmptyList(s: string, pos: nat, inner: string, close: char)
    requires At(s, pos, inner + [close]) && !IsSpace(close)
    ensures inner == "" ==> pos < |s| && s[pos] == close && SkipSpace(s, pos) == pos
  {
    if inner == "" {
      assert inner + [close] == [close] + [];
      AtChar(s, pos, close, []);
    }
  }

  lemma StopsAt(s: string, pos: nat)
    ensures pos < |s| && (s[pos] == ',' || s[pos] == '}' || s[pos] == ']') ==> Stops(s, pos)
  {
  }

  /** One round of the list loop. */
  lemma ItemStep(num: IsNumber, s: string, pos: nat, acc: seq<Json>, v: Json, q: nat)
    requires pos <= |s| && ReadValue(num, s, pos) == Ok((v, q)) && q < |s| && !IsSpace(s[q])
    ensures s[q] == ',' ==> ReadItems(num, s, pos, acc) == ReadItems(num, s, q + 1, acc + [v])
    ensures s[q] == ']' ==> ReadItems(num, s, pos, acc) == Ok((Arr(acc + [v]), q + 1))
  {
    hide ReadValue;
    NoSpace(s, q);
  }

  lemma Joined(a: string, c: char, b: string, close: char)
    ensures (a + ([c] + b)) + [close] == a + ([c] + (b + [close]))
  {
  }

  lemma {:induction false} ItemsRead(num: IsNumber, s: string, pos: nat, items: seq<Json>, acc: seq<Json>)
    requires items != [] && forall i :: 0 <= i < |items| ==> Readable(num, items[i])
    requires At(s, pos, RenderItems(items) + [']'])
    ensures ReadItems(num, s, pos, acc) == Ok((Arr(acc + items), pos + |RenderItems(items)| + 1))
    ensures SkipSpace(s, pos) == pos && s[pos] != ']'
    decreases items
  {
    hide Render;
    hide ReadValue;
    hide ReadItems;
    hide At;
    hide SkipSpace;
    var v := items[0];
    var r := Render(v);
    var q := pos + |r|;
    if |items| == 1 {
      AtSplit(s, pos, r, [']']);
      AtFirst(s, q, [']']);
      RenderReads(num, s, pos, v);
      ItemStep(num, s, pos, acc, v, q);
      assert items == [v];
    } else {
      var rest := RenderItems(items[1..]);
      Joined(r, ',', rest, ']');
      AtSplit(s, pos, r, [','] + (rest + [']']));
      AtChar(s, q, ',', rest + [']']);
      RenderReads(num, s, pos, v);
      ItemStep(num, s, pos, acc, v, q);
      ItemsRead(num, s, q + 1, items[1..], acc + [v]);
      assert acc + [v] + items[1..] == acc + items;
    }
    Begins(num, v);
    AtFirst(s, pos, r);
    NoSpace(s, pos);
  }

  /** One round of the object loop. */
  lemma FieldStep(num: IsNumber, s: string, pos: nat, acc: seq<Field>, f: Field, c: nat, q: nat)
    requires pos < |s| && !IsSpace(s[pos]) && ReadString(s, pos) == Ok((f.key, c)) && c < |s| && s[c] == ':'
    requires ReadValue(num, s, c + 1) == Ok((f.value, q)) && q < |s| && !IsSpace(s[q])
    ensures s[q] == ',' ==> ReadFields(num, s, pos, acc) == ReadFields(num, s, q + 1, acc + [f])
    ensures s[q] == '}' ==> ReadFields(num, s, pos, acc) == Ok((Obj(acc + [f]), q + 1))
  {
    hide ReadValue;
    hide ReadString;
    NoSpace(s, pos);
    NoSpace(s, c);
    NoSpace(s, q);
  }

  lemma FieldJoined(k: string, r: string, tail: string)
    ensures (k + ([':'] + r)) + tail == k + ([':'] + (r + tail))
  {
  }

  lemma {:induction false} FieldsRead(num: IsNumber, s: string, pos: nat, fields: seq<Field>, acc: seq<Field>)
    requires fields != [] && (forall i :: 0 <= i < |fields| ==> Readable(num, fields[i].value))
    requires At(s, pos, RenderFields(fields) + ['}'])
    ensures ReadFields(num, s, pos, acc) == Ok((Obj(acc + fields), pos + |RenderFields(fields)| + 1))
    ensures SkipSpace(s, pos) == pos && s[pos] != '}'
    decreases fields
  {
    hide Render;
    hide Quoted;
    hide ReadValue;
    hide ReadString;
    hide ReadFields;
    hide At;
    hide SkipSpace;
    hide Readable;
    hide Stops;
    var f := fields[0];
    var k, r := Quoted(f.key), Render(f.value);
    var rest := RenderFields(fields[1..]);
    var tail := if |fields| == 1 then ['}'] else [','] + (rest + ['}']);
    FieldJoined(k, r, tail);
    Joined(RenderField(f), ',', rest, '}');
    assert RenderFields(fields) + ['}'] == RenderField(f) + tail;
    AtSplit(s, pos, k, [':'] + (r + tail));
    QuotedBegins(s, pos, f.key);
    QuotedReads(s, pos, f.key);
    var c := pos + |k|;
    AtChar(s, c, ':', r + tail);
    AtSplit(s, c + 1, r, tail);
    var e := c + 1 + |r|;
    AtFirst(s, e, tail);
    StopsAt(s, e);
    RenderReads(num, s, c + 1, f.value);
    FieldStep(num, s, pos, acc, f, c, e);
    if |fields| == 1 {
      assert fields == [f];
    } else {
      AtChar(s, e, ',', rest + ['}']);
      FieldsRead(num, s, e + 1, fields[1..], acc + [f]);
      assert acc + [f] + fields[1..] == acc + fields;
    }
  }

  lemma QuotedBegins(s: string, pos: nat, t: string)
    requires At(s, pos, Quoted(t))
    ensures pos < |s| && s[pos] == '"' && SkipSpace(s, pos) == pos
  {
    hide Escaped;
    AtChar(s, pos, '"', Escaped(t) + ['"']);
    NoSpace(s, pos);
  }

  // ------------------------------------------------------------- what the reader can give

  lemma {:induction false} NumberEndIn(s: string, pos: nat)
    requires pos <= |s|
    ensures forall i :: pos <= i < NumberEnd(s, pos) ==> InNumber(s[i])
    decreases |s| - pos
  {
    if pos < |s| && InNumber(s[pos]) {
      NumberEndIn(s, pos + 1);
    }
  }

  lemma NumberGiven(num: IsNumber, s: string, p: nat)
    requires p < |s| && (s[p] == '-' || IsDigit(s[p])) && num(s[p..NumberEnd(s, p)])
    ensures NumberText(num, s[p..NumberEnd(s, p)])
  {
    NumberEndIn(s, p);
    assert NumberEnd(s, p) == NumberEnd(s, p + 1);
    var t := s[p..NumberEnd(s, p)];
    forall i | 0 <= i < |t|
      ensures InNumber(t[i])
    {
      assert t[i] == s[p + i];
    }
  }

  /** Whatever text is read, the value has only numbers the reader takes for numbers. */
  lemma {:induction false} ReadIsReadable(num: IsNumber, s: string, pos: nat)
    requires pos <= |s|
    ensures ReadValue(num, s, pos).Ok? ==> Readable(num, ReadValue(num, s, pos).value.0)
    decreases |s| - pos, 2
  {
    hide NumberText;
    hide ReadItems;
    hide ReadFields;
    hide ReadString;
    hide NumberEnd;
    var p := SkipSpace(s, pos);
    if p < |s| {
      if s[p] == '{' {
        var q := SkipSpace(s, p + 1);
        if !(q < |s| && s[q] == '}') {
          FieldsReadable(num, s, q, []);
        }
      } else if s[p] == '[' {
        var q := SkipSpace(s, p + 1);
        if !(q < |s| && s[q] == ']') {
          ItemsReadable(num, s, q, []);
        }
      } else if (s[p] == '-' || IsDigit(s[p])) && num(s[p..NumberEnd(s, p)]) {
        NumberGiven(num, s, p);
      }
    }
  }

  lemma {:induction false} ItemsReadable(num: IsNumber, s: string, pos: nat, items: seq<Json>)
    requires pos <= |s| && forall i :: 0 <= i < |items| ==> Readable(num, items[i])
    ensures ReadItems(num, s, pos, items).Ok? ==> Readable(num, ReadItems(num, s, pos, items).value.0)
    decreases |s| - pos, 3
  {
    hide ReadValue;
    ReadIsReadable(num, s, pos);
    if ReadValue(num, s, pos).Ok? {
      var (v, q) := ReadValue(num, s, pos).value;
      var e := SkipSpace(s, q);
      if e < |s| && s[e] == ',' {
        ItemsReadable(num, s, e + 1, items + [v]);
      }
    }
  }

  lemma {:induction false} FieldsReadable(num: IsNumber, s: string, pos: nat, fields: seq<Field>)
    requires pos <= |s| && forall i :: 0 <= i < |fields| ==> Readable(num, fields[i].value)
    ensures ReadFields(num, s, pos, fields).Ok? ==> Readable(num, ReadFields(num, s, pos, fields).value.0)
    decreases |s| - pos, 4
  {
    hide ReadField;
    FieldReadable(num, s, pos);
    if ReadField(num, s, pos).Ok? {
      var (f, q) := ReadField(num, s, pos).value;
      var e := SkipSpace(s, q);
      if e < |s| && s[e] == ',' {
        FieldsReadable(num, s, e + 1, fields + [f]);
      }
    }
  }

  lemma {:induction false} FieldReadable(num: IsNumber, s: string, pos: nat)
    requires pos <= |s|
    ensures ReadField(num, s, pos).Ok? ==> Readable(num, ReadField(num, s, pos).value.0.value)
    decreases |s| - pos, 3
  {
    hide ReadValue;
    hide ReadString;
    var k := ReadString(s, SkipSpace(s, pos));
    if k.Ok? {
      var colon := SkipSpace(s, k.value.1);
      if colon < |s| {
        ReadIsReadable(num, s, colon + 1);
      }
    }
  }

  /** Parsing a printed value gives the value exactly when each of its numbers is a text the reader takes
      for a number. */
  lemma ParseRender(num: IsNumber, j: Json)
    ensures Parse(num, Render(j)) == Ok(j) <==> Readable(num, j)
  {
    hide Render;
    hide ReadValue;
    hide Readable;
    var s := Render(j);
    ReadIsReadable(num, s, SkipSpace(s, 0));
    if Readable(num, j) {
      Begins(num, j);
      NoSpace(s, 0);
      assert s[0..|s|] == s;
      RenderReads(num, s, 0, j);
    }
  }
}
