// Reading the fields of the generated controller interface, and naming its callbacks
// (xtask/src/plugin_dispatch.rs).
module CallbackTables {
  import opened Prelude
  import opened Delimiters
  import opened Signatures

  const MARKER: string := "pub struct ARADocumentControllerInterface {"

  datatype Field = Field(name: string, type_: string)

  function SkipBlank(s: string): string {
    if s != "" && IsBlank(s[0]) then SkipBlank(s[1..]) else s
  }

  // The length of the type at the start of a text: up to a comma outside all delimiters.
  function TypeLength(s: string, prev: char, d: Depth): (r: Option<nat>)
    ensures r.Some? ==> r.value < |s|
    decreases |s|
  {
    if s == "" then None
    else if s[0] == ',' && d == ZERO then Some(0)
    else Later(TypeLength(s[1..], s[0], Step(true, prev, s[0], d)), 1)
  }

  function Cons(f: Field, r: Result<seq<Field>>): Result<seq<Field>> {
    if r.Ok? then Ok([f] + r.value) else r
  }

  function Prepend(fs: seq<Field>, r: Result<seq<Field>>): Result<seq<Field>> {
    if r.Ok? then Ok(fs + r.value) else r
  }

  // What is left after a field, and the field.
  function FirstField(s: string): (r: Option<(Field, string)>)
    ensures r.Some? ==> |r.value.1| < |s|
  {
    if !StartsWith(s, "pub ") then None else
    var colon := Find(s[4..], ":");
    if colon.None? then None else
    var t := s[4..][colon.value + 1..];
    var n := TypeLength(t, ':', ZERO);
    if n.None? then None
    else Some((Field(Trim(s[4..][..colon.value]), Trim(t[..n.value])), t[n.value + 1..]))
  }

  lemma {:induction false} SkipBlankShrinks(s: string)
    ensures |SkipBlank(s)| <= |s| && SkipBlank(s) == s[|s| - |SkipBlank(s)|..]
    decreases |s|
  {
    if s != "" && IsBlank(s[0]) {
      SkipBlankShrinks(s[1..]);
    }
  }

  // The fields up to the closing brace.
  function FieldsOf(s: string): Result<seq<Field>>
    decreases |s|
  {
    SkipBlankShrinks(s);
    var rest := SkipBlank(s);
    if rest != "" && rest[0] == '}' then Ok([]) else
    var first := FirstField(rest);
    if first.None? then Err(InvalidArgument) else Cons(first.value.0, FieldsOf(first.value.1))
  }

  function TableOf(raw: string): Result<seq<Field>> {
    var start := Find(raw, MARKER);
    if start.None? then Err(InvalidArgument) else FieldsOf(raw[start.value + |MARKER|..])
  }

  // ---- The loops

  lemma TypeUnfolds(s: string, prev: char, d: Depth)
    ensures s == "" ==> TypeLength(s, prev, d) == None
    ensures s != "" && s[0] == ',' && d == ZERO ==> TypeLength(s, prev, d) == Some(0)
    ensures s != "" && !(s[0] == ',' && d == ZERO) ==>
              TypeLength(s, prev, d) == Later(TypeLength(s[1..], s[0], Step(true, prev, s[0], d)), 1)
  {
  }

  // The end of the type that starts at `start`, after a colon; absent if the text ends first.
  method ScanType(raw: string, start: nat) returns (end: Option<nat>)
    requires 0 < start <= |raw| && raw[start - 1] == ':'
    ensures end == Later(TypeLength(raw[start..], ':', ZERO), start)
    ensures end.Some? ==> start <= end.value < |raw| && raw[start..end.value] == raw[start..][..end.value - start]
  {
    hide TypeLength;
    var cursor, angle, paren, bracket := start, 0, 0, 0;
    while cursor < |raw| && !(raw[cursor] == ',' && angle == 0 && paren == 0 && bracket == 0)
      invariant start <= cursor <= |raw|
      invariant TypeLength(raw[start..], ':', ZERO) ==
                Later(TypeLength(raw[cursor..], raw[cursor - 1], Depth(angle, paren, bracket)), cursor - start)
    {
      var byte := raw[cursor];
      TypeUnfolds(raw[cursor..], raw[cursor - 1], Depth(angle, paren, bracket));
      assert raw[cursor..][1..] == raw[cursor + 1..];
      if byte == '<' {
        angle := angle + 1;
      } else if byte == '>' && angle > 0 && raw[cursor - 1] != '-' {
        angle := angle - 1;
      } else if byte == '(' {
        paren := paren + 1;
      } else if byte == ')' {
        paren := paren - 1;
      } else if byte == '[' {
        bracket := bracket + 1;
      } else if byte == ']' {
        bracket := bracket - 1;
      }
      cursor := cursor + 1;
    }
    TypeUnfolds(raw[cursor..], raw[cursor - 1], Depth(angle, paren, bracket));
    if cursor == |raw| { return None; }
    return Some(cursor);
  }

  method SkipWhitespace(raw: string, start: nat) returns (cursor: nat)
    requires start <= |raw|
    ensures start <= cursor <= |raw| && raw[cursor..] == SkipBlank(raw[start..])
  {
    cursor := start;
    while cursor < |raw| && IsBlank(raw[cursor])
      invariant start <= cursor <= |raw| && SkipBlank(raw[start..]) == SkipBlank(raw[cursor..])
    {
      assert raw[cursor..][1..] == raw[cursor + 1..];
      cursor := cursor + 1;
    }
  }

  // One field, and the cursor after it.
  method ReadField(raw: string, cursor: nat) returns (r: Option<(Field, nat)>)
    requires cursor <= |raw|
    ensures r.Some? ==> cursor < r.value.1 <= |raw|
    ensures FirstField(raw[cursor..]) == if r.Some? then Some((r.value.0, raw[r.value.1..])) else None
  {
    hide TypeLength, Find, Trim;
    ghost var rest := raw[cursor..];
    if cursor + 4 > |raw| || raw[cursor..cursor + 4] != "pub " {
      assert !StartsWith(rest, "pub ") by {
        if |rest| >= 4 { assert rest[..4] == raw[cursor..cursor + 4]; }
      }
      return None;
    }
    var named := cursor + 4;
    assert rest[..4] == "pub " && rest[4..] == raw[named..];
    var colon := Find(raw[named..], ":");
    if colon.None? { return None; }
    var typed := named + colon.value + 1;
    assert raw[named..][colon.value..][0] == raw[typed - 1];
    assert raw[typed..] == raw[named..][colon.value + 1..];
    var end := ScanType(raw, typed);
    if end.None? { return None; }
    assert raw[named..typed - 1] == raw[named..][..colon.value];
    assert raw[typed..][end.value - typed + 1..] == raw[end.value + 1..];
    return Some((Field(Trim(raw[named..typed - 1]), Trim(raw[typed..end.value])), end.value + 1));
  }

  lemma PrependLaws(fs: seq<Field>, f: Field, r: Result<seq<Field>>)
    ensures Prepend([], r) == r && Prepend(fs, Ok([])) == Ok(fs)
    ensures Prepend(fs, Cons(f, r)) == Prepend(fs + [f], r)
  {
    if r.Ok? {
      assert [] + r.value == r.value && fs + ([f] + r.value) == fs + [f] + r.value;
    }
    assert fs + [] == fs;
  }

  method ControllerFields(raw: string) returns (r: Result<seq<Field>>)
    ensures r == TableOf(raw)
  {
    hide FieldsOf, SkipBlank, FirstField, Find, Prepend, Cons;
    var marker := Find(raw, MARKER);
    if marker.None? { return Err(InvalidArgument); }
    var start := marker.value + |MARKER|;
    var cursor, fields := start, [];
    PrependLaws([], Field("", ""), FieldsOf(raw[start..]));
    while true
      invariant start <= cursor <= |raw|
      invariant FieldsOf(raw[start..]) == Prepend(fields, FieldsOf(raw[cursor..]))
      decreases |raw| - cursor
    {
      FieldsUnfold(raw[cursor..]);
      cursor := SkipWhitespace(raw, cursor);
      PrependLaws(fields, Field("", ""), Ok([]));
      if cursor < |raw| && raw[cursor] == '}' { return Ok(fields); }
      var field := ReadField(raw, cursor);
      if field.None? {
        PrependFails(fields);
        return Err(InvalidArgument);
      }
      PrependLaws(fields, field.value.0, FieldsOf(raw[field.value.1..]));
      fields := fields + [field.value.0];
      cursor := field.value.1;
    }
  }

  lemma PrependFails(fs: seq<Field>)
    ensures Prepend(fs, Err(InvalidArgument)) == Err(InvalidArgument)
  {
  }

  lemma FieldsUnfold(s: string)
    ensures
      var rest := SkipBlank(s);
      FieldsOf(s) ==
        if rest != "" && rest[0] == '}' then Ok([])
        else if FirstField(rest).None? then Err(InvalidArgument)
        else Cons(FirstField(rest).value.0, FieldsOf(FirstField(rest).value.1))
  {
    SkipBlankShrinks(s);
  }

  // ---- Printing a table

  datatype Row = Row(gap: string, name: Padded, type_: Padded) {
    function Print(): string {
      gap + "pub " + name.Print() + ":" + type_.Print() + ","
    }
  }

  predicate Sound(r: Row) {
    && AllBlank(r.gap) && AllBlank(r.name.before) && AllBlank(r.name.after) && Trimmed(r.name.text)
    && ':' !in r.name.text && Printable(true, r.type_)
  }

  function PrintRows(rows: seq<Row>): string {
    if rows == [] then "" else rows[0].Print() + PrintRows(rows[1..])
  }

  function Fields(rows: seq<Row>): seq<Field> {
    seq(|rows|, i requires 0 <= i < |rows| => Field(rows[i].name.text, rows[i].type_.text))
  }

  lemma {:induction false} TypeTakesJoined(s: string, rest: string, prev: char, d: Depth)
    requires Joined(true, prev, s, d) && Scan(true, prev, s, d) == ZERO
    ensures TypeLength(s + "," + rest, prev, d) == Some(|s|)
    decreases |s|
  {
    if s == "" {
      assert (s + "," + rest)[0] == ',';
    } else {
      assert (s + "," + rest)[1..] == s[1..] + "," + rest;
      TypeTakesJoined(s[1..], rest, s[0], Step(true, prev, s[0], d));
    }
  }

  lemma {:induction false} SkipBlankSkips(pad: string, s: string)
    requires AllBlank(pad) && s != "" && !IsBlank(s[0])
    ensures SkipBlank(pad + s) == s
    decreases |pad|
  {
    if pad == "" {
      assert pad + s == s;
    } else {
      assert (pad + s)[1..] == pad[1..] + s;
      SkipBlankSkips(pad[1..], s);
    }
  }

  lemma FirstColon(name: string, rest: string)
    requires ':' !in name
    ensures Find(name + ":" + rest, ":") == Some(|name|)
  {
    assert "" + [':'] == ":";
    NoColon(name);
    FirstOccurrence(name, "", ':', rest);
  }

  lemma NoColon(name: string)
    requires ':' !in name
    ensures Find(name, ":").None?
  {
    forall i | 0 <= i <= |name| ensures !StartsWith(name[i..], ":") {
      if i < |name| {
        assert name[i..][0] == name[i];
      }
    }
  }

  lemma RowComesFirst(row: Row, tail: string)
    requires Sound(row)
    ensures FirstField("pub " + row.name.Print() + ":" + row.type_.Print() + "," + tail)
            == Some((Field(row.name.text, row.type_.text), tail))
  {
    hide Find, Trim, TypeLength, Closed;
    var name, type_ := row.name.Print(), row.type_.Print();
    var s := "pub " + name + ":" + type_ + "," + tail;
    assert s[..4] == "pub ";
    assert s[4..] == name + ":" + (type_ + "," + tail);
    NoColonInPadding(row.name);
    FirstColon(name, type_ + "," + tail);
    assert (name + ":" + (type_ + "," + tail))[|name| + 1..] == type_ + "," + tail;
    assert (name + ":" + (type_ + "," + tail))[..|name|] == name;
    TypeEnds(row.type_, tail);
    TrimUndoesPadding(row.name.before, row.name.text, row.name.after);
    TrimUndoesPadding(row.type_.before, row.type_.text, row.type_.after);
    assert (type_ + "," + tail)[..|type_|] == type_ && (type_ + "," + tail)[|type_| + 1..] == tail;
  }

  lemma NoColonInPadding(p: Padded)
    requires AllBlank(p.before) && AllBlank(p.after) && ':' !in p.text
    ensures ':' !in p.Print()
  {
  }

  lemma TypeEnds(p: Padded, tail: string)
    requires Printable(true, p)
    ensures TypeLength(p.Print() + "," + tail, ':', ZERO) == Some(|p.Print()|)
  {
    PaddingStaysClosed(true, p.before, p.text, p.after);
    PrevIsIrrelevant(true, ',', ':', p.Print());
    TypeTakesJoined(p.Print(), tail, ':', ZERO);
  }

  lemma RowIsRead(row: Row, tail: string)
    requires Sound(row)
    ensures FieldsOf(row.Print() + tail) == Cons(Field(row.name.text, row.type_.text), FieldsOf(tail))
  {
    hide FieldsOf, SkipBlank, FirstField, Closed;
    var body := "pub " + row.name.Print() + ":" + row.type_.Print() + "," + tail;
    assert row.Print() + tail == row.gap + body;
    FieldsUnfold(row.Print() + tail);
    SkipBlankSkips(row.gap, body);
    RowComesFirst(row, tail);
  }

  lemma EndIsRead(gap: string, rest: string)
    requires AllBlank(gap)
    ensures FieldsOf(gap + "}" + rest) == Ok([])
  {
    hide SkipBlank, FirstField;
    assert gap + "}" + rest == gap + ("}" + rest);
    FieldsUnfold(gap + "}" + rest);
    SkipBlankSkips(gap, "}" + rest);
  }

  lemma {:induction false} FieldsUndoRows(rows: seq<Row>, gap: string, rest: string)
    requires (forall i :: 0 <= i < |rows| ==> Sound(rows[i])) && AllBlank(gap)
    ensures FieldsOf(PrintRows(rows) + gap + "}" + rest) == Ok(Fields(rows))
    decreases |rows|
  {
    hide FieldsOf, Sound;
    if rows == [] {
      assert PrintRows(rows) + gap + "}" + rest == gap + "}" + rest;
      EndIsRead(gap, rest);
    } else {
      var tail := PrintRows(rows[1..]) + gap + "}" + rest;
      assert PrintRows(rows) + gap + "}" + rest == rows[0].Print() + tail;
      RowIsRead(rows[0], tail);
      FieldsUndoRows(rows[1..], gap, rest);
      assert Fields(rows) == [Field(rows[0].name.text, rows[0].type_.text)] + Fields(rows[1..]);
    }
  }

  const STEM: string := "pub struct ARADocumentControllerInterface "

  lemma FirstMarker(head: string, rest: string)
    requires Find(head, MARKER).None?
    ensures Find(head + MARKER + rest, MARKER) == Some(|head|)
  {
    hide Find;
    assert STEM + ['{'] == MARKER;
    assert '{' !in STEM;
    FirstOccurrence(head, STEM, '{', rest);
  }

  lemma TableStarts(head: string, body: string)
    requires Find(head, MARKER).None?
    ensures TableOf(head + MARKER + body) == FieldsOf(body)
  {
    hide Find, FieldsOf, MARKER;
    FirstMarker(head, body);
    assert (head + MARKER + body)[|head| + |MARKER|..] == body;
  }

  // Reading a printed table gives every name and type, wherever in the bindings the struct first is.
  lemma TableUndoesPrint(head: string, rows: seq<Row>, gap: string, rest: string)
    requires (forall i :: 0 <= i < |rows| ==> Sound(rows[i])) && AllBlank(gap)
    requires Find(head, MARKER).None?
    ensures TableOf(head + MARKER + PrintRows(rows) + gap + "}" + rest) == Ok(Fields(rows))
  {
    hide TableOf, FieldsOf, Find, Sound, Fields, PrintRows, MARKER;
    var body := PrintRows(rows) + gap + "}" + rest;
    assert head + MARKER + PrintRows(rows) + gap + "}" + rest == head + MARKER + body;
    TableStarts(head, body);
    FieldsUndoRows(rows, gap, rest);
  }

  // ---- Names

  predicate IsUpper(c: char) { 'A' <= c <= 'Z' }

  function Lower(c: char): char {
    if IsUpper(c) then (c as int + 32) as char else c
  }

  function SnakeTail(name: string): string {
    if name == "" then ""
    else (if IsUpper(name[0]) then "_" else "") + [Lower(name[0])] + SnakeTail(name[1..])
  }

  function Snake(name: string): string {
    if name == "" then "" else [Lower(name[0])] + SnakeTail(name[1..])
  }

  method ToSnake(name: string) returns (output: string)
    ensures output == Snake(name)
  {
    output := "";
    for index := 0 to |name|
      invariant index == 0 ==> output == ""
      invariant index > 0 ==> Snake(name) == output + SnakeTail(name[index..])
    {
      assert index > 0 ==> name[index..][1..] == name[index + 1..];
      if IsUpper(name[index]) && index != 0 {
        output := output + "_";
      }
      output := output + [Lower(name[index])];
    }
  }

  // The inverse on names in camel case.
  function Upper(c: char): char {
    if 'a' <= c <= 'z' then (c as int - 32) as char else c
  }

  function Camel(s: string): string
    decreases |s|
  {
    if s == "" then ""
    else if s[0] == '_' && |s| > 1 then [Upper(s[1])] + Camel(s[2..])
    else [s[0]] + Camel(s[1..])
  }

  lemma {:induction false} CamelUndoesTail(name: string)
    requires '_' !in name
    ensures Camel(SnakeTail(name)) == name
    decreases |name|
  {
    if name != "" {
      CamelUndoesTail(name[1..]);
      var tail := SnakeTail(name[1..]);
      if IsUpper(name[0]) {
        var s := "_" + [Lower(name[0])] + tail;
        assert SnakeTail(name) == s && s[2..] == tail;
      } else {
        var s := [name[0]] + tail;
        assert SnakeTail(name) == s && s[1..] == tail;
      }
    }
  }

  predicate CamelCase(name: string) {
    '_' !in name && (name == "" || !IsUpper(name[0]))
  }

  // No two callbacks get the same name: names without underscores that do not start in upper case.
  lemma SnakeIsInjective(a: string, b: string)
    requires CamelCase(a) && CamelCase(b) && Snake(a) == Snake(b)
    ensures a == b
  {
    CamelUndoesTail(a);
    CamelUndoesTail(b);
    assert a != "" ==> Snake(a) == SnakeTail(a);
    assert b != "" ==> Snake(b) == SnakeTail(b);
  }

  // Without either condition two names can collide.
  lemma SnakeForgets()
    ensures Snake("Ab") == Snake("ab") && Snake("a_b") == Snake("aB")
  {
    assert "Ab"[1..] == "b" == "ab"[1..] && "a_b"[1..] == "_b" && "_b"[1..] == "b" && "aB"[1..] == "B";
    assert "b"[1..] == "" && "B"[1..] == "";
  }
}
