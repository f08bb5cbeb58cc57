// Reading the callback table of the generated bindings (xtask/src/plugin_dispatch.rs): splitting
// parameter lists, taking signatures apart, and reading the fields of a struct.  Each loop is proved
// against a function on the text, and each function is proved to undo a printer.
module Signatures {
  import opened Prelude
  import opened Delimiters

  // ---- Splitting a parameter list

  function Kept(piece: string): seq<string> {
    if Trim(piece) == "" then [] else [Trim(piece)]
  }

  // The pieces of `acc + rest`, of which `acc` is scanned already.
  function Cut(acc: string, rest: string, prev: char, d: Depth): seq<string>
    decreases |rest|
  {
    if rest == "" then Kept(acc)
    else if rest[0] == ',' && d == ZERO then Kept(acc) + Cut("", rest[1..], ',', ZERO)
    else Cut(acc + [rest[0]], rest[1..], rest[0], Step(false, prev, rest[0], d))
  }

  function Split(parameters: string): seq<string> {
    if Trim(parameters) == "" then [] else Cut("", parameters, ',', ZERO)
  }

  // The byte before a cursor; at the start there is none, and anything but a dash will do.
  function Before(s: string, cursor: nat): char
    requires cursor <= |s|
  {
    if cursor == 0 then ',' else s[cursor - 1]
  }

  lemma CutUnfolds(acc: string, rest: string, prev: char, d: Depth)
    ensures rest == "" ==> Cut(acc, rest, prev, d) == Kept(acc)
    ensures rest != "" && rest[0] == ',' && d == ZERO ==>
              Cut(acc, rest, prev, d) == Kept(acc) + Cut("", rest[1..], ',', ZERO)
    ensures rest != "" && !(rest[0] == ',' && d == ZERO) ==>
              Cut(acc, rest, prev, d) == Cut(acc + [rest[0]], rest[1..], rest[0], Step(false, prev, rest[0], d))
  {
  }

  method SplitParameters(parameters: string) returns (result: seq<string>)
    ensures result == Split(parameters)
  {
    hide Cut, Trim;
    if Trim(parameters) == "" { return []; }
    result := [];
    var start, angle, paren := 0, 0, 0;
    assert parameters[0..0] == "" && parameters[0..] == parameters;
    for cursor := 0 to |parameters|
      invariant 0 <= start <= cursor
      invariant Cut("", parameters, ',', ZERO) ==
                result + Cut(parameters[start..cursor], parameters[cursor..], Before(parameters, cursor),
                             Depth(angle, paren, 0))
    {
      var byte := parameters[cursor];
      CutUnfolds(parameters[start..cursor], parameters[cursor..], Before(parameters, cursor), Depth(angle, paren, 0));
      assert parameters[cursor..][0] == byte && parameters[cursor..][1..] == parameters[cursor + 1..];
      assert parameters[start..cursor] + [byte] == parameters[start..cursor + 1];
      if byte == '<' {
        angle := angle + 1;
      } else if byte == '>' && angle > 0 && Before(parameters, cursor) != '-' {
        angle := angle - 1;
      } else if byte == '(' {
        paren := paren + 1;
      } else if byte == ')' {
        paren := paren - 1;
      } else if byte == ',' && angle == 0 && paren == 0 {
        var parameter := Trim(parameters[start..cursor]);
        if parameter != "" {
          result := result + [parameter];
        }
        start := cursor + 1;
        assert parameters[start..start] == "";
      }
    }
    CutUnfolds(parameters[start..], "", Before(parameters, |parameters|), Depth(angle, paren, 0));
    assert parameters[start..|parameters|] == parameters[start..] && parameters[|parameters|..] == "";
    var parameter := Trim(parameters[start..]);
    if parameter != "" {
      result := result + [parameter];
    }
  }

  // ---- Printing one: any padding around each parameter, with or without a trailing comma

  datatype Padded = Padded(before: string, text: string, after: string) {
    function Print(): string { before + text + after }
  }

  predicate Printable(brackets: bool, p: Padded) {
    AllBlank(p.before) && AllBlank(p.after) && Trimmed(p.text) && Closed(brackets, p.text)
  }

  predicate AllPrintable(ps: seq<Padded>) {
    forall i :: 0 <= i < |ps| ==> Printable(false, ps[i])
  }

  function Texts(ps: seq<Padded>): seq<string> {
    seq(|ps|, i requires 0 <= i < |ps| => ps[i].text)
  }

  // `trailer`: what follows the last parameter, after a trailing comma if there is one.
  function PrintList(ps: seq<Padded>, trailer: Option<string>): string {
    if ps == [] then (if trailer.Some? then trailer.value else "")
    else if |ps| == 1 && trailer.None? then ps[0].Print()
    else ps[0].Print() + "," + PrintList(ps[1..], trailer)
  }

  predicate GoodTrailer(trailer: Option<string>) {
    trailer.Some? ==> AllBlank(trailer.value)
  }

  lemma {:induction false} CutTakesJoined(acc: string, p: string, rest: string, prev: char, d: Depth)
    requires Joined(false, prev, p, d)
    ensures Cut(acc, p + rest, prev, d) ==
            Cut(acc + p, rest, if p == "" then prev else p[|p| - 1], Scan(false, prev, p, d))
    decreases |p|
  {
    if p == "" {
      assert p + rest == rest && acc + p == acc;
    } else {
      assert (p + rest)[1..] == p[1..] + rest && (p + rest)[0] == p[0];
      CutTakesJoined(acc + [p[0]], p[1..], rest, p[0], Step(false, prev, p[0], d));
      assert acc + [p[0]] + p[1..] == acc + p;
    }
  }

  lemma CutLast(p: Padded)
    requires Printable(false, p)
    ensures Cut("", p.Print(), ',', ZERO) == [p.text]
  {
    hide Trim;
    PaddingStaysClosed(false, p.before, p.text, p.after);
    TrimUndoesPadding(p.before, p.text, p.after);
    CutTakesJoined("", p.Print(), "", ',', ZERO);
    assert p.Print() + "" == p.Print() && "" + p.Print() == p.Print();
  }

  lemma CutNext(p: Padded, tail: string)
    requires Printable(false, p)
    ensures Cut("", p.Print() + "," + tail, ',', ZERO) == [p.text] + Cut("", tail, ',', ZERO)
  {
    hide Trim;
    PaddingStaysClosed(false, p.before, p.text, p.after);
    TrimUndoesPadding(p.before, p.text, p.after);
    CutTakesJoined("", p.Print(), "," + tail, ',', ZERO);
    assert p.Print() + "," + tail == p.Print() + ("," + tail) && "" + p.Print() == p.Print();
    assert ("," + tail)[1..] == tail;
  }

  lemma CutTrailer(pad: string)
    requires AllBlank(pad)
    ensures Cut("", pad, ',', ZERO) == []
  {
    BlankIsClosed(false, ',', pad, ZERO);
    CutTakesJoined("", pad, "", ',', ZERO);
    assert pad + "" == pad && "" + pad == pad;
    BlankTrimsToNothing(pad);
  }

  lemma {:induction false} CutUndoesPrint(ps: seq<Padded>, trailer: Option<string>)
    requires AllPrintable(ps) && GoodTrailer(trailer)
    ensures Cut("", PrintList(ps, trailer), ',', ZERO) == Texts(ps)
    decreases |ps|
  {
    hide Cut, Closed, Trimmed;
    if ps == [] {
      CutTrailer(if trailer.Some? then trailer.value else "");
    } else {
      assert Texts(ps) == [ps[0].text] + Texts(ps[1..]);
      if |ps| == 1 && trailer.None? {
        CutLast(ps[0]);
      } else {
        CutNext(ps[0], PrintList(ps[1..], trailer));
        CutUndoesPrint(ps[1..], trailer);
      }
    }
  }

  // Splitting a printed list gives the list, however it is padded and with or without a trailing comma.
  lemma SplitUndoesPrint(ps: seq<Padded>, trailer: Option<string>)
    requires AllPrintable(ps) && GoodTrailer(trailer)
    ensures Split(PrintList(ps, trailer)) == Texts(ps)
  {
    CutUndoesPrint(ps, trailer);
    var printed := PrintList(ps, trailer);
    if Trim(printed) == "" {
      TrimmedAwayIsBlank(printed);
      BlankCutsToNothing(printed);
    }
  }

  lemma {:induction false} TrimmedAwayIsBlank(s: string)
    requires Trim(s) == ""
    ensures forall i :: 0 <= i < |s| ==> IsSpace(s[i])
    decreases |s|
  {
    if s != "" {
      if IsSpace(s[0]) {
        TrimmedAwayIsBlank(s[1..]);
      } else {
        KeepsFirst(s);
      }
    }
  }

  lemma {:induction false} KeepsFirst(s: string)
    requires s != "" && !IsSpace(s[0])
    ensures TrimEnd(s) != ""
    decreases |s|
  {
    if IsSpace(s[|s| - 1]) {
      KeepsFirst(s[..|s| - 1]);
    }
  }

  lemma BlankCutsToNothing(s: string)
    requires (forall i :: 0 <= i < |s| ==> IsSpace(s[i])) && Trim(s) == ""
    ensures Cut("", s, ',', ZERO) == []
  {
    SpacesAreJoined(',', s, ZERO);
    CutTakesJoined("", s, "", ',', ZERO);
    assert s + "" == s && "" + s == s;
  }

  lemma {:induction false} SpacesAreJoined(prev: char, s: string, d: Depth)
    requires forall i :: 0 <= i < |s| ==> IsSpace(s[i])
    ensures Joined(false, prev, s, d)
    decreases |s|
  {
    if s != "" {
      SpacesAreJoined(s[0], s[1..], Step(false, prev, s[0], d));
    }
  }

  // ---- Taking a signature apart

  datatype Parts = Parts(parameters: seq<string>, result: Option<string>)

  // Where the parenthesis that encloses the text is closed.
  function CloseOf(s: string, depth: nat): (r: Option<nat>)
    ensures r.Some? ==> r.value < |s| && s[r.value] == ')'
    decreases |s|
  {
    if s == "" then None
    else if s[0] == ')' && depth == 0 then Some(0)
    else
      Later(CloseOf(s[1..], Inside(s[0], depth)), 1)
  }

  function ReturnOf(tail: string): Option<string> {
    if StartsWith(Trim(tail), "->") then Some(Trim(Trim(tail)[2..])) else None
  }

  // Absent where the source panics: no `fn(`, or a parameter list that never ends.
  function PartsOf(signature: string): Option<Parts> {
    var at := Find(signature, "fn(");
    if at.None? then None else
    var inner := signature[at.value + 3..];
    var close := CloseOf(inner, 0);
    if close.None? then None
    else Some(Parts(Split(inner[..close.value]), ReturnOf(inner[close.value + 1..])))
  }

  function Inside(c: char, depth: nat): nat
    requires !(c == ')' && depth == 0)
  {
    if c == '(' then depth + 1 else if c == ')' then depth - 1 else depth
  }

  function Later(r: Option<nat>, n: nat): Option<nat> {
    if r.Some? then Some(r.value + n) else None
  }

  lemma CloseUnfolds(s: string, depth: nat)
    ensures s == "" ==> CloseOf(s, depth) == None
    ensures s != "" && s[0] == ')' && depth == 0 ==> CloseOf(s, depth) == Some(0)
    ensures s != "" && !(s[0] == ')' && depth == 0) ==>
              CloseOf(s, depth) == Later(CloseOf(s[1..], Inside(s[0], depth)), 1)
  {
  }

  method SignatureParts(signature: string) returns (r: Option<Parts>)
    ensures r == PartsOf(signature)
  {
    hide Split, ReturnOf, CloseOf, Find;
    var at := Find(signature, "fn(");
    if at.None? { return None; }
    var open := at.value + 2;
    ghost var inner := signature[open + 1..];
    var cursor, depth := open + 1, 0;
    while cursor < |signature| && !(signature[cursor] == ')' && depth == 0)
      invariant open + 1 <= cursor <= |signature| && depth >= 0
      invariant CloseOf(inner, 0) == Later(CloseOf(signature[cursor..], depth), cursor - open - 1)
    {
      CloseUnfolds(signature[cursor..], depth);
      assert signature[cursor..][1..] == signature[cursor + 1..];
      if signature[cursor] == '(' {
        depth := depth + 1;
      } else if signature[cursor] == ')' {
        depth := depth - 1;
      }
      cursor := cursor + 1;
    }
    CloseUnfolds(signature[cursor..], depth);
    if cursor == |signature| { return None; }
    var parameters := SplitParameters(signature[open + 1..cursor]);
    assert inner[..cursor - open - 1] == signature[open + 1..cursor];
    assert inner[cursor - open..] == signature[cursor + 1..];
    return Some(Parts(parameters, ReturnOf(signature[cursor + 1..])));
  }

  // The parenthesis depth after a text, absent if it closes what it has not opened.
  function Nesting(s: string, depth: nat): Option<nat>
    decreases |s|
  {
    if s == "" then Some(depth)
    else if s[0] == ')' && depth == 0 then None
    else Nesting(s[1..], Inside(s[0], depth))
  }

  predicate Nested(s: string) {
    Nesting(s, 0) == Some(0)
  }

  lemma {:induction false} CloseSkipsNested(s: string, rest: string, depth: nat)
    requires Nesting(s, depth).Some?
    ensures CloseOf(s + rest, depth) == Later(CloseOf(rest, Nesting(s, depth).value), |s|)
    decreases |s|
  {
    if s == "" {
      assert s + rest == rest;
    } else {
      assert (s + rest)[1..] == s[1..] + rest;
      CloseSkipsNested(s[1..], rest, Inside(s[0], depth));
    }
  }

  lemma {:induction false} NestingAppend(a: string, b: string, depth: nat)
    requires Nesting(a, depth).Some?
    ensures Nesting(a + b, depth) == Nesting(b, Nesting(a, depth).value)
    decreases |a|
  {
    if a == "" {
      assert a + b == b;
    } else {
      assert (a + b)[1..] == a[1..] + b;
      NestingAppend(a[1..], b, Inside(a[0], depth));
    }
  }

  lemma {:induction false} BlankIsNested(pad: string)
    requires AllBlank(pad)
    ensures Nested(pad)
    decreases |pad|
  {
    if pad != "" {
      BlankIsNested(pad[1..]);
    }
  }

  lemma PaddedIsNested(p: Padded)
    requires AllBlank(p.before) && AllBlank(p.after) && Nested(p.text)
    ensures Nested(p.Print())
  {
    BlankIsNested(p.before);
    BlankIsNested(p.after);
    NestingAppend(p.before, p.text, 0);
    NestingAppend(p.before + p.text, p.after, 0);
  }

  lemma {:induction false} ListIsNested(ps: seq<Padded>, trailer: Option<string>)
    requires GoodTrailer(trailer)
    requires forall i :: 0 <= i < |ps| ==> AllBlank(ps[i].before) && AllBlank(ps[i].after) && Nested(ps[i].text)
    ensures Nested(PrintList(ps, trailer))
    decreases |ps|
  {
    if ps == [] {
      BlankIsNested(if trailer.Some? then trailer.value else "");
    } else {
      PaddedIsNested(ps[0]);
      if !(|ps| == 1 && trailer.None?) {
        ListIsNested(ps[1..], trailer);
        NestingAppend(ps[0].Print(), ",", 0);
        NestingAppend(ps[0].Print() + ",", PrintList(ps[1..], trailer), 0);
      }
    }
  }

  // The end of a signature: padding, or an arrow and the return type.
  datatype Tail = NoReturn(pad: string) | Returns(pad: string, type_: Padded) {
    function Print(): string {
      match this
      case NoReturn(pad) => pad
      case Returns(pad, t) => pad + "->" + t.Print()
    }
    predicate Good() {
      AllBlank(pad) && (Returns? ==> AllBlank(type_.before) && AllBlank(type_.after) && Trimmed(type_.text))
    }
    function Type(): Option<string> {
      if Returns? then Some(type_.text) else None
    }
  }

  lemma ReturnUndoesPrint(tail: Tail)
    requires tail.Good()
    ensures ReturnOf(tail.Print()) == tail.Type()
  {
    match tail
    case NoReturn(pad) => BlankTrimsToNothing(pad);
    case Returns(pad, t) =>
      var core := "->" + t.before + t.text;
      assert tail.Print() == pad + core + t.after;
      TrimUndoesPadding(pad, core, t.after);
      assert core[2..] == t.before + t.text + "";
      TrimUndoesPadding(t.before, t.text, "");
  }

  function PrintSignature(head: string, ps: seq<Padded>, trailer: Option<string>, tail: Tail): string {
    head + "fn(" + PrintList(ps, trailer) + ")" + tail.Print()
  }

  predicate AllNested(ps: seq<Padded>) {
    forall i :: 0 <= i < |ps| ==> Nested(ps[i].text)
  }

  lemma OpenIsFound(head: string, inner: string)
    requires Find(head, "fn(").None?
    ensures Find(head + "fn(" + inner, "fn(") == Some(|head|) && (head + "fn(" + inner)[|head| + 3..] == inner
  {
    hide Find;
    assert "fn" + ['('] == "fn(";
    FirstOccurrence(head, "fn", '(', inner);
  }

  lemma CloseIsFound(list: string, tail: string)
    requires Nested(list)
    ensures
      var inner := list + ")" + tail;
      CloseOf(inner, 0) == Some(|list|) && inner[..|list|] == list && inner[|list| + 1..] == tail
  {
    hide CloseOf;
    CloseSkipsNested(list, ")" + tail, 0);
    assert list + ")" + tail == list + (")" + tail);
    CloseUnfolds(")" + tail, 0);
  }

  lemma PartsOfPieces(head: string, list: string, tail: string)
    requires Find(head, "fn(").None? && Nested(list)
    ensures PartsOf(head + "fn(" + list + ")" + tail) == Some(Parts(Split(list), ReturnOf(tail)))
  {
    hide Find, Split, ReturnOf, CloseOf;
    assert head + "fn(" + list + ")" + tail == head + "fn(" + (list + ")" + tail);
    OpenIsFound(head, list + ")" + tail);
    CloseIsFound(list, tail);
  }

  // Taking a printed signature apart gives its parameters and its return type.
  lemma PartsUndoPrint(head: string, ps: seq<Padded>, trailer: Option<string>, tail: Tail)
    requires Find(head, "fn(").None? && AllPrintable(ps) && AllNested(ps) && GoodTrailer(trailer) && tail.Good()
    ensures PartsOf(PrintSignature(head, ps, trailer, tail)) == Some(Parts(Texts(ps), tail.Type()))
  {
    hide Find, Split, ReturnOf, Closed, Trimmed, PrintList, PartsOf;
    ListIsNested(ps, trailer);
    PartsOfPieces(head, PrintList(ps, trailer), tail.Print());
    SplitUndoesPrint(ps, trailer);
    ReturnUndoesPrint(tail);
  }

  // ---- The signature of an optional callback field

  const OPTION: string := "::std::option::Option<"

  // Absent where the source panics.
  function CallbackSignature(fieldType: string): Option<string> {
    var t := Trim(fieldType);
    if !StartsWith(t, OPTION) then None else
    var value := t[|OPTION|..];
    if value == "" || value[|value| - 1] != '>' then None else
    var inner := Trim(value[..|value| - 1]);
    if inner != "" && inner[|inner| - 1] == ',' then Some(Trim(inner[..|inner| - 1])) else Some(Trim(inner))
  }

  // With or without a trailing comma inside the option.
  lemma CallbackUndoesPrint(outer: string, p: Padded, comma: bool, after: string, end: string)
    requires AllBlank(outer) && AllBlank(p.before) && AllBlank(p.after) && AllBlank(after) && AllBlank(end)
    requires Trimmed(p.text) && p.text[|p.text| - 1] != ','
    ensures CallbackSignature(outer + OPTION + p.Print() + (if comma then "," else "") + after + ">" + end)
            == Some(p.text)
  {
    hide Trim;
    var middle := p.Print() + (if comma then "," else "") + after;
    var t := OPTION + middle + ">";
    assert outer + OPTION + p.Print() + (if comma then "," else "") + after + ">" + end == outer + t + end;
    TrimUndoesPadding(outer, t, end);
    assert t[|OPTION|..] == middle + ">";
    assert (middle + ">")[..|middle + ">"| - 1] == middle;
    if comma {
      var core := p.text + p.after + ",";
      assert middle == p.before + core + after;
      TrimUndoesPadding(p.before, core, after);
      assert core[..|core| - 1] == "" + p.text + p.after;
      TrimUndoesPadding("", p.text, p.after);
    } else {
      assert middle == p.before + p.text + (p.after + after);
      TrimUndoesPadding(p.before, p.text, p.after + after);
      assert p.text == "" + p.text + "";
      TrimUndoesPadding("", p.text, "");
    }
  }

  // A printed callback field of the interface gives back its parameters and its return type.
  lemma FieldIsReadBack(head: string, ps: seq<Padded>, trailer: Option<string>, tail: Tail,
                        outer: string, p: Padded, comma: bool, after: string, end: string)
    requires Find(head, "fn(").None? && AllPrintable(ps) && AllNested(ps) && GoodTrailer(trailer) && tail.Good()
    requires p.text == PrintSignature(head, ps, trailer, tail)
    requires AllBlank(outer) && AllBlank(p.before) && AllBlank(p.after) && AllBlank(after) && AllBlank(end)
    requires Trimmed(p.text) && p.text[|p.text| - 1] != ','
    ensures
      var field := outer + OPTION + p.Print() + (if comma then "," else "") + after + ">" + end;
      && CallbackSignature(field).Some?
      && PartsOf(CallbackSignature(field).value) == Some(Parts(Texts(ps), tail.Type()))
  {
    hide PartsOf, CallbackSignature, Trimmed, PrintList, Find;
    CallbackUndoesPrint(outer, p, comma, after, end);
    PartsUndoPrint(head, ps, trailer, tail);
  }
}
