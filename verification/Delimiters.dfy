// Text primitives and the nested-delimiter scanner of the C signature reader
// (xtask/src/plugin_dispatch.rs).  Text is ASCII, as the generated bindings are.
module Delimiters {
  import opened Prelude

  // What `u8::is_ascii_whitespace` accepts, and what `str::trim` removes.
  predicate IsBlank(c: char) {
    c == ' ' || c == '\t' || c == '\n' || c == '\r' || c == '\U{000C}'
  }

  predicate IsSpace(c: char) {
    IsBlank(c) || c == '\U{000B}'
  }

  predicate AllBlank(s: string) {
    forall i :: 0 <= i < |s| ==> IsBlank(s[i])
  }

  function TrimStart(s: string): string {
    if s != "" && IsSpace(s[0]) then TrimStart(s[1..]) else s
  }

  function TrimEnd(s: string): string {
    if s != "" && IsSpace(s[|s| - 1]) then TrimEnd(s[..|s| - 1]) else s
  }

  function Trim(s: string): string {
    TrimEnd(TrimStart(s))
  }

  predicate Trimmed(s: string) {
    s != "" && !IsSpace(s[0]) && !IsSpace(s[|s| - 1])
  }

  lemma {:induction false} TrimStartSkips(pad: string, s: string)
    requires AllBlank(pad)
    ensures TrimStart(pad + s) == TrimStart(s)
  {
    if pad == "" {
      assert pad + s == s;
    } else {
      TrimStartSkips(pad[1..], s);
      assert (pad + s)[1..] == pad[1..] + s;
    }
  }

  lemma {:induction false} TrimEndSkips(s: string, pad: string)
    requires AllBlank(pad)
    ensures TrimEnd(s + pad) == TrimEnd(s)
  {
    if pad == "" {
      assert s + pad == s;
    } else {
      TrimEndSkips(s, pad[..|pad| - 1]);
      assert (s + pad)[..|s + pad| - 1] == s + pad[..|pad| - 1];
    }
  }

  // Trimming removes exactly the padding of a trimmed text.
  lemma TrimUndoesPadding(before: string, text: string, after: string)
    requires AllBlank(before) && AllBlank(after) && Trimmed(text)
    ensures Trim(before + text + after) == text
  {
    assert before + text + after == before + (text + after);
    TrimStartSkips(before, text + after);
    assert TrimStart(text + after) == text + after;
    TrimEndSkips(text, after);
  }

  lemma BlankTrimsToNothing(pad: string)
    requires AllBlank(pad)
    ensures Trim(pad) == ""
  {
    assert pad + "" == pad;
    TrimStartSkips(pad, "");
  }

  predicate StartsWith(s: string, prefix: string) {
    |prefix| <= |s| && s[..|prefix|] == prefix
  }

  // The first occurrence of `pattern`, as `str::find`.
  function Find(s: string, pattern: string): (r: Option<nat>)
    ensures r.Some? ==> r.value + |pattern| <= |s| && StartsWith(s[r.value..], pattern)
    ensures r.Some? ==> forall i :: 0 <= i < r.value ==> !StartsWith(s[i..], pattern)
    ensures r.None? ==> forall i :: 0 <= i <= |s| ==> !StartsWith(s[i..], pattern)
  {
    if StartsWith(s, pattern) then Some(0)
    else if s == "" then None
    else
      var rest := Find(s[1..], pattern);
      assert forall i :: 0 < i <= |s| ==> s[i..] == s[1..][i - 1..];
      if rest.Some? then Some(rest.value + 1) else None
  }

  lemma FindIsFirst(s: string, pattern: string, k: nat)
    requires k <= |s| && StartsWith(s[k..], pattern)
    requires forall i :: 0 <= i < k ==> !StartsWith(s[i..], pattern)
    ensures Find(s, pattern) == Some(k)
  {
  }

  // In a head without it, a pattern whose last byte occurs only once does not begin: it cannot overlap
  // itself, and the first occurrence is the one that follows.
  lemma FirstOccurrence(head: string, stem: string, last: char, rest: string)
    requires last !in stem && Find(head, stem + [last]).None?
    ensures Find(head + (stem + [last]) + rest, stem + [last]) == Some(|head|)
  {
    var pattern := stem + [last];
    var s := head + pattern + rest;
    assert s[|head|..] == pattern + rest;
    forall i | 0 <= i < |head| ensures !StartsWith(s[i..], pattern) {
      if i + |pattern| <= |head| {
        assert s[i..][..|pattern|] == head[i..][..|pattern|];
      } else {
        var k := i + |pattern| - 1 - |head|;
        assert s[i..][..|pattern|][|pattern| - 1] == stem[k];
      }
    }
    FindIsFirst(s, pattern, |head|);
  }

  // ---- Depth of nesting

  datatype Depth = Depth(angle: int, paren: int, bracket: int)

  const ZERO := Depth(0, 0, 0)

  // The depth after one byte; a `>` closes only what was opened, and not as the end of an arrow.  The
  // parameter splitter does not track brackets.
  function Step(brackets: bool, prev: char, c: char, d: Depth): Depth {
    if c == '<' then d.(angle := d.angle + 1)
    else if c == '>' && d.angle > 0 && prev != '-' then d.(angle := d.angle - 1)
    else if c == '(' then d.(paren := d.paren + 1)
    else if c == ')' then d.(paren := d.paren - 1)
    else if c == '[' && brackets then d.(bracket := d.bracket + 1)
    else if c == ']' && brackets then d.(bracket := d.bracket - 1)
    else d
  }

  // The depth after a text that follows `prev`.
  function Scan(brackets: bool, prev: char, s: string, d: Depth): Depth
    decreases |s|
  {
    if s == "" then d else Scan(brackets, s[0], s[1..], Step(brackets, prev, s[0], d))
  }

  // No comma of the text is outside all delimiters.
  predicate Joined(brackets: bool, prev: char, s: string, d: Depth)
    decreases |s|
  {
    s == "" || (!(s[0] == ',' && d == ZERO) && Joined(brackets, s[0], s[1..], Step(brackets, prev, s[0], d)))
  }

  // A text that a scanner takes in one piece and leaves as it entered it.
  predicate Closed(brackets: bool, s: string) {
    Scan(brackets, ',', s, ZERO) == ZERO && Joined(brackets, ',', s, ZERO)
  }

  // At depth zero it does not matter what comes before.
  lemma PrevIsIrrelevant(brackets: bool, p: char, q: char, s: string)
    ensures Scan(brackets, p, s, ZERO) == Scan(brackets, q, s, ZERO)
    ensures Joined(brackets, p, s, ZERO) == Joined(brackets, q, s, ZERO)
  {
  }

  lemma {:induction false} ScanAppend(brackets: bool, prev: char, a: string, b: string, d: Depth)
    requires a != ""
    ensures Scan(brackets, prev, a + b, d) == Scan(brackets, a[|a| - 1], b, Scan(brackets, prev, a, d))
    ensures Joined(brackets, prev, a + b, d) <==>
            Joined(brackets, prev, a, d) && Joined(brackets, a[|a| - 1], b, Scan(brackets, prev, a, d))
    decreases |a|
  {
    assert (a + b)[1..] == a[1..] + b;
    if |a| > 1 {
      ScanAppend(brackets, a[0], a[1..], b, Step(brackets, prev, a[0], d));
    } else {
      assert a[1..] + b == b && a[1..] == "";
    }
  }

  lemma {:induction false} BlankIsClosed(brackets: bool, prev: char, pad: string, d: Depth)
    requires AllBlank(pad)
    ensures Scan(brackets, prev, pad, d) == d && Joined(brackets, prev, pad, d)
    decreases |pad|
  {
    if pad != "" {
      BlankIsClosed(brackets, pad[0], pad[1..], d);
    }
  }

  lemma PaddingStaysClosed(brackets: bool, before: string, text: string, after: string)
    requires AllBlank(before) && AllBlank(after) && Closed(brackets, text) && text != ""
    ensures Closed(brackets, before + text + after)
  {
    var padded := text + after;
    ScanAppend(brackets, ',', text, after, ZERO);
    BlankIsClosed(brackets, text[|text| - 1], after, ZERO);
    assert Closed(brackets, padded);
    assert before + text + after == before + padded;
    if before == "" {
      assert before + padded == padded;
    } else {
      BlankIsClosed(brackets, ',', before, ZERO);
      ScanAppend(brackets, ',', before, padded, ZERO);
      PrevIsIrrelevant(brackets, ',', before[|before| - 1], padded);
    }
  }

  // ---- The texts of types

  // Words, arrows, and groups of them in angle brackets, parentheses or square brackets.
  datatype Piece =
    | Word(text: string)
    | Arrow
    | Comma
    | Angle(inside: seq<Piece>)
    | Paren(inside: seq<Piece>)
    | Bracket(inside: seq<Piece>)

  predicate Plain(c: char) {
    c !in {'<', '>', '(', ')', '[', ']', ',', '-'}
  }

  // Commas are in a group that the scanner tracks.
  predicate GoodPiece(brackets: bool, grouped: bool, p: Piece)
    decreases p
  {
    match p
    case Word(text) => text != "" && forall c :: c in text ==> Plain(c)
    case Arrow => true
    case Comma => grouped
    case Angle(inside) => GoodPieces(brackets, true, inside)
    case Paren(inside) => GoodPieces(brackets, true, inside)
    case Bracket(inside) => GoodPieces(brackets, grouped || brackets, inside)
  }

  predicate GoodPieces(brackets: bool, grouped: bool, ps: seq<Piece>)
    decreases ps
  {
    ps == [] || (GoodPiece(brackets, grouped, ps[0]) && GoodPieces(brackets, grouped, ps[1..]))
  }

  function PrintPiece(p: Piece): string {
    match p
    case Word(text) => text
    case Arrow => "->"
    case Comma => ","
    case Angle(inside) => "<" + PrintPieces(inside) + ">"
    case Paren(inside) => "(" + PrintPieces(inside) + ")"
    case Bracket(inside) => "[" + PrintPieces(inside) + "]"
  }

  function PrintPieces(ps: seq<Piece>): string {
    if ps == [] then "" else PrintPiece(ps[0]) + PrintPieces(ps[1..])
  }

  // A depth that a scan of such a text is at: nothing is closed too often.
  predicate Proper(d: Depth) {
    d.angle >= 0 && d.paren >= 0 && d.bracket >= 0
  }

  // The last byte of a text that follows `prev`.
  function Last(prev: char, s: string): char {
    if s == "" then prev else s[|s| - 1]
  }

  // The scan of a text comes back to its depth, meets no comma outside, and does not end in half an arrow.
  predicate Returns(brackets: bool, prev: char, s: string, d: Depth) {
    && Scan(brackets, prev, s, d) == d && Joined(brackets, prev, s, d)
    && (prev != '-' ==> Last(prev, s) != '-')
  }

  lemma {:induction false} WordReturns(brackets: bool, prev: char, text: string, d: Depth)
    requires forall c :: c in text ==> Plain(c)
    ensures Returns(brackets, prev, text, d)
    decreases |text|
  {
    if text != "" {
      assert text[0] in text;
      WordReturns(brackets, text[0], text[1..], d);
    }
  }

  lemma AppendReturns(brackets: bool, prev: char, a: string, b: string, d: Depth)
    requires a != "" && prev != '-' && Returns(brackets, prev, a, d) && Returns(brackets, a[|a| - 1], b, d)
    ensures Returns(brackets, prev, a + b, d)
  {
    ScanAppend(brackets, prev, a, b, d);
  }

  // A group around a text that returns one level deeper.
  lemma GroupReturns(brackets: bool, prev: char, open: char, inside: string, close: char, d: Depth)
    requires Proper(d) && prev != '-'
    requires (open == '<' && close == '>') || (open == '(' && close == ')') || (open == '[' && close == ']')
    requires Returns(brackets, open, inside, Step(brackets, prev, open, d))
    ensures Returns(brackets, prev, [open] + inside + [close], d)
  {
    var deeper := Step(brackets, prev, open, d);
    assert Scan(brackets, Last(open, inside), [close], deeper) == d;
    assert [open] + inside + [close] == [open] + (inside + [close]);
    assert ([open] + (inside + [close]))[1..] == inside + [close];
    if inside != "" {
      ScanAppend(brackets, open, inside, [close], deeper);
    } else {
      assert inside + [close] == [close];
    }
  }

  lemma {:induction false} PieceReturns(brackets: bool, prev: char, p: Piece, d: Depth, grouped: bool)
    requires GoodPiece(brackets, grouped, p) && Proper(d) && prev != '-' && (grouped ==> d != ZERO)
    ensures PrintPiece(p) != "" && Returns(brackets, prev, PrintPiece(p), d)
    decreases p
  {
    match p
    case Word(text) => WordReturns(brackets, prev, text, d);
    case Arrow => assert "->"[1..] == ">" && ">"[1..] == "";
    case Comma => assert ","[1..] == "";
    case Angle(inside) =>
      PiecesReturn(brackets, '<', inside, Step(brackets, prev, '<', d), true);
      GroupReturns(brackets, prev, '<', PrintPieces(inside), '>', d);
    case Paren(inside) =>
      PiecesReturn(brackets, '(', inside, Step(brackets, prev, '(', d), true);
      GroupReturns(brackets, prev, '(', PrintPieces(inside), ')', d);
    case Bracket(inside) =>
      PiecesReturn(brackets, '[', inside, Step(brackets, prev, '[', d), grouped || brackets);
      GroupReturns(brackets, prev, '[', PrintPieces(inside), ']', d);
  }

  lemma {:induction false} PiecesReturn(brackets: bool, prev: char, ps: seq<Piece>, d: Depth, grouped: bool)
    requires GoodPieces(brackets, grouped, ps) && Proper(d) && prev != '-' && (grouped ==> d != ZERO)
    ensures Returns(brackets, prev, PrintPieces(ps), d)
    decreases ps
  {
    if ps != [] {
      PieceReturns(brackets, prev, ps[0], d, grouped);
      var head := PrintPiece(ps[0]);
      PiecesReturn(brackets, head[|head| - 1], ps[1..], d, grouped);
      AppendReturns(brackets, prev, head, PrintPieces(ps[1..]), d);
    }
  }

  // Every such text is closed, however deep its groups nest.
  lemma TypeTextsAreClosed(brackets: bool, ps: seq<Piece>)
    requires GoodPieces(brackets, false, ps)
    ensures Closed(brackets, PrintPieces(ps))
  {
    PiecesReturn(brackets, ',', ps, ZERO, false);
  }
}
