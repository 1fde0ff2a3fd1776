/** What the scanner does to text built from its parts, stated without its reader:
    payloads of text, quoted strings and braces, and spans that hold none. */
module Payloads {
  import opened Redaction

  /** A piece of a payload; braces and the other quote mark may stand in a string. */
  datatype Piece =
    | Words(text: string)
    | Quoted(mark: char, inside: string)
    | Braces(pieces: seq<Piece>)

  /** No mark but after a backslash, and no backslash left without a character. */
  predicate Inside(t: string, mark: char)
    decreases |t|
  {
    t != "" ==>
      if t[0] == '\\' then |t| >= 2 && Inside(t[2..], mark)
      else t[0] != mark && Inside(t[1..], mark)
  }

  ghost predicate WellMade(p: Piece) {
    match p
    case Words(text) => forall c :: c in text ==> c != '{' && c != '}' && c != '"' && c != '\''
    case Quoted(mark, inside) => (mark == '"' || mark == '\'') && Inside(inside, mark)
    case Braces(inside) => forall q :: q in inside ==> WellMade(q)
  }

  function Render(p: Piece): string
    decreases p, 0
  {
    match p
    case Words(text) => text
    case Quoted(mark, inside) => [mark] + (inside + [mark])
    case Braces(inside) => "{" + (RenderAll(inside) + "}")
  }

  function RenderAll(ps: seq<Piece>): string
    decreases ps, 1
  {
    if ps == [] then "" else Render(ps[0]) + RenderAll(ps[1..])
  }

  // ------------------------------------------------------------ the reader

  /** Outside quotes a brace moves the depth by one, and any character that is
      neither brace nor quote leaves the reader where it is. */
  lemma BracesMove(r: Reader, c: char)
    requires !r.quoted
    ensures ReadChar(r, '{') == r.(depth := r.depth + 1) && ReadChar(r, '}') == r.(depth := r.depth - 1)
    ensures c != '{' && c != '}' && c != '"' && c != '\'' ==> ReadChar(r, c) == r
  {
  }

  lemma {:induction false} StringEnds(x: string, mark: char, y: string, r: Reader)
    requires mark == '"' || mark == '\''
    requires Inside(x, mark) && r.quoted && r.quote == mark && !r.escaped
    ensures ReadAll(r, x + [mark]) == r.(quoted := false)
    ensures DropFrom(x + ([mark] + y), r) == |x| + 1 + DropFrom(y, r.(quoted := false))
    decreases |x|
  {
    if x == "" {
      assert x + [mark] == [mark] && x + ([mark] + y) == [mark] + y && ([mark] + y)[1..] == y;
      assert [mark][1..] == "" && ReadAll(r, [mark]) == ReadAll(ReadChar(r, mark), "");
    } else {
      var s := ReadChar(r, x[0]);
      assert (x + [mark])[1..] == x[1..] + [mark] && (x + ([mark] + y))[1..] == x[1..] + ([mark] + y);
      if x[0] == '\\' {
        assert (x[1..] + [mark])[1..] == x[2..] + [mark] && (x[1..] + ([mark] + y))[1..] == x[2..] + ([mark] + y);
        assert ReadChar(s, x[1]) == r;
        StringEnds(x[2..], mark, y, r);
      } else {
        StringEnds(x[1..], mark, y, r);
      }
    }
  }

  /** Past a quoted string the reader is where it was before it. */
  lemma StringRead(x: string, mark: char, r: Reader)
    requires mark == '"' || mark == '\''
    requires Inside(x, mark) && !r.quoted && !r.escaped
    ensures ReadAll(r, [mark] + (x + [mark])) == r.(quote := mark)
  {
    assert ([mark] + (x + [mark]))[1..] == x + [mark];
    StringEnds(x, mark, "", ReadChar(r, mark));
  }

  /** Outside quotes it does not matter which mark was used last. */
  lemma {:induction false} MarkForgotten(y: string, r: Reader, mark: char)
    requires !r.quoted && !r.escaped
    ensures DropFrom(y, r.(quote := mark)) == DropFrom(y, r)
    decreases |y|
  {
    if y != "" && !(y[0] == '}' && r.depth == 1) && y[0] != '"' && y[0] != '\'' {
      MarkForgotten(y[1..], ReadChar(r, y[0]), mark);
    }
  }

  lemma {:induction false} WordsSkipped(x: string, y: string, r: Reader)
    requires WellMade(Words(x)) && !r.quoted
    ensures DropFrom(x + y, r) == |x| + DropFrom(y, r)
    decreases |x|
  {
    if x == "" {
      assert x + y == y;
    } else {
      assert (x + y)[1..] == x[1..] + y;
      assert x[0] in x && forall c :: c in x[1..] ==> c in x;
      BracesMove(r, x[0]);
      WordsSkipped(x[1..], y, r);
    }
  }

  lemma {:induction false} PieceSkipped(p: Piece, y: string, r: Reader)
    requires WellMade(p) && !r.quoted && !r.escaped && r.depth >= 1
    ensures DropFrom(Render(p) + y, r) == |Render(p)| + DropFrom(y, r)
    decreases p, 0
  {
    var t := Render(p) + y;
    match p
    case Words(text) => WordsSkipped(text, y, r);
    case Quoted(mark, inside) =>
      assert t[1..] == inside + ([mark] + y);
      StringEnds(inside, mark, y, ReadChar(r, mark));
      MarkForgotten(y, r, mark);
    case Braces(inside) =>
      var deeper, tail := r.(depth := r.depth + 1), "}" + y;
      assert t[1..] == RenderAll(inside) + tail && tail[1..] == y;
      BracesMove(r, '{');
      BracesMove(deeper, '}');
      PiecesSkipped(inside, tail, deeper);
  }

  lemma {:induction false} PiecesSkipped(ps: seq<Piece>, y: string, r: Reader)
    requires (forall p :: p in ps ==> WellMade(p)) && !r.quoted && !r.escaped && r.depth >= 1
    ensures DropFrom(RenderAll(ps) + y, r) == |RenderAll(ps)| + DropFrom(y, r)
    decreases ps, 1
  {
    if ps == [] {
      assert RenderAll(ps) + y == y;
    } else {
      var rest := RenderAll(ps[1..]) + y;
      assert RenderAll(ps) + y == Render(ps[0]) + rest;
      PieceSkipped(ps[0], rest, r);
      PiecesSkipped(ps[1..], y, r);
    }
  }

  // ---------------------------------------------------------- what is hidden

  function Payload(ps: seq<Piece>): string {
    "{" + (RenderAll(ps) + "}")
  }

  lemma PayloadRead(ps: seq<Piece>, y: string)
    requires forall p :: p in ps ==> WellMade(p)
    ensures DropFrom(Payload(ps) + y, START) == |Payload(ps)|
  {
    var t, open, tail := Payload(ps) + y, START.(depth := 1), "}" + y;
    assert t[0] == '{' && t[1..] == RenderAll(ps) + tail && tail[1..] == y;
    BracesMove(START, '{');
    PiecesSkipped(ps, tail, open);
  }

  /** Whatever is built of text, strings and braces is one payload to the scanner. */
  lemma PiecesMakePayload(ps: seq<Piece>)
    requires forall p :: p in ps ==> WellMade(p)
    ensures IsPayload(Payload(ps))
  {
    var p := Payload(ps);
    PayloadRead(ps, "!");
    DropIsShortestBalanced(p + "!");
    assert forall k :: 0 <= k <= |p| ==> (p + "!")[..k] == p[..k];
    assert p[..|p|] == p;
  }

  /** All of it goes, however its braces are nested and whatever braces and marks
      stand in its strings, and what follows is looked at on its own. */
  lemma PiecesHidden(blanks: string, ps: seq<Piece>, rest: string)
    requires forall c :: c in blanks ==> c == ' ' || c == '\t'
    requires forall p :: p in ps ==> WellMade(p)
    ensures Strip("details=" + blanks + Payload(ps) + rest) == "details=" + blanks + "<redacted>" + Strip(rest)
  {
    hide Strip, Payload, IsPayload;
    PiecesMakePayload(ps);
    assert AllBlank(blanks) by { assert forall i :: 0 <= i < |blanks| ==> blanks[i] in blanks; }
    PayloadHidden(blanks, Payload(ps), rest);
  }

  /** Such as a string that holds the brace that would end the payload. */
  lemma BraceInString(rest: string)
    ensures Strip("details=" + ("{" + ("\"}\"" + "}")) + rest) == "details=<redacted>" + Strip(rest)
  {
    hide Strip;
    var ps := [Quoted('"', "}")];
    assert Inside("}", '"') && ps[1..] == [];
    assert Render(ps[0]) == "\"}\"" && RenderAll(ps) == "\"}\"" + RenderAll([]);
    assert Payload(ps) == "{" + ("\"}\"" + "}");
    PiecesHidden("", ps, rest);
    assert "details=" + "" + Payload(ps) + rest == "details=" + Payload(ps) + rest;
    assert "details=" + "" + "<redacted>" == "details=<redacted>";
  }

  // ------------------------------------------------------- what is not hidden

  /** A span without payload is copied up to a comma, a closing parenthesis or a
      line end, and the scan goes on behind it. */
  lemma SpanEnds(x: string, end: char, after: string)
    requires end == ',' || end == ')' || end == '\n'
    requires forall c :: c in x ==> c != ',' && c != ')' && c != '\n'
    requires '{' !in x || (x[0] != '{' && x[0] != ' ' && x[0] != '\t')
    ensures Strip("details=" + x + [end] + after) == "details=" + x + [end] + Strip(after)
  {
    var t, n := "details=" + x + [end] + after, |NEEDLE| + |x|;
    Parts(x, end, after);
    NoPayloadIn(t, x, [end] + after);
    SpanIsPlain(t, x, n);
    hide Strip, HasPayload, Lead, PlainTo;
    SpanTo(t, n);
    Joined("details=" + x, [end], Strip(after));
  }

  lemma Joined(a: string, b: string, c: string)
    ensures a + (b + c) == a + b + c
  {
  }

  lemma SpanIsPlain(t: string, x: string, n: nat)
    requires NEEDLE <= t && n == |NEEDLE| + |x| < |t| && forall i :: |NEEDLE| <= i < n ==> t[i] == x[i - |NEEDLE|]
    requires t[n] == ',' || t[n] == ')' || t[n] == '\n'
    requires forall c :: c in x ==> c != ',' && c != ')' && c != '\n'
    ensures PlainTo(t, n)
  {
    forall i | 0 <= i < n
      ensures !IsTerminator(t[i])
    {
      if i >= |NEEDLE| { assert x[i - |NEEDLE|] in x; } else { assert t[i] == NEEDLE[i]; }
    }
  }

  lemma Parts(x: string, end: char, after: string)
    ensures var t, n := "details=" + x + [end] + after, |NEEDLE| + |x|;
            && NEEDLE <= t && t[|NEEDLE|..] == x + ([end] + after)
            && n < |t| && t[n] == end && t[..n] == "details=" + x && t[n + 1..] == after
            && forall i :: |NEEDLE| <= i < n ==> t[i] == x[i - |NEEDLE|]
  {
  }

  lemma SpanTo(t: string, n: nat)
    requires NEEDLE <= t && !HasPayload(t) && Lead(t) <= n && PlainTo(t, n)
    ensures Strip(t) == t[..n] + ([t[n]] + Strip(t[n + 1..]))
  {
    PlainStops(t, Lead(t), n);
    assert SpanEnd(t) == n;
    hide PlainRun, DropFrom, Lead, HasPayload, BlankRun;
    SpanSplits(t);
    assert t[n..][0] == t[n] && t[n..][1..] == t[n + 1..];
    GapCopied(t[n..]);
  }

  lemma NoPayloadIn(t: string, x: string, tail: string)
    requires NEEDLE <= t && t[|NEEDLE|..] == x + tail
    requires tail != "" && (tail[0] == ',' || tail[0] == ')' || tail[0] == '\n')
    requires '{' !in x || (x[0] != '{' && x[0] != ' ' && x[0] != '\t')
    ensures !HasPayload(t) && Lead(t) <= |NEEDLE| + |x|
  {
    var lead := BlankRun(x + tail);
    assert (x + tail)[|x|] == tail[0];
    if lead < |x| { assert (x + tail)[lead] == x[lead] && x[lead] in x; }
    assert t[Lead(t)] == (x + tail)[lead];
    if x != "" { assert (x + tail)[0] == x[0]; }
  }

  predicate PlainTo(t: string, n: nat) {
    n < |t| && IsTerminator(t[n]) && forall i :: 0 <= i < n ==> !IsTerminator(t[i])
  }

  lemma {:induction false} PlainStops(t: string, i: nat, n: nat)
    requires i <= n && PlainTo(t, n)
    ensures PlainRun(t[i..]) == n - i
    decreases n - i
  {
    assert t[i..][0] == t[i];
    if i < n {
      assert t[i..][1..] == t[i + 1..];
      PlainStops(t, i + 1, n);
    }
  }

  /** A text without `details=` comes back as it is. */
  lemma {:induction false} NothingToHide(t: string)
    requires forall k :: 0 <= k <= |t| ==> !("details=" <= t[k..])
    ensures Strip(t) == t
    decreases |t|
  {
    if t == "" {
      StripEmpty();
    } else {
      hide Strip;
      assert t[0..] == t;
      assert forall k :: 0 <= k <= |t| - 1 ==> t[1..][k..] == t[k + 1..];
      GapCopied(t);
      NothingToHide(t[1..]);
    }
  }

}
