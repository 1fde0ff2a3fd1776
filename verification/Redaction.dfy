/** Redaction of `details={...}` payloads: the three-loop scanner, the recursive
    form it computes, and what the redacted text guarantees. */
module Redaction {

  const NEEDLE := "details="
  const REDACTED := "<redacted>"
  const TRUNCATED := "...<truncated>"

  predicate IsBlank(c: char) { c == ' ' || c == '\t' }

  /** The characters that end an unredacted `details=` span. */
  predicate IsTerminator(c: char) { c == ',' || c == ')' || c == '\n' }

  function BlankRun(t: string): (n: nat)
    ensures n <= |t|
    ensures forall i :: 0 <= i < n ==> IsBlank(t[i])
    ensures n < |t| ==> !IsBlank(t[n])
  {
    if t == "" || !IsBlank(t[0]) then 0 else 1 + BlankRun(t[1..])
  }

  function PlainRun(t: string): (n: nat)
    ensures n <= |t|
    ensures forall i :: 0 <= i < n ==> !IsTerminator(t[i])
    ensures n < |t| ==> IsTerminator(t[n])
  {
    if t == "" || IsTerminator(t[0]) then 0 else 1 + PlainRun(t[1..])
  }

  // ------------------------------------------------ the balanced-brace reader

  /** Where the reader stands: how many braces are open, inside which quote, and
      whether the last character was an escaping backslash. */
  datatype Reader = Reader(depth: int, quote: char, quoted: bool, escaped: bool)

  const START := Reader(0, ' ', false, false)

  function ReadChar(r: Reader, c: char): Reader {
    if r.quoted then
      if r.escaped then r.(escaped := false)
      else if c == '\\' then r.(escaped := true)
      else if c == r.quote then r.(quoted := false)
      else r
    else if c == '"' || c == '\'' then r.(quoted := true, quote := c)
    else if c == '{' then r.(depth := r.depth + 1)
    else if c == '}' then r.(depth := r.depth - 1)
    else r
  }

  function ReadAll(r: Reader, t: string): Reader
    decreases |t|
  {
    if t == "" then r else ReadAll(ReadChar(r, t[0]), t[1..])
  }

  /** Every brace is closed, braces inside quotes aside. */
  predicate Balanced(t: string) {
    t != "" && ReadAll(START, t).depth == 0 && !ReadAll(START, t).quoted
  }

  /** How much the scanner drops from here on, having read up to `r`. */
  function DropFrom(t: string, r: Reader): (n: nat)
    ensures n <= |t|
    ensures t != "" ==> n > 0
    decreases |t|
  {
    if t == "" then 0
    else if t[0] == '}' && !r.quoted && r.depth == 1 then 1
    else 1 + DropFrom(t[1..], ReadChar(r, t[0]))
  }

  lemma {:induction false} DropFromOpen(t: string, r: Reader)
    requires r.depth >= 1
    ensures forall k :: 0 <= k < DropFrom(t, r) ==> ReadAll(r, t[..k]).depth >= 1
    ensures var n := DropFrom(t, r);
            n == |t| || (ReadAll(r, t[..n]).depth == 0 && !ReadAll(r, t[..n]).quoted)
    decreases |t|
  {
    var n := DropFrom(t, r);
    forall k | 0 < k <= n ensures ReadAll(r, t[..k]) == ReadAll(ReadChar(r, t[0]), t[1..][..k - 1]) {
      assert t[..k][1..] == t[1..][..k - 1];
    }
    if t != "" && !(t[0] == '}' && !r.quoted && r.depth == 1) {
      DropFromOpen(t[1..], ReadChar(r, t[0]));
    }
  }

  /** From an opening brace, what is dropped is the shortest balanced prefix, or
      everything when no prefix is balanced. */
  lemma DropIsShortestBalanced(t: string)
    requires t != "" && t[0] == '{'
    ensures var n := DropFrom(t, START);
            && 0 < n <= |t|
            && (forall k :: 0 <= k < n ==> !Balanced(t[..k]))
            && (n == |t| || Balanced(t[..n]))
  {
    var n := DropFrom(t, START);
    var open := ReadChar(START, t[0]);
    DropFromOpen(t[1..], open);
    forall k | 0 < k <= n ensures ReadAll(START, t[..k]) == ReadAll(open, t[1..][..k - 1]) {
      assert t[..k][1..] == t[1..][..k - 1];
    }
  }

  // ---------------------------------------------------------- the redaction

  /** The text with every payload replaced, read one character at a time. A
      `details=` that no brace follows is copied with everything up to the next
      terminator, so a payload inside that stretch is not looked for. */
  function Strip(t: string): (out: string)
    decreases |t|
  {
    if t == "" then ""
    else if NEEDLE <= t then SpanOut(t) + Strip(t[SpanEnd(t)..])
    else [t[0]] + Strip(t[1..])
  }

  /** The length of `details=` and the blanks after it. */
  function Lead(t: string): (n: nat)
    requires NEEDLE <= t
    ensures |NEEDLE| <= n <= |t|
  {
    |NEEDLE| + BlankRun(t[|NEEDLE|..])
  }

  predicate HasPayload(t: string)
    requires NEEDLE <= t
  {
    Lead(t) < |t| && t[Lead(t)] == '{'
  }

  /** Where the span that starts with this `details=` ends. */
  function SpanEnd(t: string): (n: nat)
    requires NEEDLE <= t
    ensures Lead(t) <= n <= |t|
  {
    var body := t[Lead(t)..];
    Lead(t) + if HasPayload(t) then DropFrom(body, START) else PlainRun(body)
  }

  function SpanOut(t: string): (out: string)
    requires NEEDLE <= t
  {
    if HasPayload(t) then t[..Lead(t)] + REDACTED else t[..SpanEnd(t)]
  }

  // ------------------------------------------------------------- the scanner

  /** `str.find`: the first occurrence at or after `i`, or -1. */
  method Find(text: string, i: nat) returns (idx: int)
    requires i <= |text|
    ensures idx == -1 ==> forall k :: i <= k <= |text| ==> !(NEEDLE <= text[k..])
    ensures idx != -1 ==> i <= idx < |text| && NEEDLE <= text[idx..]
    ensures idx != -1 ==> forall k :: i <= k < idx ==> !(NEEDLE <= text[k..])
  {
    idx := i;
    while idx < |text|
      invariant i <= idx <= |text|
      invariant forall k :: i <= k < idx ==> !(NEEDLE <= text[k..])
    {
      if NEEDLE <= text[idx..] { return; }
      idx := idx + 1;
    }
    idx := -1;
  }

  lemma GapCopied(t: string)
    requires t != "" && !(NEEDLE <= t)
    ensures Strip(t) == [t[0]] + Strip(t[1..])
  {
  }

  /** Text without a `details=` is copied. */
  lemma {:induction false} StripCopies(a: string, b: string)
    requires forall k :: 0 <= k < |a| ==> !(NEEDLE <= (a + b)[k..])
    ensures Strip(a + b) == a + Strip(b)
  {
    hide Strip;
    if a == "" {
      assert a + b == b;
    } else {
      var t := a + b;
      assert t[0..] == t && t[1..] == a[1..] + b;
      assert forall k :: 0 <= k < |a| - 1 ==> t[1..][k..] == t[k + 1..];
      GapCopied(t);
      StripCopies(a[1..], b);
      assert [a[0]] + a[1..] == a;
    }
  }

  lemma StripEmpty()
    ensures Strip("") == ""
  {
  }

  lemma SuffixCopied(text: string, i: nat, m: nat)
    requires i <= m <= |text|
    requires forall k :: i <= k < m ==> !(NEEDLE <= text[k..])
    ensures Strip(text[i..]) == text[i..m] + Strip(text[m..])
  {
    hide Strip;
    assert text[i..] == text[i..m] + text[m..];
    assert forall k :: 0 <= k < m - i ==> text[i..][k..] == text[i + k..];
    StripCopies(text[i..m], text[m..]);
  }

  lemma SpanStripped(text: string, idx: nat)
    requires idx <= |text| && NEEDLE <= text[idx..]
    ensures var t := text[idx..]; Strip(t) == SpanOut(t) + Strip(text[idx + SpanEnd(t)..])
  {
    var t := text[idx..];
    assert t[SpanEnd(t)..] == text[idx + SpanEnd(t)..];
  }

  /** The scanner. */
  method StripDetailsBalanced(text: string) returns (result: string)
    ensures result == Strip(text)
  {
    hide Strip, SpanOut, SpanEnd;
    StripEmpty();
    var out := "";
    var i, n := 0, |text|;
    assert text[0..] == text;
    while i < n
      invariant 0 <= i <= n
      invariant Strip(text) == out + Strip(text[i..])
      decreases n - i
    {
      var idx := Find(text, i);
      if idx < 0 {
        SuffixCopied(text, i, n);
        assert text[n..] == "" && text[i..n] == text[i..];
        return out + text[i..];
      }
      var span, next := CopySpan(text, idx);
      SuffixCopied(text, i, idx);
      SpanStripped(text, idx);
      Regroup(out, Strip(text[i..]), text[i..idx], Strip(text[idx..]), span, Strip(text[next..]));
      out := out + text[i..idx] + span;
      i := next;
    }
    assert text[i..] == "";
    result := out;
  }

  lemma Regroup(out: string, from: string, gap: string, at: string, span: string, after: string)
    requires from == gap + at && at == span + after
    ensures out + from == out + gap + span + after
  {
  }

  /** One `details=` span: what is written for it and where scanning resumes. */
  method CopySpan(text: string, idx: nat) returns (span: string, next: nat)
    requires idx <= |text| && NEEDLE <= text[idx..]
    ensures span == SpanOut(text[idx..])
    ensures next == idx + SpanEnd(text[idx..])
  {
    var j := SkipBlanks(text, idx + |NEEDLE|);
    LeadEnds(text, idx, j);
    if j >= |text| || text[j] != '{' {
      next := SkipPlain(text, j);
      span := text[idx..next];
    } else {
      next := SkipPayload(text, j);
      span := text[idx..j] + REDACTED;
    }
  }

  lemma LeadEnds(text: string, idx: nat, j: nat)
    requires idx + |NEEDLE| <= |text| && NEEDLE <= text[idx..]
    requires j == idx + |NEEDLE| + BlankRun(text[idx + |NEEDLE|..])
    ensures Lead(text[idx..]) == j - idx
    ensures text[idx..][j - idx..] == text[j..]
    ensures text[idx..][..j - idx] == text[idx..j]
    ensures forall k :: j <= k <= |text| ==> text[idx..][..k - idx] == text[idx..k]
  {
    assert text[idx..][|NEEDLE|..] == text[idx + |NEEDLE|..];
  }

  method SkipBlanks(text: string, i: nat) returns (j: nat)
    requires i <= |text|
    ensures j == i + BlankRun(text[i..])
  {
    j := i;
    while j < |text| && IsBlank(text[j])
      invariant i <= j <= |text|
      invariant BlankRun(text[i..]) == j - i + BlankRun(text[j..])
    {
      assert text[j..][1..] == text[j + 1..];
      j := j + 1;
    }
  }

  method SkipPlain(text: string, i: nat) returns (end: nat)
    requires i <= |text|
    ensures end == i + PlainRun(text[i..])
  {
    end := i;
    while end < |text| && !IsTerminator(text[end])
      invariant i <= end <= |text|
      invariant PlainRun(text[i..]) == end - i + PlainRun(text[end..])
    {
      assert text[end..][1..] == text[end + 1..];
      end := end + 1;
    }
  }

  /** The innermost loop: the position just past the payload. */
  method SkipPayload(text: string, j: nat) returns (k: nat)
    requires j < |text| && text[j] == '{'
    ensures k == j + DropFrom(text[j..], START)
    ensures j < k <= |text|
  {
    var n := |text|;
    var depth, quoted, quote := 0, false, ' ';
    k := j;
    while k < n
      invariant j <= k <= n
      invariant k == j ==> depth == 0 && !quoted
      invariant k > j ==> depth >= 1
      invariant quoted ==> quote == '"' || quote == '\''
      invariant DropFrom(text[j..], START) == k - j + DropFrom(text[k..], Reader(depth, quote, quoted, false))
      decreases n - k
    {
      var c := text[k];
      assert text[k..][0] == c && text[k..][1..] == text[k + 1..];
      if quoted {
        if c == '\\' && k + 1 < n {
          assert text[k + 1..][1..] == text[k + 2..];
          k := k + 2;
          continue;
        }
        if c == quote { quoted := false; }
      } else if c == '"' || c == '\'' {
        quoted, quote := true, c;
      } else if c == '{' {
        depth := depth + 1;
      } else if c == '}' {
        depth := depth - 1;
        if depth == 0 {
          k := k + 1;
          return;
        }
      }
      k := k + 1;
      assert k == n ==> text[k..] == "";
    }
  }

  // -------------------------------------------------------------- idempotence

  predicate Plain(t: string) {
    forall i :: 0 <= i < |t| ==> !IsTerminator(t[i])
  }

  lemma PlainConcat(a: string, b: string)
    requires Plain(a) && Plain(b)
    ensures Plain(a + b)
  {
  }

  lemma {:induction false} PlainRunSplits(a: string, b: string)
    requires Plain(a)
    ensures PlainRun(a + b) == |a| + PlainRun(b)
  {
    if a == "" {
      assert a + b == b;
    } else {
      assert (a + b)[1..] == a[1..] + b;
      PlainRunSplits(a[1..], b);
    }
  }

  lemma {:induction false} BlankRunIs(t: string, n: nat)
    requires n <= |t|
    requires forall i :: 0 <= i < n ==> IsBlank(t[i])
    requires n < |t| ==> !IsBlank(t[n])
    ensures BlankRun(t) == n
  {
    if n > 0 {
      BlankRunIs(t[1..], n - 1);
    }
  }

  lemma SpanStartsWithD(t: string)
    requires NEEDLE <= t
    ensures Strip(t) != "" && Strip(t)[0] == 'd'
  {
    assert SpanOut(t)[0] == t[0] == NEEDLE[0];
  }

  /** Stripping never completes a `details=` that was not there: if what is left
      of the needle starts the output, it started the input. */
  lemma {:induction false} NeedleTailKept(t: string, m: nat)
    requires 1 <= m <= |NEEDLE| && NEEDLE[m..] <= Strip(t)
    ensures NEEDLE[m..] <= t
    decreases |NEEDLE| - m
  {
    if m < |NEEDLE| {
      assert NEEDLE[m..][0] == NEEDLE[m] != 'd';
      assert Strip(t)[0] == NEEDLE[m];
      if NEEDLE <= t {
        SpanStartsWithD(t);
        assert false;
      }
      assert Strip(t) == [t[0]] + Strip(t[1..]);
      assert NEEDLE[m..][1..] == NEEDLE[m + 1..];
      assert Strip(t)[1..] == Strip(t[1..]);
      NeedleTailKept(t[1..], m + 1);
      assert t == [t[0]] + t[1..];
    }
  }

  lemma GapStaysGap(t: string)
    requires t != "" && NEEDLE <= [t[0]] + Strip(t[1..])
    ensures NEEDLE <= t
  {
    var o := [t[0]] + Strip(t[1..]);
    assert NEEDLE[1..] <= o[1..] == Strip(t[1..]);
    NeedleTailKept(t[1..], 1);
    assert t == [t[0]] + t[1..];
    assert NEEDLE == [NEEDLE[0]] + NEEDLE[1..];
  }

  lemma RunsArePlain(t: string)
    ensures Plain(t[..PlainRun(t)]) && Plain(t[..BlankRun(t)])
  {
  }

  lemma SpanOutShape(t: string)
    requires NEEDLE <= t
    ensures var blanks, body := t[|NEEDLE|..], t[Lead(t)..];
            SpanOut(t) == NEEDLE + blanks[..BlankRun(blanks)]
                          + if HasPayload(t) then REDACTED else body[..PlainRun(body)]
  {
    hide DropFrom, BlankRun, PlainRun;
    var lead := Lead(t);
    assert t[..lead] == NEEDLE + t[|NEEDLE|..][..lead - |NEEDLE|];
    if !HasPayload(t) {
      assert t[..SpanEnd(t)] == t[..lead] + t[lead..][..PlainRun(t[lead..])];
    }
  }

  /** What is written for a span holds no terminator, and what follows it in the
      output cannot extend its blanks or give it a payload. */
  lemma SpanOutIsPlain(t: string)
    requires NEEDLE <= t
    ensures NEEDLE <= SpanOut(t) && Lead(t) <= |SpanOut(t)|
    ensures forall i :: |NEEDLE| <= i < Lead(t) ==> IsBlank(SpanOut(t)[i])
    ensures Plain(SpanOut(t))
    ensures Lead(t) < |SpanOut(t)| ==> !IsBlank(SpanOut(t)[Lead(t)]) && SpanOut(t)[Lead(t)] != '{'
  {
    hide DropFrom, BlankRun, PlainRun, SpanOut;
    var blanks, body := t[|NEEDLE|..], t[Lead(t)..];
    var blank := blanks[..BlankRun(blanks)];
    var tail := if HasPayload(t) then REDACTED else body[..PlainRun(body)];
    SpanOutShape(t);
    assert Plain(NEEDLE) && Plain(REDACTED);
    RunsArePlain(blanks);
    RunsArePlain(body);
    PlainConcat(NEEDLE, blank);
    PlainConcat(NEEDLE + blank, tail);
    assert forall i :: |NEEDLE| <= i < Lead(t) ==> SpanOut(t)[i] == blank[i - |NEEDLE|];
    if tail != "" {
      assert SpanOut(t)[Lead(t)] == tail[0];
      assert !HasPayload(t) ==> tail[0] == body[0] == blanks[BlankRun(blanks)];
    }
  }

  lemma SpanThenRest(t: string)
    requires NEEDLE <= t
    ensures var rest := Strip(t[SpanEnd(t)..]);
            |SpanOut(t)| == Lead(t) && rest != "" ==> !IsBlank(rest[0]) && rest[0] != '{'
  {
    var rest := t[SpanEnd(t)..];
    if |SpanOut(t)| == Lead(t) && rest != "" {
      assert !HasPayload(t) && rest[0] == t[Lead(t)..][PlainRun(t[Lead(t)..])];
      assert IsTerminator(rest[0]) && rest[0] != 'd';
      assert !(NEEDLE <= rest);
    }
  }

  lemma LeadAgain(p: string, rest: string, lead: nat)
    requires NEEDLE <= p && |NEEDLE| <= lead <= |p|
    requires forall i :: |NEEDLE| <= i < lead ==> IsBlank(p[i])
    requires lead < |p| ==> !IsBlank(p[lead])
    requires lead == |p| && rest != "" ==> !IsBlank(rest[0])
    ensures NEEDLE <= p + rest && Lead(p + rest) == lead
  {
    var after := (p + rest)[|NEEDLE|..];
    assert forall i :: 0 <= i < |p| - |NEEDLE| ==> after[i] == p[i + |NEEDLE|];
    BlankRunIs(after, lead - |NEEDLE|);
  }

  /** A second pass reads a written span as unredacted text up to the next
      terminator, and that terminator lies in copied text. */
  lemma SpanReadAgain(t: string)
    requires NEEDLE <= t
    ensures var rest := Strip(t[SpanEnd(t)..]);
            var o := SpanOut(t) + rest;
            && NEEDLE <= o && !HasPayload(o)
            && SpanEnd(o) == PlainRun(o) == |SpanOut(t)| + PlainRun(rest)
  {
    hide Strip, SpanOut, BlankRun;
    var p, rest, lead := SpanOut(t), Strip(t[SpanEnd(t)..]), Lead(t);
    var o := p + rest;
    SpanOutIsPlain(t);
    SpanThenRest(t);
    LeadAgain(p, rest, lead);
    PlainRunSplits(p, rest);
    assert o[lead..] == p[lead..] + rest;
    PlainRunSplits(p[lead..], rest);
  }

  ghost predicate Settled(o: string) {
    Strip(o) == o && Strip(o[PlainRun(o)..]) == o[PlainRun(o)..]
  }

  lemma SuffixOfRest(p: string, rest: string, m: nat)
    requires m <= |rest|
    ensures (p + rest)[|p| + m..] == rest[m..]
  {
  }

  lemma SpanSettles(t: string)
    requires NEEDLE <= t && Settled(Strip(t[SpanEnd(t)..]))
    ensures Settled(Strip(t))
  {
    hide Strip, SpanOut, SpanEnd, HasPayload, PlainRun;
    var p, rest := SpanOut(t), Strip(t[SpanEnd(t)..]);
    SpanReadAgain(t);
    SuffixOfRest(p, rest, PlainRun(rest));
    UnredactedSpan(p + rest);
    SpanSplits(t);
  }

  lemma SpanSplits(t: string)
    requires NEEDLE <= t
    ensures Strip(t) == SpanOut(t) + Strip(t[SpanEnd(t)..])
  {
  }

  /** A span without payload is copied up to the terminator that ends it. */
  lemma UnredactedSpan(o: string)
    requires NEEDLE <= o && !HasPayload(o) && SpanEnd(o) == PlainRun(o)
    requires Strip(o[PlainRun(o)..]) == o[PlainRun(o)..]
    ensures Settled(o)
  {
    assert o == o[..SpanEnd(o)] + o[SpanEnd(o)..];
  }

  lemma GapSettles(t: string)
    requires t != "" && !(NEEDLE <= t) && Settled(Strip(t[1..]))
    ensures Settled(Strip(t))
  {
    var rest := Strip(t[1..]);
    var o := [t[0]] + rest;
    assert !(NEEDLE <= o) by {
      if NEEDLE <= o {
        GapStaysGap(t);
        assert false;
      }
    }
    assert o[1..] == rest;
    if IsTerminator(o[0]) {
      assert o[0..] == o;
    } else {
      assert o[PlainRun(o)..] == rest[PlainRun(rest)..];
    }
  }

  /** Redacting redacted text changes nothing, neither from its start nor from
      its first terminator. */
  lemma {:induction false} StripSettles(t: string)
    ensures Settled(Strip(t))
    decreases |t|
  {
    if t == "" {
    } else if NEEDLE <= t {
      StripSettles(t[SpanEnd(t)..]);
      SpanSettles(t);
    } else {
      StripSettles(t[1..]);
      GapSettles(t);
    }
  }

  lemma StripIdempotent(t: string)
    ensures Strip(Strip(t)) == Strip(t)
  {
    StripSettles(t);
  }

  // ---------------------------------------------------------------- secrecy

  predicate AllBlank(t: string) {
    forall i :: 0 <= i < |t| ==> IsBlank(t[i])
  }

  /** A payload: from an opening brace to the brace that closes it. */
  ghost predicate IsPayload(p: string) {
    p != "" && p[0] == '{' && Balanced(p) && forall k :: 0 <= k < |p| ==> !Balanced(p[..k])
  }

  lemma PayloadDropped(p: string, rest: string)
    requires IsPayload(p)
    ensures DropFrom(p + rest, START) == |p|
  {
    var n := DropFrom(p + rest, START);
    DropIsShortestBalanced(p + rest);
    assert forall k :: 0 <= k <= |p| ==> (p + rest)[..k] == p[..k];
    assert p[..|p|] == p;
  }

  /** Nothing of a payload survives: the output is the same for every payload. */
  lemma PayloadHidden(blanks: string, p: string, rest: string)
    requires AllBlank(blanks) && IsPayload(p)
    ensures Strip(NEEDLE + blanks + p + rest) == NEEDLE + blanks + REDACTED + Strip(rest)
  {
    var t := NEEDLE + blanks + p + rest;
    var lead := |NEEDLE| + |blanks|;
    assert t[|NEEDLE|..] == blanks + p + rest;
    BlankRunIs(t[|NEEDLE|..], |blanks|);
    assert Lead(t) == lead && HasPayload(t);
    assert t[lead..] == p + rest;
    PayloadDropped(p, rest);
    assert t[..lead] == NEEDLE + blanks;
    assert t[lead + |p|..] == rest;
  }

  // ------------------------------------------------- where a payload stands

  /** Whether the reader closes the payload within the text. */
  predicate Closes(t: string, r: Reader)
    decreases |t|
  {
    t != "" && ((t[0] == '}' && !r.quoted && r.depth == 1) || Closes(t[1..], ReadChar(r, t[0])))
  }

  /** Where the scanner stands after a prefix of the text: between spans, in a bare
      span that no terminator has ended, or in a payload that is still open. */
  datatype Mode = Gap | Bare | Within(reader: Reader)

  function ModeAfter(a: string): Mode
    decreases |a|
  {
    if a == "" then Gap
    else if NEEDLE <= a then
      if HasPayload(a) && !Closes(a[Lead(a)..], START) then Within(ReadAll(START, a[Lead(a)..]))
      else if !HasPayload(a) && SpanEnd(a) == |a| then Bare
      else ModeAfter(a[SpanEnd(a)..])
    else ModeAfter(a[1..])
  }

  lemma {:induction false} DropSplits(x: string, y: string, r: Reader)
    ensures DropFrom(x + y, r) == if Closes(x, r) then DropFrom(x, r) else |x| + DropFrom(y, ReadAll(r, x))
    ensures !Closes(x, r) ==> DropFrom(x, r) == |x|
    ensures Closes(x, r) ==> Closes(x + y, r)
    decreases |x|
  {
    if x == "" {
      assert x + y == y;
    } else {
      assert (x + y)[1..] == x[1..] + y;
      DropSplits(x[1..], y, ReadChar(r, x[0]));
    }
  }

  /** A needle can stand across the border of a prefix only if it starts there. */
  lemma NoStraddle(a: string, b: string)
    requires a != "" && !(NEEDLE <= a) && NEEDLE <= b
    ensures !(NEEDLE <= a + b)
  {
    var m := |a|;
    if m < |NEEDLE| {
      assert (a + b)[m] == b[0] == NEEDLE[0];
      assert NEEDLE[m] != NEEDLE[0];
    } else {
      assert (a + b)[..|NEEDLE|] == a[..|NEEDLE|];
    }
  }

  /** The span at the start of a text, when more text follows. */
  lemma LeadHolds(a: string, b: string)
    requires NEEDLE <= a && NEEDLE <= b
    ensures NEEDLE <= a + b && Lead(a + b) == Lead(a) && HasPayload(a + b) == HasPayload(a)
    ensures (a + b)[Lead(a)..] == a[Lead(a)..] + b
  {
    assert (a + b)[|NEEDLE|..] == a[|NEEDLE|..] + b;
    var n := BlankRun(a[|NEEDLE|..]);
    BlankRunIs(a[|NEEDLE|..] + b, n);
  }

  lemma ConcatSplit(a: string, b: string, n: nat)
    requires n <= |a|
    ensures (a + b)[..n] == a[..n] && (a + b)[n..] == a[n..] + b
  {
  }

  lemma SpanHolds(a: string, b: string)
    requires NEEDLE <= a && NEEDLE <= b
    requires if HasPayload(a) then Closes(a[Lead(a)..], START) else SpanEnd(a) < |a|
    ensures NEEDLE <= a + b && SpanEnd(a + b) == SpanEnd(a) && SpanOut(a + b) == SpanOut(a)
    ensures HasPayload(a + b) == HasPayload(a) && (HasPayload(a) ==> Closes((a + b)[Lead(a + b)..], START))
    ensures (a + b)[SpanEnd(a)..] == a[SpanEnd(a)..] + b
  {
    LeadHolds(a, b);
    hide Lead, BlankRun, NEEDLE, ReadAll;
    var body := a[Lead(a)..];
    if HasPayload(a) {
      DropSplits(body, b, START);
    } else {
      PlainRunStops(body, b);
    }
    ConcatSplit(a, b, Lead(a));
    ConcatSplit(a, b, SpanEnd(a));
  }

  lemma {:induction false} PlainRunStops(x: string, y: string)
    requires PlainRun(x) < |x|
    ensures PlainRun(x + y) == PlainRun(x)
    decreases |x|
  {
    assert (x + y)[1..] == x[1..] + y;
    if !IsTerminator(x[0]) { PlainRunStops(x[1..], y); }
  }

  /** The whole output for a text cut at a `details=`, by where that stands. */
  ghost predicate Continues(a: string, b: string) {
    match ModeAfter(a)
    case Gap => Strip(a + b) == Strip(a) + Strip(b)
    case Bare => Strip(a + b) == Strip(a) + (b[..PlainRun(b)] + Strip(b[PlainRun(b)..]))
    case Within(r) => Strip(a + b) == Strip(a) + Strip(b[DropFrom(b, r)..])
  }

  lemma BareSpanAlone(a: string)
    requires NEEDLE <= a && !HasPayload(a) && SpanEnd(a) == |a|
    ensures SpanOut(a) == a && Strip(a) == a
  {
    SpanSplits(a);
    hide Strip;
    StripEmpty();
    assert a[|a|..] == "" && a[..|a|] == a;
  }

  lemma ConcatCut(a: string, b: string, n: nat)
    requires n <= |b|
    ensures (a + b)[..|a| + n] == a + b[..n] && (a + b)[|a| + n..] == b[n..]
  {
  }

  lemma BareSpanIs(a: string, b: string)
    requires NEEDLE <= a && NEEDLE <= b && !HasPayload(a) && SpanEnd(a) == |a|
    ensures NEEDLE <= a + b && SpanOut(a) == a && Strip(a) == a
    ensures SpanEnd(a + b) == |a| + PlainRun(b) && SpanOut(a + b) == a + b[..PlainRun(b)]
    ensures (a + b)[|a| + PlainRun(b)..] == b[PlainRun(b)..]
  {
    BareSpanAlone(a);
    BareEnds(a, b);
    hide Strip, SpanEnd, HasPayload, PlainRun;
    ConcatCut(a, b, PlainRun(b));
  }

  lemma BareEnds(a: string, b: string)
    requires NEEDLE <= a && NEEDLE <= b && !HasPayload(a) && SpanEnd(a) == |a|
    ensures NEEDLE <= a + b && !HasPayload(a + b) && SpanEnd(a + b) == |a| + PlainRun(b)
  {
    LeadHolds(a, b);
    PlainRunSplits(a[Lead(a)..], b);
    hide Lead, HasPayload, PlainRun, DropFrom;
  }

  lemma BareContinues(a: string, b: string)
    requires NEEDLE <= a && NEEDLE <= b && !HasPayload(a) && SpanEnd(a) == |a|
    ensures Strip(a + b) == Strip(a) + (b[..PlainRun(b)] + Strip(b[PlainRun(b)..]))
  {
    hide Strip, SpanOut, SpanEnd, HasPayload, PlainRun, Lead;
    BareSpanIs(a, b);
    SpanSplits(a + b);
    Regroup("", Strip(a + b), a, b[..PlainRun(b)] + Strip(b[PlainRun(b)..]), b[..PlainRun(b)], Strip(b[PlainRun(b)..]));
  }

  lemma OpenSpanIs(a: string, b: string)
    requires NEEDLE <= a && NEEDLE <= b && HasPayload(a) && !Closes(a[Lead(a)..], START)
    ensures NEEDLE <= a + b && SpanOut(a + b) == SpanOut(a) && SpanEnd(a) == |a|
    ensures var n := DropFrom(b, ReadAll(START, a[Lead(a)..]));
            SpanEnd(a + b) == |a| + n && (a + b)[|a| + n..] == b[n..]
  {
    LeadHolds(a, b);
    DropSplits(a[Lead(a)..], b, START);
    assert (a + b)[..Lead(a)] == a[..Lead(a)];
  }

  lemma OpenContinues(a: string, b: string)
    requires NEEDLE <= a && NEEDLE <= b && HasPayload(a) && !Closes(a[Lead(a)..], START)
    ensures var r := ReadAll(START, a[Lead(a)..]); Strip(a + b) == Strip(a) + Strip(b[DropFrom(b, r)..])
  {
    hide Strip, SpanOut, SpanEnd, HasPayload, Closes, DropFrom, ReadAll, Lead;
    OpenSpanIs(a, b);
    assert a[|a|..] == "";
    StripEmpty();
    SpanSplits(a);
    SpanSplits(a + b);
  }

  /** What comes before in the output stays before. */
  lemma ContinuesAfter(a: string, b: string, out: string, rest: string)
    requires Strip(a) == out + Strip(rest) && Strip(a + b) == out + Strip(rest + b)
    requires ModeAfter(a) == ModeAfter(rest) && Continues(rest, b)
    ensures Continues(a, b)
  {
    hide Strip, ModeAfter, DropFrom, PlainRun;
    match ModeAfter(a)
    case Gap => assert out + (Strip(rest) + Strip(b)) == out + Strip(rest) + Strip(b);
    case Bare =>
      var tail := b[..PlainRun(b)] + Strip(b[PlainRun(b)..]);
      assert out + (Strip(rest) + tail) == out + Strip(rest) + tail;
    case Within(r) =>
      var tail := Strip(b[DropFrom(b, r)..]);
      assert out + (Strip(rest) + tail) == out + Strip(rest) + tail;
  }

  lemma ModeAtStart(a: string)
    requires a != ""
    ensures ModeAfter(a) ==
            if !(NEEDLE <= a) then ModeAfter(a[1..])
            else if HasPayload(a) && !Closes(a[Lead(a)..], START) then Within(ReadAll(START, a[Lead(a)..]))
            else if !HasPayload(a) && SpanEnd(a) == |a| then Bare
            else ModeAfter(a[SpanEnd(a)..])
  {
  }

  /** For every prefix and every text that goes on with a `details=`. */
  lemma {:induction false} PrefixContinues(a: string, b: string)
    requires NEEDLE <= b
    ensures Continues(a, b)
    decreases |a|
  {
    if a == "" {
      StripEmpty();
      assert a + b == b;
    } else {
      hide Strip, SpanOut, HasPayload, Closes, ReadAll, ModeAfter, Continues;
      ModeAtStart(a);
      if !(NEEDLE <= a) {
        NoStraddle(a, b);
        assert (a + b)[1..] == a[1..] + b;
        PrefixContinues(a[1..], b);
        GapCopied(a);
        GapCopied(a + b);
        ContinuesAfter(a, b, [a[0]], a[1..]);
      } else if HasPayload(a) && !Closes(a[Lead(a)..], START) {
        OpenContinues(a, b);
        ContinuesIs(a, b);
      } else if !HasPayload(a) && SpanEnd(a) == |a| {
        BareContinues(a, b);
        ContinuesIs(a, b);
      } else {
        SpanHolds(a, b);
        PrefixContinues(a[SpanEnd(a)..], b);
        SpanSplits(a);
        SpanSplits(a + b);
        ContinuesAfter(a, b, SpanOut(a), a[SpanEnd(a)..]);
      }
    }
  }

  lemma ContinuesIs(a: string, b: string)
    ensures ModeAfter(a) == Bare ==>
              (Continues(a, b) <==> Strip(a + b) == Strip(a) + (b[..PlainRun(b)] + Strip(b[PlainRun(b)..])))
    ensures ModeAfter(a).Within? ==>
              (Continues(a, b) <==> Strip(a + b) == Strip(a) + Strip(b[DropFrom(b, ModeAfter(a).reader)..]))
  {
    hide Strip, ModeAfter, DropFrom, PlainRun;
  }

  /** What becomes of a payload after any prefix: between spans it goes and leaves
      the mark; in a bare span the text is copied up to its next terminator, brace
      and all; in an open payload the reader drops on from where it is. */
  lemma PayloadFate(a: string, blanks: string, p: string, rest: string)
    requires AllBlank(blanks) && IsPayload(p)
    ensures var b := NEEDLE + blanks + p + rest;
            match ModeAfter(a)
            case Gap => Strip(a + b) == Strip(a) + (NEEDLE + blanks + REDACTED + Strip(rest))
            case Bare => Strip(a + b) == Strip(a) + (b[..PlainRun(b)] + Strip(b[PlainRun(b)..]))
            case Within(r) => Strip(a + b) == Strip(a) + Strip(b[DropFrom(b, r)..])
  {
    hide Strip, ModeAfter, DropFrom, PlainRun, IsPayload;
    var b := NEEDLE + blanks + p + rest;
    assert b == NEEDLE + (blanks + p + rest);
    PrefixContinues(a, b);
    PayloadHidden(blanks, p, rest);
  }

  /** Outside an open payload, a payload leaves just the mark exactly when the
      scanner is between spans, that is, unless the prefix ends inside a bare span. */
  lemma PayloadMarkedExactly(a: string, blanks: string, p: string, rest: string)
    requires AllBlank(blanks) && IsPayload(p) && !ModeAfter(a).Within?
    ensures var b := NEEDLE + blanks + p + rest;
            Strip(a + b) == Strip(a) + (NEEDLE + blanks + REDACTED + Strip(rest)) <==> ModeAfter(a) == Gap
  {
    PayloadFate(a, blanks, p, rest);
    BraceCopied(blanks, p, rest);
    hide Strip, ModeAfter, DropFrom, PlainRun, IsPayload;
    var b := NEEDLE + blanks + p + rest;
    var at := |NEEDLE| + |blanks|;
    if ModeAfter(a) == Bare {
      var copied, hidden := b[..PlainRun(b)] + Strip(b[PlainRun(b)..]), NEEDLE + blanks + REDACTED + Strip(rest);
      assert copied[at] == '{' && hidden[at] == REDACTED[0];
      assert (Strip(a) + copied)[|Strip(a)| + at] == copied[at] && (Strip(a) + hidden)[|Strip(a)| + at] == hidden[at];
    }
  }

  lemma BraceCopied(blanks: string, p: string, rest: string)
    requires AllBlank(blanks) && IsPayload(p)
    ensures var b := NEEDLE + blanks + p + rest;
            var at := |NEEDLE| + |blanks|;
            at < PlainRun(b) && b[at] == '{'
  {
    var b := NEEDLE + blanks + p + rest;
    var at := |NEEDLE| + |blanks|;
    assert b[at] == p[0] == '{';
    assert forall i :: 0 <= i <= at ==> !IsTerminator(b[i]) by {
      assert forall i :: |NEEDLE| <= i < at ==> b[i] == blanks[i - |NEEDLE|];
    }
  }

  /** What a reader that is already inside a payload leaves of a text: what comes
      after the brace that closes for it, or nothing. */
  function Left(t: string, r: Reader): string {
    if Closes(t, r) then t[DropFrom(t, r)..] else ""
  }

  /** A payload met inside an open payload is dropped up to the brace that closes
      the open one, which a quote can make an inner one; what is left of it is read
      on as plain text. */
  lemma PayloadWithin(a: string, blanks: string, p: string, rest: string)
    requires AllBlank(blanks) && IsPayload(p) && ModeAfter(a).Within?
    ensures var r, s := ModeAfter(a).reader, NEEDLE + blanks + p;
            Strip(a + (s + rest)) == Strip(a) + if Closes(s, r) then Strip(Left(s, r) + rest)
                                                else Strip(rest[DropFrom(rest, ReadAll(r, s))..])
  {
    hide Strip, ModeAfter, IsPayload, ReadAll;
    PayloadFate(a, blanks, p, rest);
    var r, s := ModeAfter(a).reader, NEEDLE + blanks + p;
    DropSplits(s, rest, r);
    hide DropFrom, Closes;
    if Closes(s, r) { ConcatSplit(s, rest, DropFrom(s, r)); }
    else { assert (s + rest)[|s| + DropFrom(rest, ReadAll(r, s))..] == rest[DropFrom(rest, ReadAll(r, s))..]; }
  }

  ghost predicate Resumes(out: string, head: string, rest: string) {
    exists n: nat :: n <= |rest| && out == head + Strip(rest[n..])
  }

  /** Whatever follows it, nothing of the payload is left: the mark where the scanner
      is between spans, and then what follows, from some point of it on. */
  ghost predicate Goes(a: string, blanks: string, p: string) {
    var mark := if ModeAfter(a) == Gap then NEEDLE + blanks + REDACTED else "";
    forall rest :: Resumes(Strip(a + (NEEDLE + blanks + p + rest)), Strip(a) + mark, rest)
  }

  /** After any prefix, a payload goes exactly when the scanner is between spans, or
      inside an open payload whose reader closes nowhere in this one but at its end. */
  lemma PayloadGoesExactly(a: string, blanks: string, p: string)
    requires AllBlank(blanks) && IsPayload(p)
    ensures Goes(a, blanks, p) <==>
            match ModeAfter(a)
            case Gap => true
            case Bare => false
            case Within(r) => Left(NEEDLE + blanks + p, r) == ""
  {
    hide Strip, ModeAfter, IsPayload, Resumes, Left;
    match ModeAfter(a)
    case Gap =>
      var before := Strip(a) + (NEEDLE + blanks + REDACTED);
      forall rest ensures Resumes(Strip(a + (NEEDLE + blanks + p + rest)), before, rest) {
        PayloadFate(a, blanks, p, rest);
        ResumesAt(Strip(a), NEEDLE + blanks + REDACTED, rest, 0);
      }
    case Bare => BareStays(a, blanks, p);
    case Within(r) =>
      if Left(NEEDLE + blanks + p, r) == "" { WithinGoes(a, blanks, p); } else { WithinStays(a, blanks, p); }
  }

  lemma ResumesAt(before: string, mark: string, rest: string, n: nat)
    requires n <= |rest|
    ensures Resumes(before + (mark + Strip(rest[n..])), before + mark, rest)
  {
    hide Strip;
    assert before + (mark + Strip(rest[n..])) == before + mark + Strip(rest[n..]);
    assert n == 0 ==> rest[n..] == rest;
  }

  /** With nothing after it, more than what stood before is written. */
  lemma LongerStays(a: string, blanks: string, p: string)
    requires ModeAfter(a) != Gap && |Strip(a + (NEEDLE + blanks + p))| > |Strip(a)|
    ensures !Goes(a, blanks, p)
  {
    hide Strip, ModeAfter;
    assert NEEDLE + blanks + p + "" == NEEDLE + blanks + p;
    StripEmpty();
    assert !Resumes(Strip(a + (NEEDLE + blanks + p + "")), Strip(a) + "", "");
  }

  lemma BareStays(a: string, blanks: string, p: string)
    requires AllBlank(blanks) && IsPayload(p) && ModeAfter(a) == Bare
    ensures !Goes(a, blanks, p)
  {
    hide Strip, ModeAfter, IsPayload, PlainRun, Goes;
    assert NEEDLE + blanks + p + "" == NEEDLE + blanks + p;
    PayloadFate(a, blanks, p, "");
    BraceCopied(blanks, p, "");
    LongerStays(a, blanks, p);
  }

  lemma WithinStays(a: string, blanks: string, p: string)
    requires AllBlank(blanks) && IsPayload(p) && ModeAfter(a).Within?
    requires Left(NEEDLE + blanks + p, ModeAfter(a).reader) != ""
    ensures !Goes(a, blanks, p)
  {
    var left := Left(NEEDLE + blanks + p, ModeAfter(a).reader);
    PayloadWithin(a, blanks, p, "");
    assert NEEDLE + blanks + p + "" == NEEDLE + blanks + p && left + "" == left;
    hide ModeAfter, IsPayload, Goes;
    SomethingLeft(left);
    LongerStays(a, blanks, p);
  }

  lemma SomethingLeft(t: string)
    requires t != ""
    ensures Strip(t) != ""
  {
  }

  lemma WithinGoes(a: string, blanks: string, p: string)
    requires AllBlank(blanks) && IsPayload(p) && ModeAfter(a).Within?
    requires Left(NEEDLE + blanks + p, ModeAfter(a).reader) == ""
    ensures Goes(a, blanks, p)
  {
    var r, s := ModeAfter(a).reader, NEEDLE + blanks + p;
    hide Strip, ModeAfter, IsPayload, Resumes;
    forall rest ensures Resumes(Strip(a + (s + rest)), Strip(a) + "", rest) {
      PayloadWithin(a, blanks, p, rest);
      var n := if Closes(s, r) then 0 else DropFrom(rest, ReadAll(r, s));
      assert rest[0..] == rest && "" + rest == rest && "" + Strip(rest[n..]) == Strip(rest[n..]);
      ResumesAt(Strip(a), "", rest, n);
    }
  }

  lemma {:induction false} QuotedSkips(x: string, y: string, r: Reader)
    requires r.quoted && !r.escaped && forall i :: 0 <= i < |x| ==> x[i] != r.quote && x[i] != '\\'
    ensures DropFrom(x + y, r) == |x| + DropFrom(y, r)
    decreases |x|
  {
    if x == "" {
      assert x + y == y;
    } else {
      assert (x + y)[1..] == x[1..] + y;
      QuotedSkips(x[1..], y, r);
    }
  }

  /** The quoted text of an open payload takes in the next `details={`, up to its quote. */
  lemma QuoteCloses(w: string)
    ensures DropFrom("{'details={'}" + w, START) == 13
  {
    var open, inside := ReadChar(START, '{'), Reader(1, '\'', true, false);
    var t := "{'details={'}" + w;
    assert t[1..] == "'details={'}" + w && t[1..][1..] == "details={" + ("'}" + w);
    assert ReadChar(open, '\'') == inside;
    assert DropFrom(t, START) == 1 + DropFrom(t[1..], open);
    assert DropFrom(t[1..], open) == 1 + DropFrom(t[1..][1..], inside);
    QuotedSkips("details={", "'}" + w, inside);
    assert ("'}" + w)[1..] == "}" + w;
    assert ReadChar(inside, '\'') == inside.(quoted := false);
    assert DropFrom("'}" + w, inside) == 1 + DropFrom("}" + w, inside.(quoted := false));
  }

  /** Inputs of the second failing family: the prefix leaves a quote open, the
      payload's first quote closes it, and its quoted brace the open payload; the
      rest of the payload is read as plain text. */
  lemma PayloadSurvives(w: string)
    ensures Strip("details={'" + ("details=" + ("{'}" + w))) == "details=<redacted>" + Strip(w)
  {
    var t := "details={'" + ("details=" + ("{'}" + w));
    assert t[|NEEDLE|..] == "{'details={'}" + w;
    QuoteCloses(w);
    assert BlankRun(t[|NEEDLE|..]) == 0 && Lead(t) == |NEEDLE| && HasPayload(t);
    assert SpanEnd(t) == |NEEDLE| + 13 && t[SpanEnd(t)..] == w;
    assert SpanOut(t) == "details=<redacted>";
  }

  /** Such as this one. */
  lemma SecretSurvives()
    ensures IsPayload("{'}':'S'}")
    ensures Strip("details={'" + ("details=" + "{'}':'S'}")) == "details=<redacted>':'S'}"
  {
    SecretIsPayload();
    hide IsPayload, Strip;
    var w := "':'S'}";
    assert "{'}" + w == "{'}':'S'}";
    PayloadSurvives(w);
    NoBraceUnchanged(w);
    assert "details=<redacted>" + w == "details=<redacted>':'S'}";
  }

  lemma SecretIsPayload()
    ensures IsPayload("{'}':'S'}")
  {
    var p := "{'}':'S'}";
    assert DropFrom(p, START) == 9;
    DropIsShortestBalanced(p);
  }

  // ------------------------------------------ when a prefix ends in a bare span

  /** A `details=` without payload at `i`, met between spans, with no terminator
      from there to the end. */
  predicate BareFrom(a: string, i: nat) {
    i <= |a| && ModeAfter(a[..i]) == Gap && NEEDLE <= a[i..] && !HasPayload(a[i..]) && Plain(a[i..])
  }

  lemma BareIsPlain(t: string)
    requires NEEDLE <= t && !HasPayload(t)
    ensures SpanEnd(t) == |t| <==> Plain(t)
  {
    var blanks, body := t[|NEEDLE|..][..BlankRun(t[|NEEDLE|..])], t[Lead(t)..];
    RunsArePlain(t[|NEEDLE|..]);
    PlainConcat(NEEDLE, blanks);
    assert t == NEEDLE + blanks + body;
    if Plain(body) { PlainConcat(NEEDLE + blanks, body); }
    if Plain(t) { PlainSuffix(NEEDLE + blanks, body); }
  }

  lemma PlainSuffix(a: string, b: string)
    requires Plain(a + b)
    ensures Plain(b)
  {
    assert forall i :: 0 <= i < |b| ==> b[i] == (a + b)[|a| + i];
  }

  lemma LeadCut(a: string, m: nat)
    requires NEEDLE <= a && Lead(a) < m <= |a|
    ensures var x := a[..m];
            && NEEDLE <= x && Lead(x) == Lead(a) && HasPayload(x) == HasPayload(a)
            && x[Lead(a)..] == a[Lead(a)..][..m - Lead(a)]
  {
    var x := a[..m];
    var n := BlankRun(a[|NEEDLE|..]);
    SliceCut(a, |NEEDLE|, m);
    SliceCut(a, Lead(a), m);
    BlankRunIs(x[|NEEDLE|..], n);
  }

  lemma SliceCut(a: string, n: nat, m: nat)
    requires n <= m <= |a|
    ensures a[..m][n..] == a[n..][..m - n]
  {
  }

  /** A span that ends before `m` ends there in the text up to `m` too. */
  lemma SpanCut(a: string, m: nat)
    requires NEEDLE <= a && SpanEnd(a) <= m <= |a|
    requires if HasPayload(a) then Closes(a[Lead(a)..], START) else SpanEnd(a) < m
    ensures var x := a[..m];
            && NEEDLE <= x && Lead(x) == Lead(a) && HasPayload(x) == HasPayload(a) && SpanEnd(x) == SpanEnd(a)
            && (HasPayload(x) ==> Closes(x[Lead(x)..], START))
  {
    LeadCut(a, m);
    var body, k := a[Lead(a)..], m - Lead(a);
    hide Lead, BlankRun, NEEDLE;
    assert body == body[..k] + body[k..];
    if HasPayload(a) {
      ClosesWithin(body, START, k);
      DropSplits(body[..k], body[k..], START);
    } else {
      PlainRunStops(body[..k], body[k..]);
    }
  }

  lemma {:induction false} ClosesWithin(t: string, r: Reader, m: nat)
    requires Closes(t, r) && DropFrom(t, r) <= m <= |t|
    ensures Closes(t[..m], r)
    decreases |t|
  {
    if !(t[0] == '}' && !r.quoted && r.depth == 1) {
      assert t[..m][1..] == t[1..][..m - 1];
      ClosesWithin(t[1..], ReadChar(r, t[0]), m - 1);
    }
  }

  /** The first step of the scanner over a prefix, seen from the whole text. */
  lemma ModeOfPrefix(a: string, m: nat)
    requires a != "" && m <= |a|
    ensures !(NEEDLE <= a) && m > 0 ==> ModeAfter(a[..m]) == ModeAfter(a[1..][..m - 1])
    ensures && NEEDLE <= a && SpanEnd(a) <= m
            && (if HasPayload(a) then Closes(a[Lead(a)..], START) else SpanEnd(a) < m) ==>
              ModeAfter(a[..m]) == ModeAfter(a[SpanEnd(a)..][..m - SpanEnd(a)])
  {
    var x := a[..m];
    if !(NEEDLE <= a) {
      if m > 0 {
        assert !(NEEDLE <= x);
        assert x[1..] == a[1..][..m - 1];
        hide NEEDLE;
        ModeAtStart(x);
      }
    } else if SpanEnd(a) <= m && (if HasPayload(a) then Closes(a[Lead(a)..], START) else SpanEnd(a) < m) {
      SpanCut(a, m);
      assert x[SpanEnd(a)..] == a[SpanEnd(a)..][..m - SpanEnd(a)];
      hide ModeAfter;
      ModeAtStart(x);
    }
  }

  lemma ModeEmpty()
    ensures ModeAfter("") == Gap
  {
  }

  lemma {:induction false} BareHasStart(a: string) returns (i: nat)
    requires ModeAfter(a) == Bare
    ensures BareFrom(a, i)
    decreases |a|
  {
    hide ModeAfter, BareFrom;
    ModeEmpty();
    ModeAtStart(a);
    if !(NEEDLE <= a) {
      var k := BareHasStart(a[1..]);
      i := k + 1;
      BareLater(a, 1, k);
    } else if !HasPayload(a) && SpanEnd(a) == |a| {
      i := 0;
      BareNow(a);
    } else {
      var k := BareHasStart(a[SpanEnd(a)..]);
      i := SpanEnd(a) + k;
      BareLater(a, SpanEnd(a), k);
    }
  }

  lemma BareNow(a: string)
    requires NEEDLE <= a && !HasPayload(a) && SpanEnd(a) == |a|
    ensures BareFrom(a, 0)
  {
    BareIsPlain(a);
    assert a[..0] == "" && a[0..] == a;
  }

  lemma BareMoves(a: string, d: nat, k: nat)
    requires d <= |a| && BareFrom(a[d..], k) && ModeAfter(a[..d + k]) == ModeAfter(a[d..][..k])
    ensures BareFrom(a, d + k)
  {
    hide NEEDLE, HasPayload, Plain, ModeAfter;
    assert a[d + k..] == a[d..][k..];
  }

  lemma BareInside(a: string, k: nat)
    requires BareFrom(a, k)
    ensures k <= |a| && (k == 0 ==> NEEDLE <= a)
  {
    hide HasPayload, Plain, ModeAfter;
    assert k == 0 ==> a[0..] == a;
  }

  lemma BareLater(a: string, d: nat, k: nat)
    requires a != "" && d <= |a| && BareFrom(a[d..], k)
    requires if NEEDLE <= a then d == SpanEnd(a) && (HasPayload(a) ==> Closes(a[Lead(a)..], START)) else d == 1
    ensures BareFrom(a, d + k)
  {
    hide BareFrom, SpanEnd, HasPayload, Closes, ModeAfter, Lead;
    BareInside(a[d..], k);
    if NEEDLE <= a && !HasPayload(a) { NoNeedleAtTerminator(a); }
    ModeOfPrefix(a, d + k);
    BareMoves(a, d, k);
  }

  /** A bare span ends at a terminator, not at the next `details=`. */
  lemma NoNeedleAtTerminator(a: string)
    requires NEEDLE <= a && !HasPayload(a)
    ensures !(NEEDLE <= a[SpanEnd(a)..])
  {
    var body, rest := a[Lead(a)..], a[SpanEnd(a)..];
    assert rest == body[PlainRun(body)..];
    if rest != "" {
      assert rest[0] == body[PlainRun(body)];
      assert IsTerminator(rest[0]) && !IsTerminator(NEEDLE[0]);
    }
  }

  lemma GapShifts(a: string, i: nat)
    requires 0 < i && BareFrom(a, i) && !(NEEDLE <= a[..i])
    ensures BareFrom(a[1..], i - 1) && ModeAfter(a) == ModeAfter(a[1..])
  {
    hide HasPayload, Plain;
    var x, y := a[..i], a[i..];
    assert a == x + y;
    NoStraddle(x, y);
    ModeAtStart(a);
    ModeAtStart(x);
    hide ModeAfter;
    assert a[1..][..i - 1] == x[1..] && a[1..][i - 1..] == y;
  }

  lemma SpanShifts(a: string, i: nat) returns (d: nat)
    requires 0 < i && BareFrom(a, i) && NEEDLE <= a[..i]
    ensures 0 < d <= i && BareFrom(a[d..], i - d) && ModeAfter(a) == ModeAfter(a[d..])
  {
    hide HasPayload, Plain, SpanEnd, SpanOut, Closes;
    var x, y := a[..i], a[i..];
    assert a == x + y;
    ModeAtStart(a);
    ModeAtStart(x);
    SpanHolds(x, y);
    hide ModeAfter;
    d := SpanEnd(x);
    assert a[d..][..i - d] == x[d..] && a[d..][i - d..] == y;
  }

  /** The scanner's first step keeps such a start, if it is not there yet. */
  lemma StartShifts(a: string, i: nat) returns (d: nat)
    requires 0 < i && BareFrom(a, i)
    ensures 0 < d <= i && BareFrom(a[d..], i - d) && ModeAfter(a) == ModeAfter(a[d..])
  {
    hide ModeAfter, BareFrom;
    BareInside(a, i);
    if NEEDLE <= a[..i] {
      d := SpanShifts(a, i);
    } else {
      GapShifts(a, i);
      d := 1;
    }
  }

  lemma {:induction false} StartMakesBare(a: string, i: nat)
    requires BareFrom(a, i)
    ensures ModeAfter(a) == Bare
    decreases |a|
  {
    if i == 0 {
      assert a[0..] == a;
      BareIsPlain(a);
    } else {
      hide ModeAfter, BareFrom;
      var d := StartShifts(a, i);
      StartMakesBare(a[d..], i - d);
    }
  }

  /** A prefix ends inside a bare span exactly when the scanner meets, between
      spans, a `details=` without payload that no terminator follows in it. */
  lemma BareExactly(a: string)
    ensures ModeAfter(a) == Bare <==> exists i :: BareFrom(a, i)
  {
    hide ModeAfter, BareFrom;
    if ModeAfter(a) == Bare { var i := BareHasStart(a); }
    forall i | BareFrom(a, i) ensures ModeAfter(a) == Bare { StartMakesBare(a, i); }
  }

  /** So one that lies in the stretch after a bare `details=` stays, up to the next
      terminator, whatever it is. */
  lemma BareSpanShields(a: string, t: string)
    requires NEEDLE <= a && !HasPayload(a) && Plain(a) && NEEDLE <= t
    ensures Strip(a + t) == a + (t[..PlainRun(t)] + Strip(t[PlainRun(t)..]))
  {
    hide Strip, PlainRun, HasPayload, SpanEnd;
    BareIsPlain(a);
    BareSpanAlone(a);
    BareContinues(a, t);
  }

  /** And if no other `details=` comes after that, the text is left as it is. */
  lemma BareSpanLeaks(a: string, t: string)
    requires NEEDLE <= a && !HasPayload(a) && Plain(a) && NEEDLE <= t
    requires forall k :: PlainRun(t) <= k <= |t| ==> !(NEEDLE <= t[k..])
    ensures Strip(a + t) == a + t
  {
    hide Strip, PlainRun, HasPayload;
    BareSpanShields(a, t);
    RestCopied(t, PlainRun(t));
    assert t == t[..PlainRun(t)] + t[PlainRun(t)..];
  }

  lemma RestCopied(t: string, n: nat)
    requires n <= |t| && forall k :: n <= k <= |t| ==> !(NEEDLE <= t[k..])
    ensures Strip(t[n..]) == t[n..]
  {
    hide Strip;
    SuffixCopied(t, n, |t|);
    StripEmpty();
    assert t[|t|..] == "" && t[n..|t|] == t[n..];
  }

  /** Text with no brace in it is left alone. */
  lemma {:induction false} NoBraceUnchanged(t: string)
    requires '{' !in t
    ensures Strip(t) == t
    decreases |t|
  {
    if t == "" {
      StripEmpty();
    } else {
      hide Strip, SpanOut, SpanEnd;
      if NEEDLE <= t {
        SpanWithoutBrace(t);
        SpanSplits(t);
        NoBraceUnchanged(t[SpanEnd(t)..]);
        assert t == t[..SpanEnd(t)] + t[SpanEnd(t)..];
      } else {
        GapCopied(t);
        NoBraceUnchanged(t[1..]);
        assert t == [t[0]] + t[1..];
      }
    }
  }

  lemma SpanWithoutBrace(t: string)
    requires NEEDLE <= t && '{' !in t
    ensures SpanOut(t) == t[..SpanEnd(t)]
  {
    hide DropFrom, PlainRun, BlankRun;
  }

  // ------------------------------------------------------------- truncation

  /** `_safe_repr`, from the text that `repr` gave: redaction comes first, so
      the cut falls in redacted text. */
  method SafeRepr(repr: string, maxLen: nat := 50) returns (r: string)
    ensures |r| <= maxLen + |TRUNCATED|
    ensures |Strip(repr)| <= maxLen ==> r == Strip(repr)
    ensures |Strip(repr)| > maxLen ==> r == Strip(repr)[..maxLen] + TRUNCATED
  {
    r := StripDetailsBalanced(repr);
    if |r| > maxLen {
      r := r[..maxLen] + TRUNCATED;
    }
  }

  /** By default fifty characters are shown and then the mark, 64 in all at most. */
  method SafeReprDefault(repr: string) returns (r: string)
    ensures |r| <= 64
    ensures r == if |Strip(repr)| <= 50 then Strip(repr) else Strip(repr)[..50] + "...<truncated>"
  {
    r := SafeRepr(repr);
  }
}
