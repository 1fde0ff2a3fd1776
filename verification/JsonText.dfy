/** Compact JSON text: what `json.dumps` writes with non-ASCII characters left
    alone and no blanks, and a reader for that text (RFC 8259, sections 3 to 7). */
module JsonText {
  import opened JsonValues
  import opened Options

  /** Every value, at every depth, is of a kind the digest layer accepts. */
  ghost predicate Supported(v: PyValue) {
    match v
    case PyList(items) => forall i :: 0 <= i < |items| ==> Supported(items[i])
    case PyDict(entries) => forall i :: 0 <= i < |entries| ==> Supported(entries[i].value)
    case PyFloat => false
    case PyOther => false
    case _ => true
  }

  // ----------------------------------------------------------------- writing
  //
  // Every writer takes the text that is to follow, so that what it writes is
  // put in front of it.

  const HEX := "0123456789abcdef"

  function Escaped(mark: char, rest: string): (text: string) {
    ['\\'] + ([mark] + rest)
  }

  function WriteChar(c: char, rest: string): (text: string) {
    if c == '"' || c == '\\' then Escaped(c, rest)
    else if c == '\n' then Escaped('n', rest)
    else if c == '\r' then Escaped('r', rest)
    else if c == '\t' then Escaped('t', rest)
    else if c as int == 8 then Escaped('b', rest)
    else if c as int == 12 then Escaped('f', rest)
    else if c as int < 32 then Escaped('u', ['0', '0', HEX[c as int / 16], HEX[c as int % 16]] + rest)
    else [c] + rest
  }

  /** The body of a string and its closing quote. */
  function WriteChars(s: string, rest: string): (text: string) {
    if s == "" then ['"'] + rest else WriteChar(s[0], WriteChars(s[1..], rest))
  }

  function DigitChar(d: nat): (c: char)
    requires d < 10
    ensures IsDigit(c) && DigitValue(c) == d
  {
    ('0' as int + d) as char
  }

  function WriteNat(n: nat, rest: string): (text: string)
    ensures text != "" && IsDigit(text[0])
  {
    if n < 10 then [DigitChar(n)] + rest else WriteNat(n / 10, [DigitChar(n % 10)] + rest)
  }

  function Write(v: PyValue, rest: string): (text: string)
    decreases v, 1
  {
    match v
    case PyNone => "null" + rest
    case PyBool(b) => (if b then "true" else "false") + rest
    case PyInt(n) => if n < 0 then ['-'] + WriteNat(-n, rest) else WriteNat(n, rest)
    case PyStr(s) => ['"'] + WriteChars(s, rest)
    case PyList(items) => ['['] + (if items == [] then [']'] + rest else WriteItems(items, rest))
    case PyDict(entries) => ['{'] + (if entries == [] then ['}'] + rest else WriteEntries(entries, rest))
    case PyFloat => rest
    case PyOther => rest
  }

  /** The items of a list and its closing bracket. */
  function WriteItems(items: seq<PyValue>, rest: string): (text: string)
    requires items != []
    decreases items, 0
  {
    Write(items[0], if |items| == 1 then [']'] + rest else [','] + WriteItems(items[1..], rest))
  }

  /** The members of an object and its closing brace. */
  function WriteEntries(entries: seq<Entry>, rest: string): (text: string)
    requires entries != []
    decreases entries, 0
  {
    WriteEntry(entries[0], if |entries| == 1 then ['}'] + rest else [','] + WriteEntries(entries[1..], rest))
  }

  function WriteEntry(e: Entry, rest: string): (text: string)
    decreases e, 2
  {
    ['"'] + WriteChars(e.key, [':'] + Write(e.value, rest))
  }

  // ----------------------------------------------------------------- reading

  predicate IsDigit(c: char) { '0' <= c <= '9' }

  function DigitValue(c: char): (n: nat)
    requires IsDigit(c)
  {
    c as int - '0' as int
  }

  function HexValue(c: char): (n: nat)
    ensures n < 16
  {
    if '0' <= c <= '9' then c as int - '0' as int
    else if 'a' <= c <= 'f' then c as int - 'a' as int + 10
    else if 'A' <= c <= 'F' then c as int - 'A' as int + 10
    else 0
  }

  function ReadDigits(text: string, value: nat): (r: (nat, string))
    ensures |r.1| <= |text|
  {
    if text != "" && IsDigit(text[0]) then ReadDigits(text[1..], value * 10 + DigitValue(text[0]))
    else (value, text)
  }

  function ReadEscape(text: string): (r: Option<(char, string)>)
    ensures r.Some? ==> |r.value.1| < |text|
  {
    if text == "" then None
    else match text[0]
      case 'n' => Some(('\n', text[1..]))
      case 'r' => Some(('\r', text[1..]))
      case 't' => Some(('\t', text[1..]))
      case 'b' => Some((8 as char, text[1..]))
      case 'f' => Some((12 as char, text[1..]))
      case 'u' =>
        if |text| < 5 || text[1..3] != "00" then None
        else Some(((HexValue(text[3]) * 16 + HexValue(text[4])) as char, text[5..]))
      case c => if c in "\"\\/" then Some((c, text[1..])) else None
  }

  function ReadChars(text: string): (r: Option<(string, string)>)
    ensures r.Some? ==> |r.value.1| < |text|
  {
    if text == "" then None
    else if text[0] == '"' then Some(("", text[1..]))
    else if text[0] == '\\' then
      match ReadEscape(text[1..])
      case None => None
      case Some((c, rest)) =>
        match ReadChars(rest)
        case None => None
        case Some((s, tail)) => Some(([c] + s, tail))
    else
      match ReadChars(text[1..])
      case None => None
      case Some((s, tail)) => Some(([text[0]] + s, tail))
  }

  function Read(text: string): (r: Option<(PyValue, string)>)
    ensures r.Some? ==> |r.value.1| < |text|
    decreases |text|, 1
  {
    if text == "" then None
    else match text[0]
      case 'n' => ReadWord("null", PyNone, text)
      case 't' => ReadWord("true", PyBool(true), text)
      case 'f' => ReadWord("false", PyBool(false), text)
      case '"' => ReadString(text[1..])
      case '[' => ReadList(text[1..])
      case '{' => ReadDict(text[1..])
      case '-' => ReadInt(text[1..], true)
      case _ => ReadInt(text, false)
  }

  function ReadWord(word: string, v: PyValue, text: string): (r: Option<(PyValue, string)>)
    requires word != ""
    ensures r.Some? ==> |r.value.1| < |text|
  {
    if word <= text then Some((v, text[|word|..])) else None
  }

  function ReadString(text: string): (r: Option<(PyValue, string)>)
    ensures r.Some? ==> |r.value.1| < |text|
  {
    match ReadChars(text)
    case None => None
    case Some((s, rest)) => Some((PyStr(s), rest))
  }

  function ReadInt(text: string, negative: bool): (r: Option<(PyValue, string)>)
    ensures r.Some? ==> |r.value.1| < |text|
  {
    if text == "" || !IsDigit(text[0]) then None
    else
      var (n, rest) := ReadDigits(text[1..], DigitValue(text[0]));
      Some((PyInt(if negative then 0 - n as int else n), rest))
  }

  function ReadList(text: string): (r: Option<(PyValue, string)>)
    ensures r.Some? ==> |r.value.1| < |text|
    decreases |text|, 4
  {
    if text == "" then None
    else if text[0] == ']' then Some((PyList([]), text[1..]))
    else match ReadItems(text)
      case None => None
      case Some((items, rest)) => Some((PyList(items), rest))
  }

  function ReadDict(text: string): (r: Option<(PyValue, string)>)
    ensures r.Some? ==> |r.value.1| < |text|
    decreases |text|, 4
  {
    if text == "" then None
    else if text[0] == '}' then Some((PyDict([]), text[1..]))
    else match ReadEntries(text)
      case None => None
      case Some((entries, rest)) => Some((PyDict(entries), rest))
  }

  function ReadItems(text: string): (r: Option<(seq<PyValue>, string)>)
    ensures r.Some? ==> |r.value.1| < |text|
    decreases |text|, 2
  {
    match Read(text)
    case None => None
    case Some((v, rest)) =>
      if rest == "" then None
      else if rest[0] == ']' then Some(([v], rest[1..]))
      else if rest[0] != ',' then None
      else match ReadItems(rest[1..])
        case None => None
        case Some((items, tail)) => Some(([v] + items, tail))
  }

  function ReadEntries(text: string): (r: Option<(seq<Entry>, string)>)
    ensures r.Some? ==> |r.value.1| < |text|
    decreases |text|, 3
  {
    match ReadEntry(text)
    case None => None
    case Some((e, rest)) =>
      if rest == "" then None
      else if rest[0] == '}' then Some(([e], rest[1..]))
      else if rest[0] != ',' then None
      else match ReadEntries(rest[1..])
        case None => None
        case Some((entries, tail)) => Some(([e] + entries, tail))
  }

  function ReadEntry(text: string): (r: Option<(Entry, string)>)
    ensures r.Some? ==> |r.value.1| < |text|
    decreases |text|, 2
  {
    if text == "" || text[0] != '"' then None
    else match ReadChars(text[1..])
      case None => None
      case Some((key, afterKey)) =>
        if afterKey == "" || afterKey[0] != ':' then None
        else match Read(afterKey[1..])
          case None => None
          case Some((v, rest)) => Some((Entry(key, v), rest))
  }

  // ------------------------------------------------------------- round trips

  lemma {:induction false} DigitsReadBack(n: nat, rest: string)
    ensures ReadDigits(WriteNat(n, rest), 0) == ReadDigits(rest, n)
  {
    if n < 10 {
      assert ([DigitChar(n)] + rest)[1..] == rest;
    } else {
      var last := [DigitChar(n % 10)] + rest;
      DigitsReadBack(n / 10, last);
      assert last[1..] == rest;
    }
  }

  lemma NumberReadsBack(n: nat, negative: bool, rest: string)
    requires rest == "" || !IsDigit(rest[0])
    ensures ReadInt(WriteNat(n, rest), negative) == Some((PyInt(if negative then 0 - n as int else n), rest))
  {
    DigitsReadBack(n, rest);
  }

  lemma Tail(c: char, rest: string)
    ensures ([c] + rest)[0] == c && ([c] + rest)[1..] == rest
  {
  }

  /** The first character decides what is read. */
  lemma Dispatch(c: char, rest: string)
    ensures c == '"' ==> Read([c] + rest) == ReadString(rest)
    ensures c == '[' ==> Read([c] + rest) == ReadList(rest)
    ensures c == '{' ==> Read([c] + rest) == ReadDict(rest)
    ensures c == '-' ==> Read([c] + rest) == ReadInt(rest, true)
  {
    Tail(c, rest);
  }

  lemma DigitStarts(text: string)
    requires text != "" && IsDigit(text[0])
    ensures Read(text) == ReadInt(text, false)
  {
  }

  lemma NegativeReadsBack(n: nat, rest: string)
    requires rest == "" || !IsDigit(rest[0])
    ensures Read(['-'] + WriteNat(n, rest)) == Some((PyInt(0 - n), rest))
  {
    NumberReadsBack(n, true, rest);
    Dispatch('-', WriteNat(n, rest));
  }

  lemma NaturalReadsBack(n: nat, rest: string)
    requires rest == "" || !IsDigit(rest[0])
    ensures Read(WriteNat(n, rest)) == Some((PyInt(n), rest))
  {
    NumberReadsBack(n, false, rest);
    DigitStarts(WriteNat(n, rest));
  }

  lemma WordReadsBack(word: string, v: PyValue, rest: string)
    requires word != ""
    ensures ReadWord(word, v, word + rest) == Some((v, rest))
  {
    assert (word + rest)[|word|..] == rest;
  }

  lemma WordsReadBack(v: PyValue, rest: string)
    requires v.PyNone? || v.PyBool?
    ensures Read(Write(v, rest)) == Some((v, rest))
  {
    WordReadsBack("null", v, rest);
    WordReadsBack("true", v, rest);
    WordReadsBack("false", v, rest);
  }

  lemma EscapeReadsBack(mark: char, rest: string)
    ensures ReadChars(Escaped(mark, rest)) ==
            match ReadEscape([mark] + rest)
            case None => None
            case Some((c, after)) =>
              match ReadChars(after)
              case None => None
              case Some((s, tail)) => Some(([c] + s, tail))
  {
    assert Escaped(mark, rest)[1..] == [mark] + rest;
  }

  predicate HasShortEscape(c: char) {
    c == '"' || c == '\\' || c == '\n' || c == '\r' || c == '\t' || c as int == 8 || c as int == 12
  }

  function ShortMark(c: char): char
    requires HasShortEscape(c)
  {
    if c == '\n' then 'n' else if c == '\r' then 'r' else if c == '\t' then 't'
    else if c as int == 8 then 'b' else if c as int == 12 then 'f' else c
  }

  lemma ShortMarkWritten(c: char, rest: string)
    requires HasShortEscape(c)
    ensures WriteChar(c, rest) == Escaped(ShortMark(c), rest)
  {
    hide Escaped;
  }

  lemma ShortMarkRead(c: char, text: string)
    requires HasShortEscape(c) && text != "" && text[0] == ShortMark(c)
    ensures ReadEscape(text) == Some((c, text[1..]))
  {
  }

  lemma ShortEscapeReadsBack(c: char, rest: string)
    requires HasShortEscape(c)
    ensures exists mark :: WriteChar(c, rest) == Escaped(mark, rest) && ReadEscape([mark] + rest) == Some((c, rest))
  {
    hide WriteChar, ReadEscape, Escaped;
    ShortMarkWritten(c, rest);
    Tail(ShortMark(c), rest);
    ShortMarkRead(c, [ShortMark(c)] + rest);
  }

  lemma ControlReadsBack(n: nat, rest: string)
    requires n < 32
    ensures ReadEscape(['u'] + (['0', '0', HEX[n / 16], HEX[n % 16]] + rest)) == Some((n as char, rest))
  {
    var body := ['u'] + (['0', '0', HEX[n / 16], HEX[n % 16]] + rest);
    assert body[0] == 'u' && body[1..3] == "00" && body[5..] == rest;
    assert body[3] == HEX[n / 16] && body[4] == HEX[n % 16];
    assert HexValue(HEX[n / 16]) == n / 16 && HexValue(HEX[n % 16]) == n % 16;
  }

  lemma CharReadsBack(c: char, rest: string)
    requires ReadChars(rest).Some?
    ensures ReadChars(WriteChar(c, rest)) ==
            Some(([c] + ReadChars(rest).value.0, ReadChars(rest).value.1))
  {
    var n := c as int;
    if HasShortEscape(c) {
      ShortEscapeReadsBack(c, rest);
      var mark :| WriteChar(c, rest) == Escaped(mark, rest) && ReadEscape([mark] + rest) == Some((c, rest));
      EscapeReadsBack(mark, rest);
    } else if n < 32 {
      EscapeReadsBack('u', ['0', '0', HEX[n / 16], HEX[n % 16]] + rest);
      ControlReadsBack(n, rest);
    } else {
      Tail(c, rest);
    }
  }

  lemma {:induction false} CharsReadBack(s: string, rest: string)
    ensures ReadChars(WriteChars(s, rest)) == Some((s, rest))
  {
    if s == "" {
      assert (['"'] + rest)[1..] == rest;
    } else {
      CharsReadBack(s[1..], rest);
      CharReadsBack(s[0], WriteChars(s[1..], rest));
      assert s == [s[0]] + s[1..];
    }
  }

  /** Reading what was written gives the value back and stops where it ended.
      A number has no closing mark, so what follows must not extend it. */
  lemma {:induction false} ReadsBack(v: PyValue, rest: string)
    requires Supported(v)
    requires rest == "" || !IsDigit(rest[0])
    ensures Read(Write(v, rest)) == Some((v, rest))
    decreases v, 1
  {
    match v {
      case PyStr(s) =>
        CharsReadBack(s, rest);
        Dispatch('"', WriteChars(s, rest));
      case PyList(items) =>
        if items == [] { Tail(']', rest); } else { ItemsReadBack(items, rest); }
        Dispatch('[', if items == [] then [']'] + rest else WriteItems(items, rest));
      case PyDict(entries) =>
        if entries == [] { Tail('}', rest); } else { EntriesReadBack(entries, rest); }
        Dispatch('{', if entries == [] then ['}'] + rest else WriteEntries(entries, rest));
      case PyInt(n) => if n < 0 { NegativeReadsBack(-n, rest); } else { NaturalReadsBack(n, rest); }
      case _ => WordsReadBack(v, rest);
    }
  }

  /** No value starts with a closing bracket. */
  lemma WrittenStart(v: PyValue, rest: string)
    requires Supported(v)
    ensures Write(v, rest) != "" && Write(v, rest)[0] != ']'
  {
  }

  lemma {:induction false} ItemsReadBack(items: seq<PyValue>, rest: string)
    requires items != []
    requires forall i :: 0 <= i < |items| ==> Supported(items[i])
    ensures ReadItems(WriteItems(items, rest)) == Some((items, rest))
    ensures WriteItems(items, rest) != "" && WriteItems(items, rest)[0] != ']'
    decreases items, 0
  {
    if |items| == 1 {
      Tail(']', rest);
      ReadsBack(items[0], [']'] + rest);
      WrittenStart(items[0], [']'] + rest);
      assert items == [items[0]];
    } else {
      var more := WriteItems(items[1..], rest);
      Tail(',', more);
      ReadsBack(items[0], [','] + more);
      WrittenStart(items[0], [','] + more);
      ItemsReadBack(items[1..], rest);
      assert items == [items[0]] + items[1..];
    }
  }

  lemma {:induction false} EntryReadsBack(e: Entry, rest: string)
    requires Supported(e.value)
    requires rest == "" || !IsDigit(rest[0])
    ensures ReadEntry(WriteEntry(e, rest)) == Some((e, rest))
    decreases e, 2
  {
    var tail := Write(e.value, rest);
    ReadsBack(e.value, rest);
    Tail(':', tail);
    CharsReadBack(e.key, [':'] + tail);
    Tail('"', WriteChars(e.key, [':'] + tail));
  }

  lemma {:induction false} EntriesReadBack(entries: seq<Entry>, rest: string)
    requires entries != []
    requires forall i :: 0 <= i < |entries| ==> Supported(entries[i].value)
    ensures ReadEntries(WriteEntries(entries, rest)) == Some((entries, rest))
    ensures WriteEntries(entries, rest) != "" && WriteEntries(entries, rest)[0] != '}'
    decreases entries, 0
  {
    if |entries| == 1 {
      Tail('}', rest);
      EntryReadsBack(entries[0], ['}'] + rest);
      assert entries == [entries[0]];
    } else {
      var more := WriteEntries(entries[1..], rest);
      Tail(',', more);
      EntryReadsBack(entries[0], [','] + more);
      EntriesReadBack(entries[1..], rest);
      assert entries == [entries[0]] + entries[1..];
    }
  }

  /** Distinct values have distinct texts. */
  lemma WriteInjective(a: PyValue, b: PyValue)
    requires Supported(a) && Supported(b) && Write(a, "") == Write(b, "")
    ensures a == b
  {
    ReadsBack(a, "");
    ReadsBack(b, "");
  }
}
