/** The canonical text of one envelope: which fields it has, in which order, and
    how it is written. */
module CanonicalTexts {
  import opened BusinessImpacts
  import opened JsonText
  import opened JsonValues
  import opened Options
  import opened Utf8

  // ----------------------------------------------------------------- meaning

  /** What the backend reads: five fields, or one. */
  ghost function Fields5(impact: Impact): Json {
    match impact
    case NoImpact => JObj(map["kind" := JStr("none")])
    case ToolCall(name, params, id, version) =>
      JObj(map["kind" := JStr("tool_call"),
               "tool_name" := JStr(name),
               "params" := Meaning(PyDict(params)),
               "extractor_id" := JStr(id),
               "extractor_version" := JStr(version)])
  }

  lemma WireIs(impact: Impact)
    requires IsImpact(impact)
    ensures Meaning(Wire(impact)) == Fields5(impact)
  {
    var entries := Wire(impact).entries;
    WireKeys(impact);
    if impact.ToolCall? {
      hide Fields;
      FiveEntries(entries, ["kind", "tool_name", "params", "extractor_id", "extractor_version"],
                  [JStr("tool_call"), JStr(impact.toolName), Meaning(PyDict(impact.params)),
                   JStr(impact.extractorId), JStr(impact.extractorVersion)]);
    } else {
      assert entries[1..] == [];
    }
  }

  lemma FiveEntries(entries: seq<Entry>, k: seq<string>, v: seq<Json>)
    requires UniqueKeys(entries) && |entries| == |k| == |v| == 5
    requires forall i :: 0 <= i < 5 ==> entries[i].key == k[i] && Meaning(entries[i].value) == v[i]
    ensures Fields(entries) == map[k[0] := v[0], k[1] := v[1], k[2] := v[2], k[3] := v[3], k[4] := v[4]]
  {
    hide Fields, Meaning;
    EntriesFound(entries);
    FiveFields(Fields(entries), k, v);
  }

  lemma EntriesFound(entries: seq<Entry>)
    requires UniqueKeys(entries)
    ensures forall i :: 0 <= i < |entries| ==>
              entries[i].key in Fields(entries) && Fields(entries)[entries[i].key] == Meaning(entries[i].value)
    ensures forall k :: k in Fields(entries) ==> exists i :: 0 <= i < |entries| && entries[i].key == k
  {
    forall i: nat | i < |entries|
      ensures entries[i].key in Fields(entries) && Fields(entries)[entries[i].key] == Meaning(entries[i].value)
    {
      FieldAt(entries, i);
    }
    forall k | k in Fields(entries)
      ensures exists i :: 0 <= i < |entries| && entries[i].key == k
    {
      var i := FieldFrom(entries, k);
    }
  }

  lemma FiveFields(fields: map<string, Json>, k: seq<string>, v: seq<Json>)
    requires |k| == |v| == 5 && forall i, j :: 0 <= i < j < 5 ==> k[i] != k[j]
    requires forall i :: 0 <= i < 5 ==> k[i] in fields && fields[k[i]] == v[i]
    requires forall key :: key in fields ==> key in k
    ensures fields == map[k[0] := v[0], k[1] := v[1], k[2] := v[2], k[3] := v[3], k[4] := v[4]]
  {
  }

  // ------------------------------------------------------------------- order

  /** Smaller at the first code point that differs, or shorter with none. */
  ghost predicate Smaller(a: string, b: string) {
    exists k :: 0 <= k <= |a| && k <= |b| && a[..k] == b[..k] && SmallerAt(a, b, k)
  }

  predicate SmallerAt(a: string, b: string, k: nat)
    requires k <= |a| && k <= |b|
  {
    k < |b| && (k < |a| ==> a[k] < b[k])
  }

  lemma {:induction false} BeforeExactly(a: string, b: string)
    ensures Before(a, b) <==> Smaller(a, b)
    decreases |a|
  {
    if b == "" {
    } else if a == "" {
      assert a[..0] == b[..0] && SmallerAt(a, b, 0);
    } else if a[0] != b[0] {
      if a[0] < b[0] { assert a[..0] == b[..0] && SmallerAt(a, b, 0); }
      if Smaller(a, b) {
        var k :| 0 <= k <= |a| && k <= |b| && a[..k] == b[..k] && SmallerAt(a, b, k);
        assert k == 0 || a[..k][0] == b[..k][0];
      }
    } else {
      BeforeExactly(a[1..], b[1..]);
      if Smaller(a[1..], b[1..]) {
        var k :| 0 <= k <= |a| - 1 && k <= |b| - 1 && a[1..][..k] == b[1..][..k] && SmallerAt(a[1..], b[1..], k);
        assert a[..k + 1] == [a[0]] + a[1..][..k] && b[..k + 1] == [b[0]] + b[1..][..k];
        assert SmallerAt(a, b, k + 1);
      }
      if Smaller(a, b) {
        var k :| 0 <= k <= |a| && k <= |b| && a[..k] == b[..k] && SmallerAt(a, b, k);
        assert k > 0;
        assert a[1..][..k - 1] == a[..k][1..] && b[1..][..k - 1] == b[..k][1..];
        assert SmallerAt(a[1..], b[1..], k - 1);
      }
    }
  }

  /** In every object, at every depth, each key is smaller than those after it. */
  ghost predicate KeysInOrder(v: PyValue) {
    match v
    case PyList(items) => forall i :: 0 <= i < |items| ==> KeysInOrder(items[i])
    case PyDict(entries) =>
      && (forall i, j :: 0 <= i < j < |entries| ==> Smaller(entries[i].key, entries[j].key))
      && forall i :: 0 <= i < |entries| ==> KeysInOrder(entries[i].value)
    case _ => true
  }

  lemma {:induction false} CanonicalInOrder(v: PyValue)
    requires WellFormed(v)
    ensures KeysInOrder(Canonicalize(v))
  {
    match v {
      case PyList(items) =>
        forall i | 0 <= i < |items| ensures KeysInOrder(Canonicalize(items[i])) { CanonicalInOrder(items[i]); }
      case PyDict(entries) =>
        var mid := CanonicalEntries(entries);
        forall i | 0 <= i < |entries| ensures KeysInOrder(mid[i].value) { CanonicalInOrder(entries[i].value); }
        CanonicalDict(entries);
        SortKeeps(mid);
        var sorted := SortByKey(mid);
        forall i, j | 0 <= i < j < |sorted| ensures Smaller(sorted[i].key, sorted[j].key) {
          BeforeExactly(sorted[i].key, sorted[j].key);
        }
        forall i | 0 <= i < |sorted| ensures KeysInOrder(sorted[i].value) { assert sorted[i] in mid; }
      case _ =>
    }
  }

  // ----------------------------------------------------------------- reading

  /** An accepted envelope is hashed as one text in UTF-8, and that text reads as
      exactly the fields of this envelope, each key in its place. */
  lemma EnvelopeRead(impact: Impact) returns (text: string, v: PyValue)
    requires IsImpact(impact) && Validate(impact).None?
    ensures CanonicalBytes(impact) == Ok(Encode(text))
    ensures HashedBytes(impact) == Ok(Encode("nullrun/v1/business_impact:") + Encode(text))
    ensures Read(text) == Some((v, ""))
    ensures Meaning(v) == Fields5(impact) && KeysInOrder(v)
  {
    var wire := Wire(impact);
    v := Canonicalize(wire);
    text := Write(v, "");
    WireKeys(impact);
    WireSupported(impact);
    CanonicalizeKeepsSupport(wire);
    CanonicalizeKeepsMeaning(wire);
    CanonicalInOrder(wire);
    WireIs(impact);
    ReadsBack(v, "");
    hide Write, Read, Canonicalize, Meaning, KeysInOrder, Validate;
  }

  // ----------------------------------------------------------------- writing

  predicate Unescaped(c: char) {
    c as int >= 32 && c != '"' && c != '\\'
  }

  predicate LowerHex(c: char) {
    '0' <= c <= '9' || 'a' <= c <= 'f'
  }

  /** Every character takes the shortest form there is: itself, an escape of two, or
      a `\u` with four lower-case digits for any other control character. */
  lemma ShortestForm(c: char, rest: string)
    ensures Unescaped(c) ==> WriteChar(c, rest) == [c] + rest
    ensures !Unescaped(c) && (c as int >= 32 || c as int in {8, 9, 10, 12, 13}) ==> |WriteChar(c, rest)| == 2 + |rest|
    ensures c as int < 32 && c as int !in {8, 9, 10, 12, 13} ==> |WriteChar(c, rest)| == 6 + |rest|
    ensures c as int < 32 && c as int !in {8, 9, 10, 12, 13} ==>
              forall i :: 2 <= i < 6 ==> LowerHex(WriteChar(c, rest)[i])
  {
    if c as int < 32 { HexIsLower(c as int / 16, c as int % 16); }
  }

  lemma HexIsLower(high: nat, low: nat)
    requires high < 16 && low < 16
    ensures LowerHex(HEX[high]) && LowerHex(HEX[low])
  {
  }

  /** No number starts with a zero but zero itself. */
  lemma {:induction false} NoLeadingZero(n: nat, rest: string)
    ensures if n == 0 then WriteNat(n, rest) == "0" + rest else WriteNat(n, rest)[0] != '0'
    decreases n
  {
    if n >= 10 { NoLeadingZero(n / 10, [DigitChar(n % 10)] + rest); }
  }

  /** Only a negative number has a sign. */
  lemma SignIfNegative(n: int, rest: string)
    ensures Write(PyInt(n), rest)[0] == '-' <==> n < 0
  {
  }

  lemma {:induction false} CharsPlain(s: string, rest: string)
    requires forall i :: 0 <= i < |s| ==> Unescaped(s[i])
    ensures WriteChars(s, rest) == s + (['"'] + rest)
    decreases |s|
  {
    if s == "" {
      assert s + (['"'] + rest) == ['"'] + rest;
    } else {
      CharsPlain(s[1..], rest);
      ShortestForm(s[0], WriteChars(s[1..], rest));
      assert s == [s[0]] + s[1..];
    }
  }

  /** No blank stands between the parts of a list or of an object. */
  lemma ListCompact()
    ensures Write(PyList([PyInt(-7), PyNone]), "") == "[-7,null]"
  {
    assert [PyInt(-7), PyNone][1..] == [PyNone];
    assert WriteNat(7, ",null]") == "7,null]";
  }

  lemma EntryCompact(key: string, v: PyValue, rest: string)
    requires forall i :: 0 <= i < |key| ==> Unescaped(key[i])
    ensures WriteEntry(Entry(key, v), rest) == "\"" + key + "\":" + Write(v, rest)
  {
    CharsPlain(key, [':'] + Write(v, rest));
  }

  lemma ObjectCompact(a: Entry, b: Entry)
    ensures Write(PyDict([a, b]), "") == "{" + WriteEntry(a, "," + WriteEntry(b, "}"))
  {
    hide WriteEntry;
    assert [a, b][1..] == [b] && ['}'] + "" == "}";
    assert WriteEntries([b], "") == WriteEntry(b, "}");
  }
}
