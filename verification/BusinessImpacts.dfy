/** The impact envelope of one protected call and the bytes its digest is taken
    over: validation, wire form, key sort, compact text, UTF-8. */
module BusinessImpacts {
  import opened JsonValues
  import opened JsonText
  import opened Options
  import opened Utf8

  const MAX_TOOL_NAME_BYTES := 128
  const MAX_PARAM_NAME_BYTES := 64
  const DIGEST_PREFIX := "nullrun/v1/business_impact:"

  datatype Impact =
    | NoImpact
    | ToolCall(toolName: string, params: seq<Entry>, extractorId: string, extractorVersion: string)

  datatype Refusal =
    | EmptyToolName
    | ToolNameTooLong
    | ToolNameNotPrintable
    | ParamNameTooLong
    | UnsupportedKind

  // -------------------------------------------------------------- validation

  predicate IsShortName(name: string) {
    |Encode(name)| <= MAX_PARAM_NAME_BYTES
  }

  /** `_reject_unsupported_value`: the first reason to refuse a value, if any. */
  function RejectValue(v: PyValue): (r: Option<Refusal>)
    decreases v, 1
  {
    match v
    case PyList(items) => RejectItems(items)
    case PyDict(entries) => RejectEntries(entries)
    case PyFloat => Some(UnsupportedKind)
    case PyOther => Some(UnsupportedKind)
    case _ => None
  }

  function RejectItems(items: seq<PyValue>): (r: Option<Refusal>)
    decreases items, 0
  {
    if items == [] then None
    else
      var first := RejectValue(items[0]);
      if first.Some? then first else RejectItems(items[1..])
  }

  /** Each name is checked before its value. */
  function RejectEntries(entries: seq<Entry>): (r: Option<Refusal>)
    decreases entries, 0
  {
    if entries == [] then None
    else if !IsShortName(entries[0].key) then Some(ParamNameTooLong)
    else
      var first := RejectValue(entries[0].value);
      if first.Some? then first else RejectEntries(entries[1..])
  }

  predicate IsPrintableAscii(bytes: seq<Byte>) {
    forall i :: 0 <= i < |bytes| ==> 0x20 <= bytes[i] < 0x7F
  }

  /** `ToolCallParams.validate`, and the empty check of the no-impact payload. */
  function Validate(impact: Impact): (r: Option<Refusal>) {
    match impact
    case NoImpact => None
    case ToolCall(name, params, _, _) =>
      if name == "" then Some(EmptyToolName)
      else if |Encode(name)| > MAX_TOOL_NAME_BYTES then Some(ToolNameTooLong)
      else if !IsPrintableAscii(Encode(name)) then Some(ToolNameNotPrintable)
      else RejectEntries(params)
  }

  /** Every object member, at every depth, has a short name. */
  ghost predicate ShortNames(v: PyValue) {
    match v
    case PyList(items) => forall i :: 0 <= i < |items| ==> ShortNames(items[i])
    case PyDict(entries) =>
      forall i :: 0 <= i < |entries| ==> |Encode(entries[i].key)| <= 64 && ShortNames(entries[i].value)
    case _ => true
  }

  lemma {:induction false} RejectValueExact(v: PyValue)
    ensures RejectValue(v).None? <==> Supported(v) && ShortNames(v)
    decreases v, 1
  {
    match v {
      case PyList(items) => RejectItemsExact(items);
      case PyDict(entries) => RejectEntriesExact(entries);
      case _ =>
    }
  }

  lemma {:induction false} RejectItemsExact(items: seq<PyValue>)
    ensures RejectItems(items).None? <==>
            forall i :: 0 <= i < |items| ==> Supported(items[i]) && ShortNames(items[i])
    decreases items, 0
  {
    if items != [] {
      RejectValueExact(items[0]);
      RejectItemsExact(items[1..]);
      assert items == [items[0]] + items[1..];
    }
  }

  lemma {:induction false} RejectEntriesExact(entries: seq<Entry>)
    ensures RejectEntries(entries).None? <==> Supported(PyDict(entries)) && ShortNames(PyDict(entries))
    decreases entries, 0
  {
    if entries != [] {
      RejectValueExact(entries[0].value);
      RejectEntriesExact(entries[1..]);
      assert entries == [entries[0]] + entries[1..];
    }
  }

  /** Validation accepts exactly the envelopes whose name is printable ASCII of
      one to 128 bytes and whose parameters, at every depth, hold no unsupported
      value and no long name. */
  lemma ValidateExact(impact: Impact)
    ensures Validate(impact).None? <==>
            impact.ToolCall? ==>
              && impact.toolName != ""
              && |Encode(impact.toolName)| <= 128
              && (forall i :: 0 <= i < |Encode(impact.toolName)| ==> 0x20 <= Encode(impact.toolName)[i] <= 0x7E)
              && Supported(PyDict(impact.params))
              && ShortNames(PyDict(impact.params))
  {
    if impact.ToolCall? {
      RejectEntriesExact(impact.params);
    }
  }

  /** A refusal gives a reason that is there, the first by name, then by parameter. */
  lemma RefusalSays(impact: Impact)
    requires impact.ToolCall?
    ensures Validate(impact) == Some(EmptyToolName) <==> impact.toolName == ""
    ensures Validate(impact) == Some(ToolNameTooLong) <==> |Encode(impact.toolName)| > 128
    ensures Validate(impact) == Some(ToolNameNotPrintable) ==>
              exists i :: 0 <= i < |Encode(impact.toolName)|
                          && !(0x20 <= Encode(impact.toolName)[i] <= 0x7E)
    ensures Validate(impact) == Some(ParamNameTooLong) ==> !ShortNames(PyDict(impact.params))
    ensures Validate(impact) == Some(UnsupportedKind) ==> !Supported(PyDict(impact.params))
  {
    ReasonHolds(PyDict(impact.params));
  }

  lemma {:induction false} ReasonHolds(v: PyValue)
    ensures RejectValue(v) == Some(ParamNameTooLong) ==> !ShortNames(v)
    ensures RejectValue(v) == Some(UnsupportedKind) ==> !Supported(v)
    ensures RejectValue(v).Some? ==> RejectValue(v).value == ParamNameTooLong || RejectValue(v).value == UnsupportedKind
    decreases v, 1
  {
    match v {
      case PyList(items) => ItemReasonHolds(items);
      case PyDict(entries) => EntryReasonHolds(entries);
      case _ =>
    }
  }

  lemma {:induction false} ItemReasonHolds(items: seq<PyValue>)
    ensures RejectItems(items) == Some(ParamNameTooLong) ==> !ShortNames(PyList(items))
    ensures RejectItems(items) == Some(UnsupportedKind) ==> !Supported(PyList(items))
    ensures RejectItems(items).Some? ==> RejectItems(items).value in {ParamNameTooLong, UnsupportedKind}
    decreases items, 0
  {
    if items != [] {
      ReasonHolds(items[0]);
      ItemReasonHolds(items[1..]);
    }
  }

  lemma {:induction false} EntryReasonHolds(entries: seq<Entry>)
    ensures RejectEntries(entries) == Some(ParamNameTooLong) ==> !ShortNames(PyDict(entries))
    ensures RejectEntries(entries) == Some(UnsupportedKind) ==> !Supported(PyDict(entries))
    ensures RejectEntries(entries).Some? ==> RejectEntries(entries).value in {ParamNameTooLong, UnsupportedKind}
    decreases entries, 0
  {
    if entries != [] {
      ReasonHolds(entries[0].value);
      EntryReasonHolds(entries[1..]);
    }
  }

  // ---------------------------------------------------------- canonical bytes

  /** `to_wire_dict`. */
  function Wire(impact: Impact): (v: PyValue) {
    match impact
    case NoImpact => PyDict([Entry("kind", PyStr("none"))])
    case ToolCall(name, params, id, version) =>
      PyDict([
        Entry("kind", PyStr("tool_call")),
        Entry("tool_name", PyStr(name)),
        Entry("params", PyDict(params)),
        Entry("extractor_id", PyStr(id)),
        Entry("extractor_version", PyStr(version))
      ])
  }

  datatype Bytes = Ok(bytes: seq<Byte>) | Refused(why: Refusal)

  /** `canonical_bytes`. */
  function CanonicalBytes(impact: Impact): (r: Bytes) {
    match Validate(impact)
    case Some(why) => Refused(why)
    case None => Ok(Encode(Write(Canonicalize(Wire(impact)), "")))
  }

  /** What `compute_action_digest` feeds the hash. */
  function HashedBytes(impact: Impact): (r: Bytes) {
    match CanonicalBytes(impact)
    case Refused(why) => Refused(why)
    case Ok(bytes) => Ok(Encode(DIGEST_PREFIX) + bytes)
  }

  /** The parameter bag is a Python dictionary, so its keys are unique at every
      depth. */
  ghost predicate IsImpact(impact: Impact) {
    impact.ToolCall? ==> WellFormed(PyDict(impact.params))
  }

  /** The same action: same kind, same tool, same extractor and, read as JSON
      with unordered objects, the same parameters. */
  ghost predicate SameAction(a: Impact, b: Impact) {
    if a.NoImpact? then b.NoImpact?
    else
      && b.ToolCall?
      && a.toolName == b.toolName
      && a.extractorId == b.extractorId
      && a.extractorVersion == b.extractorVersion
      && Meaning(PyDict(a.params)) == Meaning(PyDict(b.params))
  }

  lemma WireKeys(impact: Impact)
    requires IsImpact(impact)
    ensures WellFormed(Wire(impact))
  {
    var names := ["kind", "tool_name", "params", "extractor_id", "extractor_version"];
    if impact.ToolCall? {
      var entries := Wire(impact).entries;
      assert forall i :: 0 <= i < 5 ==> entries[i].key == names[i];
      assert |names[0]| == 4 && |names[1]| == 9 && |names[2]| == 6 && |names[3]| == 12 && |names[4]| == 17;
      forall i, j | 0 <= i < j < 5 ensures entries[i].key != entries[j].key {
        assert |names[i]| != |names[j]|;
      }
    }
  }

  lemma WireSupported(impact: Impact)
    requires Validate(impact).None?
    ensures Supported(Wire(impact))
  {
    if impact.ToolCall? {
      RejectEntriesExact(impact.params);
    }
  }

  lemma SameMeaningSameAction(a: Impact, b: Impact)
    requires IsImpact(a) && IsImpact(b) && Meaning(Wire(a)) == Meaning(Wire(b))
    ensures SameAction(a, b)
  {
    var ea, eb := Wire(a).entries, Wire(b).entries;
    assert Fields(ea) == Fields(eb);
    WireKeys(a);
    WireKeys(b);
    FieldsAgree(ea, eb, 0, 0);
    assert |"none"| != |"tool_call"|;
    if a.ToolCall? {
      FieldsAgree(ea, eb, 1, 1);
      FieldsAgree(ea, eb, 2, 2);
      FieldsAgree(ea, eb, 3, 3);
      FieldsAgree(ea, eb, 4, 4);
    }
  }

  /** The wire forms mean the same exactly when the actions are the same. */
  lemma WireMeaning(a: Impact, b: Impact)
    requires IsImpact(a) && IsImpact(b)
    ensures Meaning(Wire(a)) == Meaning(Wire(b)) <==> SameAction(a, b)
  {
    if Meaning(Wire(a)) == Meaning(Wire(b)) {
      SameMeaningSameAction(a, b);
    }
    if SameAction(a, b) && a.ToolCall? {
      PointwiseFields(Wire(a).entries, Wire(b).entries);
    }
  }

  lemma {:induction false} CanonicalizeKeepsSupport(v: PyValue)
    requires WellFormed(v) && Supported(v)
    ensures Supported(Canonicalize(v))
  {
    match v {
      case PyList(items) =>
        forall i | 0 <= i < |items| ensures Supported(Canonicalize(items[i])) {
          CanonicalizeKeepsSupport(items[i]);
        }
      case PyDict(entries) =>
        var mid := CanonicalEntries(entries);
        forall i | 0 <= i < |entries| ensures Supported(mid[i].value) {
          CanonicalizeKeepsSupport(entries[i].value);
        }
        CanonicalDict(entries);
        SortKeeps(mid);
        forall i | 0 <= i < |SortByKey(mid)| ensures Supported(SortByKey(mid)[i].value) {
          assert SortByKey(mid)[i] in mid;
        }
      case _ =>
    }
  }

  /** The digest binds the action and nothing else: two accepted envelopes give
      one byte string exactly when they describe the same action. */
  lemma CanonicalBytesBindAction(a: Impact, b: Impact)
    requires IsImpact(a) && IsImpact(b)
    requires CanonicalBytes(a).Ok? && CanonicalBytes(b).Ok?
    ensures CanonicalBytes(a) == CanonicalBytes(b) <==> SameAction(a, b)
  {
    var wa, wb := Wire(a), Wire(b);
    var ca, cb := Canonicalize(wa), Canonicalize(wb);
    WireKeys(a);
    WireKeys(b);
    WireMeaning(a, b);
    if CanonicalBytes(a) == CanonicalBytes(b) {
      EncodeInjective(Write(ca, ""), Write(cb, ""));
      WireSupported(a);
      WireSupported(b);
      CanonicalizeKeepsSupport(wa);
      CanonicalizeKeepsSupport(wb);
      WriteInjective(ca, cb);
      CanonicalizeKeepsMeaning(wa);
      CanonicalizeKeepsMeaning(wb);
    }
    if SameAction(a, b) {
      SameMeaningSameForm(wa, wb);
    }
  }

  lemma PrefixCancels(prefix: seq<Byte>, x: seq<Byte>, y: seq<Byte>)
    requires prefix + x == prefix + y
    ensures x == y
  {
    assert x == (prefix + x)[|prefix|..];
    assert y == (prefix + y)[|prefix|..];
  }

  lemma HashedBytesBindAction(a: Impact, b: Impact)
    requires IsImpact(a) && IsImpact(b)
    requires HashedBytes(a).Ok? && HashedBytes(b).Ok?
    ensures HashedBytes(a) == HashedBytes(b) <==> SameAction(a, b)
  {
    CanonicalBytesBindAction(a, b);
    if HashedBytes(a) == HashedBytes(b) {
      PrefixCancels(Encode(DIGEST_PREFIX), CanonicalBytes(a).bytes, CanonicalBytes(b).bytes);
    }
  }
}
