/** The masked arguments a protected call puts into its envelope, and which calls
    the digest over that envelope tells apart. */
module CallMasks {
  import opened BusinessImpacts
  import opened CallClaims
  import opened JsonValues
  import opened Options
  import opened Programs
  import opened Redaction
  import opened Scopes

  const MASK := "***"
  const MAX_REPR := 50

  predicate IsSensitiveWord(word: string) {
    word in {"password", "passwd", "pwd", "token", "secret", "api_key", "apikey", "key", "auth", "authorization",
             "bearer", "session", "session_id", "cookie", "access_token", "refresh_token", "id_token",
             "private_key", "secret_key", "email", "phone", "ssn", "credit_card", "credit_card_number", "cvv",
             "cvc", "pin", "otp", "mfa"}
  }

  /** Lower case as far as ASCII words are concerned: the capitals, and the Kelvin
      sign, the one other character that becomes an ASCII letter. */
  function LowerChar(c: char): char {
    if 'A' <= c <= 'Z' then (c as int + 32) as char else if c == '\U{212A}' then 'k' else c
  }

  function Lower(s: string): string {
    seq(|s|, i requires 0 <= i < |s| => LowerChar(s[i]))
  }

  predicate Sensitive(name: Option<string>) {
    name.Some? && IsSensitiveWord(Lower(name.value))
  }

  /** What `_safe_repr` makes of a text. */
  function Safe(repr: string): string {
    var s := Strip(repr);
    if |s| <= MAX_REPR then s else s[..MAX_REPR] + TRUNCATED
  }

  function Mask(name: Option<string>, repr: string): string {
    if Sensitive(name) then MASK else Safe(repr)
  }

  /** A call as its wrapper sees it: the function's name and, unless it has no
      signature, its parameter names; the texts `repr` gives for the arguments. */
  datatype Bag = Bag(name: string, signature: Option<seq<string>>, args: seq<string>, kwargs: seq<Kwarg>)
  datatype Kwarg = Kwarg(key: string, repr: string)

  /** The parameter a positional argument is bound to; a surplus one has none. */
  function ParameterOf(signature: Option<seq<string>>, i: nat): Option<string> {
    if signature.Some? && i < |signature.value| then Some(signature.value[i]) else None
  }

  function MaskedArgs(signature: Option<seq<string>>, args: seq<string>): (masked: seq<string>)
    ensures |masked| == |args|
  {
    seq(|args|, i requires 0 <= i < |args| => Mask(ParameterOf(signature, i), args[i]))
  }

  function Shorter(a: nat, b: nat): nat {
    if a < b then a else b
  }

  lemma MaskedMore(signature: Option<seq<string>>, args: seq<string>, i: nat)
    requires i < |args|
    ensures MaskedArgs(signature, args)[..i + 1]
            == MaskedArgs(signature, args)[..i] + [Mask(ParameterOf(signature, i), args[i])]
  {
    hide Mask;
  }

  /** `_safe_repr`, at its default limit. */
  method SafeText(repr: string) returns (safe: string)
    ensures safe == Safe(repr)
  {
    safe := SafeRepr(repr);
  }

  /** `_safe_args`: the arguments bound to a parameter, then the surplus ones. */
  method SafeArgs(signature: Option<seq<string>>, args: seq<string>) returns (masked: seq<string>)
    ensures masked == MaskedArgs(signature, args)
  {
    hide MaskedArgs, Safe, Lower, IsSensitiveWord;
    masked := [];
    var bound := if signature.Some? then Shorter(|signature.value|, |args|) else 0;
    for i := 0 to bound
      invariant masked == MaskedArgs(signature, args)[..i]
    {
      MaskedMore(signature, args, i);
      var mask := MASK;
      if !IsSensitiveWord(Lower(signature.value[i])) { mask := SafeText(args[i]); }
      masked := masked + [mask];
    }
    for i := bound to |args|
      invariant masked == MaskedArgs(signature, args)[..i]
    {
      MaskedMore(signature, args, i);
      var mask := SafeText(args[i]);
      masked := masked + [mask];
    }
  }

  /** `_safe_kwargs`. */
  function MaskedKwargs(kwargs: seq<Kwarg>): seq<Entry> {
    if kwargs == [] then []
    else [Entry(kwargs[0].key, PyStr(Mask(Some(kwargs[0].key), kwargs[0].repr)))] + MaskedKwargs(kwargs[1..])
  }

  function Texts(masked: seq<string>): seq<PyValue> {
    seq(|masked|, i requires 0 <= i < |masked| => PyStr(masked[i]))
  }

  /** The parameters of the envelope: the masked argument bag. */
  function Params(b: Bag): seq<Entry> {
    [Entry("args", PyList(Texts(MaskedArgs(b.signature, b.args)))), Entry("kwargs", PyDict(MaskedKwargs(b.kwargs)))]
  }

  /** The keyword masks, as a mapping. */
  ghost function KwargMasks(kwargs: seq<Kwarg>): map<string, string> {
    if kwargs == [] then map[]
    else KwargMasks(kwargs[1..])[kwargs[0].key := Mask(Some(kwargs[0].key), kwargs[0].repr)]
  }

  ghost predicate DistinctKeys(kwargs: seq<Kwarg>) {
    forall i, j :: 0 <= i < j < |kwargs| ==> kwargs[i].key != kwargs[j].key
  }

  ghost function AsJson(masks: map<string, string>): map<string, Json> {
    map k | k in masks :: JStr(masks[k])
  }

  lemma {:induction false} KwargsMean(kwargs: seq<Kwarg>)
    ensures Fields(MaskedKwargs(kwargs)) == AsJson(KwargMasks(kwargs))
    ensures |MaskedKwargs(kwargs)| == |kwargs|
    ensures forall i :: 0 <= i < |kwargs| ==>
              MaskedKwargs(kwargs)[i] == Entry(kwargs[i].key, PyStr(Mask(Some(kwargs[i].key), kwargs[i].repr)))
  {
    hide Mask;
    if kwargs != [] {
      KwargsMean(kwargs[1..]);
      var head := Entry(kwargs[0].key, PyStr(Mask(Some(kwargs[0].key), kwargs[0].repr)));
      assert MaskedKwargs(kwargs) == [head] + MaskedKwargs(kwargs[1..]);
    }
  }

  lemma AsJsonInjective(a: map<string, string>, b: map<string, string>)
    requires AsJson(a) == AsJson(b)
    ensures a == b
  {
    assert forall k :: k in a <==> k in AsJson(a);
    assert forall k :: k in b <==> k in AsJson(b);
    forall k | k in a
      ensures k in b && a[k] == b[k]
    {
      assert AsJson(a)[k] == AsJson(b)[k];
    }
  }

  lemma TextsAreJson(a: seq<string>)
    ensures var m := Meaning(PyList(Texts(a))).items; |m| == |a| && forall i :: 0 <= i < |a| ==> m[i] == JStr(a[i])
  {
    var m := Meaning(PyList(Texts(a))).items;
    forall i | 0 <= i < |a|
      ensures m[i] == JStr(a[i])
    {
      assert m[i] == Meaning(Texts(a)[i]) == Meaning(PyStr(a[i]));
    }
  }

  lemma TextsMean(a: seq<string>, b: seq<string>)
    ensures Meaning(PyList(Texts(a))) == Meaning(PyList(Texts(b))) <==> a == b
  {
    var ma, mb := Meaning(PyList(Texts(a))).items, Meaning(PyList(Texts(b))).items;
    TextsAreJson(a);
    TextsAreJson(b);
    if ma == mb {
      forall i | 0 <= i < |a|
        ensures a[i] == b[i]
      {
        assert ma[i] == mb[i];
      }
    }
  }

  lemma ParamsWellFormed(b: Bag)
    requires DistinctKeys(b.kwargs)
    ensures WellFormed(PyDict(Params(b)))
  {
    hide Mask;
    KwargsMean(b.kwargs);
    assert |"args"| != |"kwargs"|;
    var entries := MaskedKwargs(b.kwargs);
    assert WellFormed(PyDict(entries));
    assert WellFormed(PyList(Texts(MaskedArgs(b.signature, b.args))));
  }

  /** The same thing shown: one name, one list of masks, one mapping of masks. */
  ghost predicate ShownAlike(a: Bag, b: Bag) {
    && a.name == b.name
    && MaskedArgs(a.signature, a.args) == MaskedArgs(b.signature, b.args)
    && KwargMasks(a.kwargs) == KwargMasks(b.kwargs)
  }

  lemma ParamsMean(a: Bag, b: Bag)
    requires DistinctKeys(a.kwargs) && DistinctKeys(b.kwargs)
    ensures Meaning(PyDict(Params(a))) == Meaning(PyDict(Params(b))) <==>
            && MaskedArgs(a.signature, a.args) == MaskedArgs(b.signature, b.args)
            && KwargMasks(a.kwargs) == KwargMasks(b.kwargs)
  {
    hide MaskedArgs, MaskedKwargs, KwargMasks, Texts, AsJson;
    var pa, pb := Params(a), Params(b);
    assert |"args"| != |"kwargs"|;
    TextsMean(MaskedArgs(a.signature, a.args), MaskedArgs(b.signature, b.args));
    KwargsMean(a.kwargs);
    KwargsMean(b.kwargs);
    if Meaning(PyDict(pa)) == Meaning(PyDict(pb)) {
      FieldsAgree(pa, pb, 0, 0);
      FieldsAgree(pa, pb, 1, 1);
      AsJsonInjective(KwargMasks(a.kwargs), KwargMasks(b.kwargs));
    } else if Meaning(pa[0].value) == Meaning(pb[0].value) && Meaning(pa[1].value) == Meaning(pb[1].value) {
      PointwiseFields(pa, pb);
    }
  }

  function Envelope(b: Bag): Impact {
    ToolCall(b.name, Params(b), "nullrun.tool_call.path", "1")
  }

  lemma Hashes(impact: Impact)
    requires Validate(impact).None?
    ensures HashedBytes(impact).Ok?
  {
    hide Validate;
  }

  lemma ActionIsShown(a: Bag, b: Bag)
    requires DistinctKeys(a.kwargs) && DistinctKeys(b.kwargs)
    ensures IsImpact(Envelope(a)) && IsImpact(Envelope(b))
    ensures SameAction(Envelope(a), Envelope(b)) <==> ShownAlike(a, b)
  {
    hide Params, Meaning, WellFormed;
    ParamsWellFormed(a);
    ParamsWellFormed(b);
    ParamsMean(a, b);
  }

  /** Two calls whose envelopes can be built hash the same bytes exactly when they
      show the same: what the masks hide, the digest does not bind. */
  lemma DigestBindsShown(a: Bag, b: Bag)
    requires DistinctKeys(a.kwargs) && DistinctKeys(b.kwargs)
    requires Validate(Envelope(a)).None? && Validate(Envelope(b)).None?
    ensures HashedBytes(Envelope(a)) == HashedBytes(Envelope(b)) <==> ShownAlike(a, b)
  {
    hide Validate, HashedBytes, SameAction, IsImpact, ShownAlike, Envelope;
    ActionIsShown(a, b);
    Hashes(Envelope(a));
    Hashes(Envelope(b));
    HashedBytesBindAction(Envelope(a), Envelope(b));
  }

  /** The call that the wrapper makes of a bag. */
  predicate Masks(c: Call, b: Bag) {
    c.name == b.name && c.params == Params(b)
  }

  lemma ImpactOf(c: Call, b: Bag)
    requires Masks(c, b) && Validate(Envelope(b)).None?
    ensures CallImpact(c) == Envelope(b)
  {
    hide Validate, Params;
  }

  /** Over whole runs: two requests, of any two calls, hash the same bytes exactly
      when the calls show the same. */
  lemma RequestsBindShown(failOpen: bool, log: Trace, x: Bag, y: Bag, b: Call, c: Call, d: Event, e: Event)
    requires Masks(b, x) && DistinctKeys(x.kwargs) && Validate(Envelope(x)).None?
    requires Masks(c, y) && DistinctKeys(y.kwargs) && Validate(Envelope(y)).None?
    requires Lawful(failOpen, log)
    requires (d.GateSent? || d.ExecuteSent?) && Happened(log, d) && Happened(log, Entered(d.call, b))
    requires (e.GateSent? || e.ExecuteSent?) && Happened(log, e) && Happened(log, Entered(e.call, c))
    ensures d.identity.hashed == e.identity.hashed <==> ShownAlike(x, y)
  {
    hide Masks, Validate, Envelope, ShownAlike, Lawful, CallImpact, SameAction, IsImpact, DistinctKeys;
    ImpactOf(b, x);
    ImpactOf(c, y);
    ActionIsShown(x, y);
    DigestsBindCalls(failOpen, log, b, c, d, e);
  }

  /** A secret is never shown, however its name is capitalised, the Kelvin sign for a
      capital k included. */
  lemma SecretMasked(word: string, name: string, repr: string)
    requires word in {"password", "passwd", "pwd", "token", "secret", "api_key", "apikey", "key", "auth",
                      "authorization", "bearer", "session", "session_id", "cookie", "access_token", "refresh_token",
                      "id_token", "private_key", "secret_key", "email", "phone", "ssn", "credit_card",
                      "credit_card_number", "cvv", "cvc", "pin", "otp", "mfa"}
    requires |name| == |word|
    requires forall i :: 0 <= i < |word| ==>
               || name[i] == word[i] || ('a' <= word[i] <= 'z' && name[i] as int == word[i] as int - 32)
               || (word[i] == 'k' && name[i] == '\U{212A}')
    ensures Mask(Some(name), repr) == "***"
  {
    LowerOf(word, name);
  }

  lemma LowerOf(word: string, name: string)
    requires |name| == |word| && forall i :: 0 <= i < |word| ==> word[i] == '_' || 'a' <= word[i] <= 'z'
    requires forall i :: 0 <= i < |word| ==>
               || name[i] == word[i] || ('a' <= word[i] <= 'z' && name[i] as int == word[i] as int - 32)
               || (word[i] == 'k' && name[i] == '\U{212A}')
    ensures Lower(name) == word
  {
    forall i | 0 <= i < |word|
      ensures Lower(name)[i] == word[i]
    {
      assert Lower(name)[i] == LowerChar(name[i]);
    }
  }

  /** What the envelope of a call says: the masked arguments, by place and by name. */
  lemma EnvelopeShows(b: Bag)
    requires DistinctKeys(b.kwargs)
    ensures Meaning(PyDict(Params(b))) ==
            JObj(map["args" := JArr(seq(|b.args|, i requires 0 <= i < |b.args| =>
                                      JStr(Mask(ParameterOf(b.signature, i), b.args[i])))),
                     "kwargs" := JObj(AsJson(KwargMasks(b.kwargs)))])
  {
    hide Mask, MaskedKwargs, KwargMasks, AsJson;
    var entries := Params(b);
    assert |"args"| != |"kwargs"|;
    KwargsMean(b.kwargs);
    TextsAreJson(MaskedArgs(b.signature, b.args));
    ParamFields(entries);
    assert Meaning(entries[0].value).items
           == seq(|b.args|, i requires 0 <= i < |b.args| => JStr(Mask(ParameterOf(b.signature, i), b.args[i])));
  }

  lemma ParamFields(entries: seq<Entry>)
    requires |entries| == 2 && entries[0].key == "args" && entries[1].key == "kwargs"
    ensures Fields(entries) == map["args" := Meaning(entries[0].value), "kwargs" := Meaning(entries[1].value)]
  {
    assert |"args"| != |"kwargs"| && entries[1..][1..] == [];
    assert Fields(entries[1..][1..]) == map[];
    assert Fields(entries[1..]) == map["kwargs" := Meaning(entries[1].value)];
  }

  /** Two texts are shown alike exactly when they are the same once redacted, or
      both too long and the same up to the cut. */
  lemma SafeExactly(x: string, y: string)
    ensures Safe(x) == Safe(y) <==>
            || Strip(x) == Strip(y)
            || (|Strip(x)| > 50 && |Strip(y)| > 50 && Strip(x)[..50] == Strip(y)[..50])
  {
    hide Strip;
    CutCancels(Strip(x), Strip(y));
  }

  lemma CutCancels(x: string, y: string)
    ensures |x| > MAX_REPR && |y| > MAX_REPR && x[..MAX_REPR] + TRUNCATED == y[..MAX_REPR] + TRUNCATED ==>
              x[..MAX_REPR] == y[..MAX_REPR]
  {
    if |x| > MAX_REPR && |y| > MAX_REPR {
      assert (x[..MAX_REPR] + TRUNCATED)[..MAX_REPR] == x[..MAX_REPR];
      assert (y[..MAX_REPR] + TRUNCATED)[..MAX_REPR] == y[..MAX_REPR];
    }
  }

  /** So an argument counts up to its fiftieth character. */
  lemma TailUnbound(name: string, x: string, y: string)
    requires '{' !in x && '{' !in y && |x| > 50 && |y| > 50 && x[..50] == y[..50]
    ensures ShownAlike(Bag(name, None, [x], []), Bag(name, None, [y], []))
  {
    hide Strip;
    NoBraceUnchanged(x);
    NoBraceUnchanged(y);
    var a, b := MaskedArgs(None, [x]), MaskedArgs(None, [y]);
    assert a[0] == b[0] && a == [a[0]] && b == [b[0]];
  }
}
