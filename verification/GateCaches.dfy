/** The in-process cache of /gate answers for chain-mode calls, and what a served
    answer is worth over any run. */
module GateCaches {
  import opened Options

  datatype Key = Key(workflow: string, chain: Option<string>, model: Option<string>, tokens: int)
  datatype Response = Response(body: string)
  datatype Entry = Entry(at: real, response: Response)

  const TTL := 5.0

  /** An invalidation names a workflow and a chain; an absent one matches all. */
  predicate Matches(k: Key, workflow: Option<string>, chain: Option<string>) {
    (workflow.None? || k.workflow == workflow.value) && (chain.None? || k.chain == chain)
  }

  function Without(entries: map<Key, Entry>, workflow: Option<string>, chain: Option<string>): map<Key, Entry> {
    map k | k in entries && !Matches(k, workflow, chain) :: entries[k]
  }

  predicate Hit(entries: map<Key, Entry>, k: Key, now: real) {
    k in entries && now - entries[k].at < TTL
  }

  /** `chain_end` passes the workflow the API key is bound to. */
  function AfterChainEnd(entries: map<Key, Entry>, bound: Option<string>, chain: string): map<Key, Entry> {
    Without(entries, if bound.Some? && bound.value != "" then bound else None, Some(chain))
  }

  class GateCache {
    var entries: map<Key, Entry>

    constructor ()
      ensures entries == map[]
    {
      entries := map[];
    }

    /** The cached branch of the pre-flight: `asked` says whether the server was
        needed; `answer` is what it said if so, nothing if the request failed. */
    method Check(k: Key, now: real, answer: Option<Response>) returns (r: Option<Response>, asked: bool)
      modifies this
      ensures asked == !Hit(old(entries), k, now)
      ensures !asked ==> r == Some(old(entries)[k].response) && entries == old(entries)
      ensures asked ==> r == answer
                        && entries == if answer.Some? then old(entries)[k := Entry(now, answer.value)] else old(entries)
    {
      if k in entries && now - entries[k].at < TTL {
        return Some(entries[k].response), false;
      }
      if answer.Some? { entries := entries[k := Entry(now, answer.value)]; }
      return answer, true;
    }

    method PopAll(keys: set<Key>)
      requires keys <= entries.Keys
      modifies this
      ensures entries == old(entries) - keys && |entries| == |old(entries)| - |keys|
    {
      var todo := keys;
      while todo != {}
        invariant todo <= entries.Keys && todo <= keys
        invariant entries - todo == old(entries) - keys
        invariant |entries| - |todo| == |old(entries)| - |keys|
        decreases |todo|
      {
        var k :| k in todo;
        OneLess(entries, k);
        assert entries - {k} - (todo - {k}) == entries - todo;
        entries := entries - {k};
        todo := todo - {k};
      }
      assert entries - {} == entries;
    }

    /** Drops all and only the matching entries, and says how many. */
    method InvalidateForChain(workflow: Option<string>, chain: Option<string>) returns (dropped: nat)
      modifies this
      ensures entries == Without(old(entries), workflow, chain)
      ensures dropped == |old(entries)| - |entries|
    {
      hide Matches;
      if entries == map[] {
        return 0;
      }
      var keys := set k | k in entries && Matches(k, workflow, chain);
      PopAll(keys);
      return |keys|;
    }

    method ChainEnd(bound: Option<string>, chain: string)
      modifies this
      ensures entries == AfterChainEnd(old(entries), bound, chain)
    {
      var dropped := InvalidateForChain(if bound.Some? && bound.value != "" then bound else None, Some(chain));
    }
  }

  lemma OneLess(entries: map<Key, Entry>, k: Key)
    requires k in entries
    ensures |entries - {k}| == |entries| - 1
  {
    assert (entries - {k}).Keys == entries.Keys - {k};
    assert |(entries - {k}).Keys| == |entries - {k}| && |entries.Keys| == |entries|;
  }

  // -------------------------------------------------------------------- runs

  datatype Event =
    | Stored(key: Key, at: real, response: Response)    // the server's answer, cached
    | Direct(key: Key, at: real, response: Response)    // the server's answer, not cached
    | Served(key: Key, at: real, response: Response)    // a cached answer
    | Invalidated(workflow: Option<string>, chain: Option<string>)

  datatype History = Nothing | Then(past: History, event: Event)

  datatype Action =
    | Check(key: Key, useCache: bool, disabled: bool, answer: Option<Response>)
    | Tick(dt: real)
    | OverBudget(workflow: Option<string>, chain: Option<string>)
    | ChainEnd(bound: Option<string>, ended: string)

  datatype System = System(entries: map<Key, Entry>, now: real, history: History)

  const INITIAL := System(map[], 0.0, Nothing)

  function Log(s: System, e: Event): System {
    s.(history := Then(s.history, e))
  }

  /** Caching needs a chain, the caller's leave and the environment's. */
  predicate Caching(a: Action) {
    a.Check? && a.key.chain.Some? && a.useCache && !a.disabled
  }

  function Step(s: System, a: Action): System {
    match a
    case Tick(dt) => if dt >= 0.0 then s.(now := s.now + dt) else s
    case Check(k, _, _, answer) =>
      if Caching(a) && Hit(s.entries, k, s.now) then Log(s, Served(k, s.now, s.entries[k].response))
      else if answer.None? then s
      else if Caching(a) then
        Log(s.(entries := s.entries[k := Entry(s.now, answer.value)]), Stored(k, s.now, answer.value))
      else Log(s, Direct(k, s.now, answer.value))
    case OverBudget(workflow, chain) =>
      Log(s.(entries := Without(s.entries, workflow, chain)), Invalidated(workflow, chain))
    case ChainEnd(bound, chain) =>
      var workflow := if bound.Some? && bound.value != "" then bound else None;
      Log(s.(entries := AfterChainEnd(s.entries, bound, chain)), Invalidated(workflow, Some(chain)))
  }

  function Run(s: System, actions: seq<Action>): System
    decreases |actions|
  {
    if actions == [] then s else Run(Step(s, actions[0]), actions[1..])
  }

  /** The last answer cached under a key that no invalidation has matched since. */
  ghost function Standing(h: History, k: Key): Option<Entry> {
    match h
    case Nothing => None
    case Then(past, e) =>
      if e.Stored? && e.key == k then Some(Entry(e.at, e.response))
      else if e.Invalidated? && Matches(k, e.workflow, e.chain) then None
      else Standing(past, k)
  }

  /** Every cached answer served stood then, and was less than 5 seconds old. */
  ghost predicate ServedWell(h: History) {
    h.Then? ==>
      && ServedWell(h.past)
      && (h.event.Served? ==>
            && Standing(h.past, h.event.key).Some?
            && Standing(h.past, h.event.key).value.response == h.event.response
            && h.event.at - Standing(h.past, h.event.key).value.at < 5.0)
  }

  ghost predicate Refines(s: System) {
    && (forall k :: k in s.entries ==> Standing(s.history, k) == Some(s.entries[k]))
    && (forall k :: k !in s.entries ==> Standing(s.history, k) == None)
    && ServedWell(s.history)
  }

  lemma StepRefines(s: System, a: Action)
    requires Refines(s)
    ensures Refines(Step(s, a))
  {
  }

  lemma {:induction false} RunRefines(s: System, actions: seq<Action>)
    requires Refines(s)
    ensures Refines(Run(s, actions))
    decreases |actions|
  {
    hide Refines, Step;
    if actions != [] {
      StepRefines(s, actions[0]);
      RunRefines(Step(s, actions[0]), actions[1..]);
    }
  }

  /** Over every run the cache is the standing answers, no more and no fewer, and
      every hit was one of them, for exactly its key and fresh. */
  lemma EveryHitStands(actions: seq<Action>)
    ensures var s := Run(INITIAL, actions);
            && ServedWell(s.history)
            && (forall k :: Standing(s.history, k) == if k in s.entries then Some(s.entries[k]) else None)
  {
    RunRefines(INITIAL, actions);
  }

  ghost predicate Happened(h: History, e: Event) {
    h.Then? && (h.event == e || Happened(h.past, e))
  }

  /** The server did give that answer, for that key, when it says. */
  lemma {:induction false} StandingWasGiven(h: History, k: Key)
    requires Standing(h, k).Some?
    ensures Happened(h, Stored(k, Standing(h, k).value.at, Standing(h, k).value.response))
    decreases h
  {
    if !(h.event.Stored? && h.event.key == k) { StandingWasGiven(h.past, k); }
  }

  /** An invalidation takes what it names and leaves the rest: with both names, that
      chain of that workflow; with one, all of that workflow or of that chain. */
  lemma InvalidationExactly(entries: map<Key, Entry>, w: string, ch: string, k: Key)
    requires k in entries
    ensures k in Without(entries, Some(w), Some(ch)) <==> !(k.workflow == w && k.chain == Some(ch))
    ensures k in Without(entries, Some(w), None) <==> k.workflow != w
    ensures k in Without(entries, None, Some(ch)) <==> k.chain != Some(ch)
    ensures k !in Without(entries, None, None)
    ensures forall j :: j in Without(entries, Some(w), Some(ch)) ==> j in entries
    ensures k in Without(entries, Some(w), Some(ch)) ==> Without(entries, Some(w), Some(ch))[k] == entries[k]
  {
  }

  /** Outside a chain, when the caller or the environment says so, and after five
      seconds, the server is asked; else the cached answer is served. */
  lemma ServedExactly(s: System, k: Key, useCache: bool, disabled: bool, r: Response)
    ensures var t := Step(s, Check(k, useCache, disabled, Some(r)));
            && (t.history.event.Served? <==>
                  && k.chain.Some? && useCache && !disabled
                  && k in s.entries && s.now - s.entries[k].at < 5.0)
            && (t.history.event.Served? ==> t.entries == s.entries)
            && (t.history.event.Stored? ==> k.chain.Some? && useCache && !disabled
                                            && t.entries == s.entries[k := Entry(s.now, r)])
            && (t.history.event.Direct? ==> !(k.chain.Some? && useCache && !disabled) && t.entries == s.entries)
            && (t.history.event.Served? || t.history.event.Stored? || t.history.event.Direct?)
  {
  }

  /** Ending a chain clears it exactly when every entry of it was cached under the
      workflow of the key, or the key has none. */
  lemma ChainEndClears(entries: map<Key, Entry>, bound: Option<string>, chain: string)
    ensures (forall k :: k in AfterChainEnd(entries, bound, chain) ==> k.chain != Some(chain))
            <==> (bound.None? || bound.value == "" ||
                  forall k :: k in entries && k.chain == Some(chain) ==> k.workflow == bound.value)
  {
    var after := AfterChainEnd(entries, bound, chain);
    assert forall k :: k in after ==> k in entries;
    if bound.Some? && bound.value != "" {
      assert forall k :: k in entries && k.chain == Some(chain) && k.workflow != bound.value ==> k in after;
    }
  }

  /** So an ended chain can be served its old answer, cached under the workflow of
      a `with workflow` block. */
  lemma EndedChainServed(k: Key, bound: string, r: Response, dt: real)
    requires k.chain.Some? && bound != "" && k.workflow != bound && 0.0 <= dt < TTL
    ensures var s := Run(INITIAL, [Check(k, true, false, Some(r)), ChainEnd(Some(bound), k.chain.value), Tick(dt),
                                   Check(k, true, false, None)]);
            s.history.Then? && s.history.event == Served(k, dt, r)
  {
    var s1 := Step(INITIAL, Check(k, true, false, Some(r)));
    var s2 := Step(s1, ChainEnd(Some(bound), k.chain.value));
    assert k in s2.entries && s2.entries[k] == Entry(0.0, r);
    var s3 := Step(s2, Tick(dt));
    var s4 := Step(s3, Check(k, true, false, None));
    RunFour(INITIAL, Check(k, true, false, Some(r)), ChainEnd(Some(bound), k.chain.value), Tick(dt),
            Check(k, true, false, None));
  }

  lemma RunFour(s: System, a: Action, b: Action, c: Action, d: Action)
    ensures Run(s, [a, b, c, d]) == Step(Step(Step(Step(s, a), b), c), d)
  {
    hide Step;
    assert [a, b, c, d][1..] == [b, c, d] && [b, c, d][1..] == [c, d] && [c, d][1..] == [d] && [d][1..] == [];
    assert Run(Step(Step(Step(s, a), b), c), [d]) == Run(Step(Step(Step(Step(s, a), b), c), d), []);
    assert Run(Step(Step(s, a), b), [c, d]) == Run(Step(Step(Step(s, a), b), c), [d]);
    assert Run(Step(s, a), [b, c, d]) == Run(Step(Step(s, a), b), [c, d]);
  }
}
