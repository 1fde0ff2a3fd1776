/** The approval handshake: gate calls that wait, pushes that resolve, and every
    interleaving of the two between lock-protected blocks. */
module Approvals {
  import opened Options

  datatype Outcome = Approved | Denied | Unclear

  /** One pending entry; it belongs to the wait that created it. */
  datatype Entry = Entry(approvalId: string, signalled: bool, outcome: Option<Outcome>)

  /** What the calls and the push handlers share. An entry is known by the number
      of its wait, which stands for the reference both sides hold. */
  datatype Desk = Desk(
    pending: map<string, nat>,
    entries: map<nat, Entry>,
    byExecution: map<string, string>
  )

  const EMPTY := Desk(map[], map[], map[])

  function Register(d: Desk, wait: nat, approvalId: string): Desk {
    d.(pending := d.pending[approvalId := wait], entries := d.entries[wait := Entry(approvalId, false, None)])
  }

  /** Drops whatever entry is registered under the id. */
  function Unregister(d: Desk, approvalId: string): Desk {
    d.(pending := d.pending - {approvalId})
  }

  function MarkResolved(d: Desk, execution: string, approvalId: string): Desk {
    if execution == "" then d else d.(byExecution := d.byExecution[execution := approvalId])
  }

  function Signal(d: Desk, wait: nat): Desk {
    if wait in d.entries then d.(entries := d.entries[wait := d.entries[wait].(signalled := true)]) else d
  }

  function WriteOutcome(d: Desk, wait: nat, outcome: Outcome): Desk {
    if wait in d.entries then d.(entries := d.entries[wait := d.entries[wait].(outcome := Some(outcome))]) else d
  }

  function Forget(d: Desk, execution: string): Desk {
    d.(byExecution := d.byExecution - {execution})
  }

  /** A push handled from start to end. One that finds no entry leaves no trace,
      so it cannot bring back an index entry that was consumed. */
  function Resolve(d: Desk, approvalId: string, execution: string, outcome: Outcome): Desk {
    if approvalId !in d.pending then d
    else
      var wait := d.pending[approvalId];
      WriteOutcome(Signal(MarkResolved(Unregister(d, approvalId), execution, approvalId), wait), wait, outcome)
  }

  class ApprovalDesk {
    var pending: map<string, nat>
    var entries: map<nat, Entry>
    var byExecution: map<string, string>

    ghost function View(): Desk
      reads this
    {
      Desk(pending, entries, byExecution)
    }

    /** Every registered entry exists and carries the id it is registered under. */
    ghost predicate Valid()
      reads this
    {
      forall a :: a in pending ==> pending[a] in entries && entries[pending[a]].approvalId == a
    }

    constructor ()
      ensures Valid() && View() == EMPTY
    {
      pending, entries, byExecution := map[], map[], map[];
    }

    method BeginWait(wait: nat, approvalId: string)
      requires Valid() && wait !in entries
      modifies this
      ensures Valid() && View() == Register(old(View()), wait, approvalId)
    {
      entries := entries[wait := Entry(approvalId, false, None)];
      pending := pending[approvalId := wait];
    }

    method AbandonWait(approvalId: string)
      requires Valid()
      modifies this
      ensures Valid() && View() == Unregister(old(View()), approvalId)
    {
      pending := pending - {approvalId};
    }

    method HandleApprovalResolved(approvalId: string, execution: string, outcome: Outcome)
      requires Valid()
      modifies this
      ensures Valid() && View() == Resolve(old(View()), approvalId, execution, outcome)
    {
      if approvalId !in pending { return; }
      var wait := pending[approvalId];
      pending := pending - {approvalId};
      if execution != "" {
        byExecution := byExecution[execution := approvalId];
      }
      entries := entries[wait := entries[wait].(signalled := true)];
      entries := entries[wait := entries[wait].(outcome := Some(outcome))];
    }
  }

  // ------------------------------------------------------- interleaved calls

  /** Where the wait came up: in the /gate pre-flight, or in `execute`. */
  datatype Kind = GateWait | ExecuteWait

  datatype Phase =
    | Waiting
    | TimedOut      // the wait gave up, its entry not dropped yet
    | Woken         // the event was set, the outcome not read yet
    | Resuming      // read "approved"
    | Consumed      // /gate: told the backend, index entry not dropped yet
    | Going         // the call proceeds
    | Refused
    | Cancelling    // exception path: reservation cancelled, index not read yet
    | Over

  /** What the call found in its entry when it read the outcome. */
  datatype Reading = NotRead | Blank | Found(outcome: Outcome)

  /** The second /execute call: the approval id it carried and the decision. */
  datatype Recheck = Recheck(approvalId: string, decision: string)

  /** One call and its local variables. `captured` is the execution id the /gate
      response minted, if it did; `proceeded` records that the call got through. */
  datatype Call = Call(
    kind: Kind,
    approvalId: string,
    captured: Option<string>,
    phase: Phase,
    reading: Reading,
    recheck: Option<Recheck>,
    proceeded: bool
  )

  datatype PushPhase = Popped | Indexed | Signalled | Handled
  datatype Push = Push(approvalId: string, execution: string, outcome: Outcome, wait: nat, phase: PushPhase)

  /** What handlers and consume requests have done so far in a run. */
  datatype Record = Record(
    takes: multiset<nat>,         // waits whose entry a push handler took
    writes: set<(nat, Outcome)>,  // outcomes a handler wrote, by wait
    consumes: multiset<string>    // approval ids reported consumed
  )

  datatype System = System(desk: Desk, calls: map<nat, Call>, pushes: map<nat, Push>, record: Record)

  datatype Action =
    | Begin(call: nat, kind: Kind, approvalId: string, captured: Option<string>)
    | GiveUp(call: nat)
    | DropEntry(call: nat)
    | Wake(call: nat)
    | ReadOutcome(call: nat)
    | SendConsume(call: nat)
    | DropIndex(call: nat)
    | Ask(call: nat, decision: string)
    | Fail(call: nat)
    | CancelLookup(call: nat)
    | PushArrives(push: nat, approvalId: string, execution: string, outcome: Outcome)
    | PushIndexes(push: nat)
    | PushSignals(push: nat)
    | PushWrites(push: nat)

  const NOTHING := Record(multiset{}, {}, multiset{})
  const INITIAL := System(EMPTY, map[], map[], NOTHING)

  function Goto(s: System, c: nat, phase: Phase): System
    requires c in s.calls
  {
    s.(calls := s.calls[c := s.calls[c].(phase := phase)])
  }

  function Put(s: System, c: nat, call: Call): System {
    s.(calls := s.calls[c := call])
  }

  predicate At(s: System, c: nat, phase: Phase) {
    c in s.calls && s.calls[c].phase == phase
  }

  predicate PushAt(s: System, p: nat, phase: PushPhase) {
    p in s.pushes && s.pushes[p].phase == phase
  }

  function PushGoto(s: System, p: nat, phase: PushPhase): System
    requires p in s.pushes
  {
    s.(pushes := s.pushes[p := s.pushes[p].(phase := phase)])
  }

  function SendsConsume(s: System, approvalId: string): System {
    s.(record := s.record.(consumes := s.record.consumes + multiset{approvalId}))
  }

  /** The answer of the second /execute call that lets it return. */
  predicate LetsReturn(decision: string) {
    decision != "block" && decision != "require_approval"
  }

  function StepCall(s: System, a: Action): System
    requires !a.PushArrives? && !a.PushIndexes? && !a.PushSignals? && !a.PushWrites?
  {
    var c := a.call;
    match a
    case Begin(_, kind, approvalId, captured) =>
      if c in s.calls || captured == Some("") then s
      else s.(calls := s.calls[c := Call(kind, approvalId, captured, Waiting, NotRead, None, false)],
              desk := Register(s.desk, c, approvalId))
    case GiveUp(_) => if At(s, c, Waiting) then Goto(s, c, TimedOut) else s
    case DropEntry(_) =>
      if At(s, c, TimedOut) then Goto(s.(desk := Unregister(s.desk, s.calls[c].approvalId)), c, Refused) else s
    case Wake(_) =>
      if At(s, c, Waiting) && c in s.desk.entries && s.desk.entries[c].signalled then Goto(s, c, Woken) else s
    case ReadOutcome(_) =>
      if !At(s, c, Woken) || c !in s.desk.entries then s
      else
        var reading := match s.desk.entries[c].outcome
                       case None => Blank
                       case Some(outcome) => Found(outcome);
        Put(s, c, s.calls[c].(reading := reading, phase := if reading == Found(Approved) then Resuming else Refused))
    case SendConsume(_) =>
      if !At(s, c, Resuming) || s.calls[c].kind != GateWait then s
      else SendsConsume(Goto(s, c, Consumed), s.calls[c].approvalId)
    case DropIndex(_) =>
      if !At(s, c, Consumed) then s
      else
        var desk := match s.calls[c].captured
                    case None => s.desk
                    case Some(execution) => Forget(s.desk, execution);
        Put(s.(desk := desk), c, s.calls[c].(phase := Going, proceeded := true))
    case Ask(_, decision) =>
      if !At(s, c, Resuming) || s.calls[c].kind != ExecuteWait then s
      else
        Put(s, c, s.calls[c].(recheck := Some(Recheck(s.calls[c].approvalId, decision)),
                              phase := if LetsReturn(decision) then Going else Refused,
                              proceeded := LetsReturn(decision)))
    case Fail(_) => if At(s, c, Refused) || At(s, c, Going) then Goto(s, c, Cancelling) else s
    case CancelLookup(_) =>
      if !At(s, c, Cancelling) then s
      else match s.calls[c].captured
        case None => Goto(s, c, Over)
        case Some(execution) =>
          if execution in s.desk.byExecution
          then SendsConsume(Goto(s, c, Over), s.desk.byExecution[execution])
          else Goto(s, c, Over)
  }

  /** One step of one call or one push handler. An action that does not apply
      changes nothing, so every sequence of actions is a run. */
  function Step(s: System, a: Action): System {
    match a
    case PushArrives(p, approvalId, execution, outcome) =>
      if p in s.pushes || approvalId !in s.desk.pending then s
      else
        var wait := s.desk.pending[approvalId];
        s.(desk := Unregister(s.desk, approvalId),
           pushes := s.pushes[p := Push(approvalId, execution, outcome, wait, Popped)],
           record := s.record.(takes := s.record.takes + multiset{wait}))
    case PushIndexes(p) =>
      if !PushAt(s, p, Popped) then s
      else PushGoto(s.(desk := MarkResolved(s.desk, s.pushes[p].execution, s.pushes[p].approvalId)), p, Indexed)
    case PushSignals(p) =>
      if !PushAt(s, p, Indexed) then s
      else PushGoto(s.(desk := Signal(s.desk, s.pushes[p].wait)), p, Signalled)
    case PushWrites(p) =>
      if !PushAt(s, p, Signalled) then s
      else PushGoto(s.(desk := WriteOutcome(s.desk, s.pushes[p].wait, s.pushes[p].outcome),
                       record := s.record.(writes := s.record.writes + {(s.pushes[p].wait, s.pushes[p].outcome)})),
                    p, Handled)
    case _ => StepCall(s, a)
  }

  function Run(s: System, actions: seq<Action>): System
    decreases |actions|
  {
    if actions == [] then s else Run(Step(s, actions[0]), actions[1..])
  }

  lemma RunFour(s: System, a: Action, b: Action, c: Action, d: Action)
    ensures Run(s, [a, b, c, d]) == Step(Step(Step(Step(s, a), b), c), d)
  {
    hide Step;
    assert [a, b, c, d][1..] == [b, c, d] && [b, c, d][1..] == [c, d] && [c, d][1..] == [d] && [d][1..] == [];
    assert Run(Step(Step(Step(s, a), b), c), [d]) == Run(Step(Step(Step(Step(s, a), b), c), d), []);
    assert Run(Step(Step(s, a), b), [c, d]) == Run(Step(Step(Step(s, a), b), c), [d]);
    assert Run(Step(s, a), [b, c, d]) == Run(Step(Step(s, a), b), [c, d]);
  }

  lemma PushDesk(s: System, p: nat)
    requires p in s.pushes
    ensures var push, indexed := s.pushes[p], Step(s, PushIndexes(p));
            var signalled, written := Step(s, PushSignals(p)), Step(s, PushWrites(p));
            && (push.phase == Popped ==> indexed.desk == MarkResolved(s.desk, push.execution, push.approvalId)
                                         && p in indexed.pushes && indexed.pushes[p] == push.(phase := Indexed))
            && (push.phase == Indexed ==> signalled.desk == Signal(s.desk, push.wait)
                                          && p in signalled.pushes && signalled.pushes[p] == push.(phase := Signalled))
            && (push.phase == Signalled ==> written.desk == WriteOutcome(s.desk, push.wait, push.outcome))
  {
    hide MarkResolved, Signal, WriteOutcome;
  }

  /** The handler's four steps, when nothing comes between them, do what the
      method does. */
  lemma UninterruptedPush(s: System, p: nat, approvalId: string, execution: string, outcome: Outcome)
    requires p !in s.pushes
    ensures Run(s, [PushArrives(p, approvalId, execution, outcome), PushIndexes(p), PushSignals(p), PushWrites(p)]).desk
            == Resolve(s.desk, approvalId, execution, outcome)
  {
    hide MarkResolved, Signal, WriteOutcome, Unregister;
    RunFour(s, PushArrives(p, approvalId, execution, outcome), PushIndexes(p), PushSignals(p), PushWrites(p));
    var s1 := Step(s, PushArrives(p, approvalId, execution, outcome));
    if approvalId in s.desk.pending {
      assert s1.pushes[p] == Push(approvalId, execution, outcome, s.desk.pending[approvalId], Popped);
      hide Step;
      PushDesk(s1, p);
      PushDesk(Step(s1, PushIndexes(p)), p);
      PushDesk(Step(Step(s1, PushIndexes(p)), PushSignals(p)), p);
    }
  }

  // ------------------------------------------------------------------- safety

  /** Has read its outcome, and read "approved". */
  predicate PastApproval(phase: Phase) {
    phase == Resuming || phase == Consumed || phase == Going
  }

  predicate BeforeReading(phase: Phase) {
    phase == Waiting || phase == TimedOut || phase == Woken
  }

  /** An approved call has gone on, or `execute` has asked again and was refused. */
  predicate Decided(call: Call) {
    if call.kind == GateWait then call.proceeded
    else call.recheck.Some? && (call.proceeded <==> LetsReturn(call.recheck.value.decision))
  }

  /** What ties a call to its entry and to what the handlers did. */
  ghost predicate CallMatches(s: System, c: nat)
    requires c in s.calls
  {
    var call := s.calls[c];
    && c in s.desk.entries
    && s.desk.entries[c].approvalId == call.approvalId
    && (s.desk.entries[c].outcome.Some? ==> (c, s.desk.entries[c].outcome.value) in s.record.writes)
    && (call.reading.Found? ==> (c, call.reading.outcome) in s.record.writes)
    && (PastApproval(call.phase) || call.proceeded ==> call.reading == Found(Approved))
    && (BeforeReading(call.phase) ==> call.reading == NotRead)
    && (call.phase == Consumed ==> call.kind == GateWait)
    && (call.proceeded ==> call.phase == Going || call.phase == Cancelling || call.phase == Over)
    && (call.reading == Found(Approved) ==>
          (call.phase == Resuming && call.recheck.None?) || call.phase == Consumed || Decided(call))
    && (BeforeReading(call.phase) ==> call.recheck.None?)
    && (call.proceeded && call.kind == ExecuteWait ==>
          && call.recheck.Some?
          && call.recheck.value.approvalId == call.approvalId
          && LetsReturn(call.recheck.value.decision))
    && s.record.takes[c] <= 1
  }

  ghost predicate Invariant(s: System) {
    && (forall c :: c in s.calls ==> CallMatches(s, c))
    && s.desk.entries.Keys <= s.calls.Keys
    && (forall w :: w !in s.calls ==> s.record.takes[w] == 0)
    && (forall a :: a in s.desk.pending ==>
          && s.desk.pending[a] in s.calls
          && s.calls[s.desk.pending[a]].approvalId == a
          && s.record.takes[s.desk.pending[a]] == 0)
  }

  lemma BeginKeeps(s: System, a: Action)
    requires Invariant(s) && a.Begin?
    ensures Invariant(Step(s, a))
  {
    var t := Step(s, a);
    forall c | c in t.calls
      ensures CallMatches(t, c)
    {
      if c in s.calls { assert CallMatches(s, c); }
    }
  }

  lemma Matches(s: System, c: nat)
    requires Invariant(s) && c in s.calls
    ensures CallMatches(s, c)
  {
  }

  lemma Unused(s: System, c: nat)
    requires Invariant(s) && c !in s.calls
    ensures c !in s.desk.entries && s.record.takes[c] == 0
  {
  }

  lemma Registered(s: System, a: string)
    requires Invariant(s) && a in s.desk.pending
    ensures var wait := s.desk.pending[a];
            && wait in s.calls && s.calls[wait].approvalId == a
            && wait in s.desk.entries && s.desk.entries[wait].approvalId == a
            && s.record.takes[wait] == 0
  {
    Matches(s, s.desk.pending[a]);
  }

  /** A step of one call that leaves the entries alone and registers nothing. */
  lemma MoveKeeps(s: System, t: System, c: nat)
    requires Invariant(s) && c in s.calls && c in t.calls
    requires t.calls == s.calls[c := t.calls[c]] && t.calls[c].approvalId == s.calls[c].approvalId
    requires t.desk.entries == s.desk.entries
    requires forall a :: a in t.desk.pending ==> a in s.desk.pending && t.desk.pending[a] == s.desk.pending[a]
    requires t.record.takes == s.record.takes && t.record.writes == s.record.writes
    requires CallMatches(t, c)
    ensures Invariant(t)
  {
    forall k | k in t.calls
      ensures CallMatches(t, k)
    {
      assert CallMatches(s, k);
    }
  }

  lemma LeaveKeeps(s: System, a: Action)
    requires Invariant(s) && (a.GiveUp? || a.DropEntry? || a.Fail?)
    ensures Invariant(Step(s, a))
  {
    hide Invariant;
    var t, c := Step(s, a), a.call;
    if t != s {
      Matches(s, c);
      MoveKeeps(s, t, c);
    }
  }

  lemma ReadKeeps(s: System, a: Action)
    requires Invariant(s) && (a.Wake? || a.ReadOutcome? || a.Ask?)
    ensures Invariant(Step(s, a))
  {
    hide Invariant;
    var t, c := Step(s, a), a.call;
    if t != s {
      Matches(s, c);
      MoveKeeps(s, t, c);
    }
  }

  lemma ConsumeKeeps(s: System, a: Action)
    requires Invariant(s) && (a.SendConsume? || a.DropIndex? || a.CancelLookup?)
    ensures Invariant(Step(s, a))
  {
    hide Invariant;
    var t, c := Step(s, a), a.call;
    if t != s {
      Matches(s, c);
      MoveKeeps(s, t, c);
    }
  }

  lemma PushArrivesKeeps(s: System, a: Action)
    requires Invariant(s) && a.PushArrives?
    ensures Invariant(Step(s, a))
  {
    var t := Step(s, a);
    forall c | c in t.calls
      ensures CallMatches(t, c)
    {
      assert CallMatches(s, c);
    }
  }

  lemma PushIndexesKeeps(s: System, a: Action)
    requires Invariant(s) && a.PushIndexes?
    ensures Invariant(Step(s, a))
  {
    var t := Step(s, a);
    forall c | c in t.calls
      ensures CallMatches(t, c)
    {
      assert CallMatches(s, c);
    }
  }

  lemma PushSignalsKeeps(s: System, a: Action)
    requires Invariant(s) && a.PushSignals?
    ensures Invariant(Step(s, a))
  {
    var t := Step(s, a);
    forall c | c in t.calls
      ensures CallMatches(t, c)
    {
      assert CallMatches(s, c);
    }
  }

  lemma PushWritesKeeps(s: System, a: Action)
    requires Invariant(s) && a.PushWrites?
    ensures Invariant(Step(s, a))
  {
    var t := Step(s, a);
    forall c | c in t.calls
      ensures CallMatches(t, c)
    {
      assert CallMatches(s, c);
    }
  }

  lemma StepKeeps(s: System, a: Action)
    requires Invariant(s)
    ensures Invariant(Step(s, a))
  {
    hide Invariant, Step;
    match a
    case Begin(_, _, _, _) => BeginKeeps(s, a);
    case GiveUp(_) => LeaveKeeps(s, a);
    case DropEntry(_) => LeaveKeeps(s, a);
    case Fail(_) => LeaveKeeps(s, a);
    case Wake(_) => ReadKeeps(s, a);
    case ReadOutcome(_) => ReadKeeps(s, a);
    case Ask(_, _) => ReadKeeps(s, a);
    case SendConsume(_) => ConsumeKeeps(s, a);
    case DropIndex(_) => ConsumeKeeps(s, a);
    case CancelLookup(_) => ConsumeKeeps(s, a);
    case PushArrives(_, _, _, _) => PushArrivesKeeps(s, a);
    case PushIndexes(_) => PushIndexesKeeps(s, a);
    case PushSignals(_) => PushSignalsKeeps(s, a);
    case PushWrites(_) => PushWritesKeeps(s, a);
  }

  lemma {:induction false} RunKeeps(s: System, actions: seq<Action>)
    requires Invariant(s)
    ensures Invariant(Run(s, actions))
    decreases |actions|
  {
    hide Invariant, Step;
    if actions != [] {
      StepKeeps(s, actions[0]);
      RunKeeps(Step(s, actions[0]), actions[1..]);
    }
  }

  /** The safety of the handshake, in every run of any number of calls and pushes,
      duplicate, late, unknown or competing for one approval id. A call gets
      through only if it read "approved" from its own entry, which a handler wrote
      there; a call woken before the outcome was written (it read `Blank`) never
      does; and each entry is taken by at most one handler. Getting out of
      `execute` also takes a second answer, to a request that carried this
      approval id, that is neither "block" nor "require_approval". */
  lemma EveryRun(actions: seq<Action>, c: nat)
    requires c in Run(INITIAL, actions).calls
    ensures var end := Run(INITIAL, actions);
            var call := end.calls[c];
            && (call.proceeded || PastApproval(call.phase) ==>
                  call.reading == Found(Approved) && (c, Approved) in end.record.writes)
            && (call.proceeded && call.kind == ExecuteWait ==>
                  && call.recheck.Some?
                  && call.recheck.value.approvalId == call.approvalId
                  && call.recheck.value.decision != "block"
                  && call.recheck.value.decision != "require_approval")
            && end.record.takes[c] <= 1
  {
    RunKeeps(INITIAL, actions);
    assert CallMatches(Run(INITIAL, actions), c);
  }

  lemma BlankStays(s: System, act: Action, c: nat)
    requires c in s.calls && CallMatches(s, c) && s.calls[c].reading == Blank
    ensures c in Step(s, act).calls && Step(s, act).calls[c].reading == Blank
  {
    hide Register, Unregister, MarkResolved, Signal, WriteOutcome, Forget;
  }

  /** A call that woke before the outcome was written is refused for good, even
      when the outcome written a moment later is "approved". */
  lemma {:induction false} BlankStaysRefused(s: System, actions: seq<Action>, c: nat)
    requires Invariant(s) && c in s.calls && s.calls[c].reading == Blank
    ensures c in Run(s, actions).calls
    ensures Run(s, actions).calls[c].reading == Blank && !Run(s, actions).calls[c].proceeded
    decreases |actions|
  {
    hide Invariant, Step;
    Matches(s, c);
    if actions != [] {
      StepKeeps(s, actions[0]);
      BlankStays(s, actions[0], c);
      BlankStaysRefused(Step(s, actions[0]), actions[1..], c);
    }
  }

  // ------------------------------------------------------------ consumed once

  /** Approval `a` is waited for by call `c` alone, call `c` alone holds execution
      `e`, and the pushes for `a` name `e`. */
  ghost predicate Exclusive(act: Action, c: nat, a: string, e: string) {
    && (act.Begin? && (act.call == c || act.approvalId == a || act.captured == Some(e)) ==>
          act.call == c && act.approvalId == a && act.captured == Some(e))
    && (act.PushArrives? && act.approvalId == a ==> act.execution == e)
  }

  /** The handler of a signalled entry has indexed it already. */
  ghost predicate PushMatches(push: Push, entries: map<nat, Entry>, takes: multiset<nat>) {
    && takes[push.wait] > 0
    && push.wait in entries && entries[push.wait].approvalId == push.approvalId
    && (entries[push.wait].signalled ==> push.phase != Popped && push.phase != Indexed)
    && (push.phase != Handled ==> entries[push.wait].outcome.None?)
  }

  ghost predicate Taken(pushes: map<nat, Push>, entries: map<nat, Entry>, takes: multiset<nat>) {
    && (forall p :: p in pushes ==> PushMatches(pushes[p], entries, takes))
    && (forall p, q :: p in pushes && q in pushes && pushes[p].wait == pushes[q].wait ==> p == q)
    && (forall w :: w in entries && (entries[w].signalled || entries[w].outcome.Some?) ==> takes[w] > 0)
  }

  /** An outcome written is the outcome of its entry: none is written over. */
  ghost predicate Written(writes: set<(nat, Outcome)>, entries: map<nat, Entry>) {
    forall w, o :: (w, o) in writes ==> w in entries && entries[w].outcome == Some(o)
  }

  ghost predicate Handlers(s: System) {
    && Taken(s.pushes, s.desk.entries, s.record.takes)
    && Written(s.record.writes, s.desk.entries)
    && (forall w :: w in s.calls && (s.calls[w].phase == Woken || PastApproval(s.calls[w].phase)) ==>
          w in s.desk.entries && s.desk.entries[w].signalled)
  }

  /** How often the one call has reported its approval consumed. */
  predicate ConsumedSoFar(call: Call, n: nat) {
    if call.phase == Consumed || (call.proceeded && call.kind == GateWait) then n == 1
    else if call.phase == Over then n <= 1
    else n == 0
  }

  /** Nobody else waits for the approval, holds the execution or is indexed to it. */
  ghost predicate Sole(s: System, c: nat, a: string, e: string) {
    && (forall k :: k in s.calls && (k == c || s.calls[k].approvalId == a || s.calls[k].captured == Some(e)) ==>
          k == c && s.calls[k].approvalId == a && s.calls[k].captured == Some(e))
    && (forall p :: p in s.pushes && s.pushes[p].approvalId == a ==>
          s.pushes[p].execution == e && s.pushes[p].wait == c)
    && (forall x :: x in s.desk.byExecution && s.desk.byExecution[x] == a ==> x == e)
  }

  ghost predicate Counted(s: System, c: nat, a: string, e: string) {
    && (c !in s.calls ==> s.record.consumes[a] == 0)
    && (c in s.calls ==> ConsumedSoFar(s.calls[c], s.record.consumes[a]))
    && (c in s.calls && s.calls[c].proceeded && s.calls[c].kind == GateWait ==>
          && c in s.desk.entries && s.desk.entries[c].signalled
          && (e in s.desk.byExecution ==> s.desk.byExecution[e] != a))
  }

  ghost predicate Alone(s: System, c: nat, a: string, e: string) {
    Sole(s, c, a, e) && Counted(s, c, a, e)
  }

  predicate CallAction(act: Action) {
    !act.PushArrives? && !act.PushIndexes? && !act.PushSignals? && !act.PushWrites?
  }

  /** Apart from `Begin`, a step of a call leaves entries, handlers and what they
      did as they are. */
  lemma CallStepQuiet(s: System, act: Action)
    requires CallAction(act) && !act.Begin?
    ensures var t := Step(s, act);
            && t.desk.entries == s.desk.entries && t.pushes == s.pushes
            && t.record.takes == s.record.takes && t.record.writes == s.record.writes
  {
  }

  /** It changes that call alone, and not what the call is about. */
  lemma CallStepLocal(s: System, act: Action)
    requires CallAction(act) && !act.Begin?
    ensures var t := Step(s, act);
            && t.calls.Keys == s.calls.Keys
            && (forall k :: k in s.calls && k != act.call ==> t.calls[k] == s.calls[k])
            && (act.call in s.calls ==>
                  && t.calls[act.call].approvalId == s.calls[act.call].approvalId
                  && t.calls[act.call].captured == s.calls[act.call].captured
                  && t.calls[act.call].kind == s.calls[act.call].kind)
  {
    hide Unregister, Forget;
    if act.call !in s.calls {
      assert Step(s, act) == s;
    } else {
      UpdatesCall(s, act);
      hide Step;
      var t := Step(s, act);
      assert t.calls == s.calls[act.call := t.calls[act.call]];
    }
  }

  lemma UpdatesCall(s: System, act: Action)
    requires CallAction(act) && !act.Begin? && act.call in s.calls
    ensures var t := Step(s, act);
            && act.call in t.calls
            && (t.calls == s.calls || t.calls == s.calls[act.call := t.calls[act.call]])
            && t.calls[act.call].approvalId == s.calls[act.call].approvalId
            && t.calls[act.call].captured == s.calls[act.call].captured
            && t.calls[act.call].kind == s.calls[act.call].kind
  {
    hide Unregister, Forget;
  }

  lemma CallStepFrame(s: System, act: Action)
    requires CallAction(act) && !act.Begin?
    ensures var t := Step(s, act);
            && t.desk.entries == s.desk.entries && t.pushes == s.pushes
            && t.record.takes == s.record.takes && t.record.writes == s.record.writes
            && t.calls.Keys == s.calls.Keys
            && (forall k :: k in s.calls && k != act.call ==> t.calls[k] == s.calls[k])
            && (act.call in s.calls ==>
                  && t.calls[act.call].approvalId == s.calls[act.call].approvalId
                  && t.calls[act.call].captured == s.calls[act.call].captured
                  && t.calls[act.call].kind == s.calls[act.call].kind)
  {
    hide Step;
    CallStepQuiet(s, act);
    CallStepLocal(s, act);
  }

  /** Only a signalled entry wakes its call. */
  lemma WokenBySignal(s: System, act: Action)
    requires CallAction(act) && !act.Begin? && act.call in s.calls && act.call in Step(s, act).calls
    ensures var phase, next := s.calls[act.call].phase, Step(s, act).calls[act.call].phase;
            next == Woken || PastApproval(next) ==>
              || phase == Woken || PastApproval(phase)
              || (act.call in s.desk.entries && s.desk.entries[act.call].signalled)
  {
  }

  lemma HandlersCall(s: System, act: Action)
    requires Handlers(s) && CallAction(act) && !act.Begin?
    ensures Handlers(Step(s, act))
  {
    hide Step, Taken, Written;
    CallStepFrame(s, act);
    if act.call in s.calls { WokenBySignal(s, act); }
  }

  lemma HandlersBegin(s: System, act: Action)
    requires Invariant(s) && Handlers(s) && act.Begin?
    ensures Handlers(Step(s, act))
  {
    hide Invariant;
    if act.call !in s.calls { Unused(s, act.call); }
  }

  lemma HandlersArrive(s: System, act: Action)
    requires Invariant(s) && Handlers(s) && act.PushArrives?
    ensures Handlers(Step(s, act))
  {
    hide Invariant;
    if act.approvalId in s.desk.pending { Registered(s, act.approvalId); }
  }

  lemma HandlersIndex(s: System, act: Action)
    requires Handlers(s) && act.PushIndexes?
    ensures Handlers(Step(s, act))
  {
  }

  lemma HandlersSignal(s: System, act: Action)
    requires Handlers(s) && act.PushSignals?
    ensures Handlers(Step(s, act))
  {
  }

  lemma WriteTaken(s: System, act: Action)
    requires Handlers(s) && act.PushWrites?
    ensures var t := Step(s, act); Taken(t.pushes, t.desk.entries, t.record.takes)
  {
    hide Written;
  }

  lemma WriteWritten(s: System, act: Action)
    requires Handlers(s) && act.PushWrites?
    ensures var t := Step(s, act); Written(t.record.writes, t.desk.entries)
  {
    if PushAt(s, act.push, Signalled) {
      assert PushMatches(s.pushes[act.push], s.desk.entries, s.record.takes);
    }
    hide Taken;
  }

  lemma HandlersWrite(s: System, act: Action)
    requires Handlers(s) && act.PushWrites?
    ensures Handlers(Step(s, act))
  {
    WriteTaken(s, act);
    WriteWritten(s, act);
    hide Taken, Written;
  }

  lemma HandlersStep(s: System, act: Action)
    requires Invariant(s) && Handlers(s)
    ensures Handlers(Step(s, act))
  {
    hide Invariant, Handlers, Step;
    match act
    case Begin(_, _, _, _) => HandlersBegin(s, act);
    case PushArrives(_, _, _, _) => HandlersArrive(s, act);
    case PushIndexes(_) => HandlersIndex(s, act);
    case PushSignals(_) => HandlersSignal(s, act);
    case PushWrites(_) => HandlersWrite(s, act);
    case _ => HandlersCall(s, act);
  }

  /** Steps of calls that send no consume request and drop no index entry. */
  predicate Quiet(act: Action) {
    act.GiveUp? || act.DropEntry? || act.Wake? || act.ReadOutcome? || act.Ask? || act.Fail?
  }

  lemma QuietFrame(s: System, act: Action)
    requires Quiet(act)
    ensures Step(s, act).record.consumes == s.record.consumes
    ensures Step(s, act).desk.byExecution == s.desk.byExecution
  {
  }

  lemma QuietCount(s: System, act: Action, n: nat)
    requires Quiet(act) && act.call in s.calls && CallMatches(s, act.call) && ConsumedSoFar(s.calls[act.call], n)
    ensures act.call in Step(s, act).calls && ConsumedSoFar(Step(s, act).calls[act.call], n)
    ensures var call, next := s.calls[act.call], Step(s, act).calls[act.call];
            next.proceeded && next.kind == GateWait ==> call.proceeded && call.kind == GateWait
  {
  }

  /** A step of a call leaves the others out as long as it indexes nothing. */
  lemma SoleKeeps(s: System, act: Action, c: nat, a: string, e: string)
    requires CallAction(act) && !act.Begin? && Sole(s, c, a, e)
    requires var t := Step(s, act); forall x :: x in t.desk.byExecution ==>
                                      x in s.desk.byExecution && t.desk.byExecution[x] == s.desk.byExecution[x]
    ensures Sole(Step(s, act), c, a, e)
  {
    hide Step;
    CallStepFrame(s, act);
  }

  lemma AloneQuiet(s: System, act: Action, c: nat, a: string, e: string)
    requires Invariant(s) && Alone(s, c, a, e) && Quiet(act)
    ensures Alone(Step(s, act), c, a, e)
  {
    hide Invariant, Step, ConsumedSoFar, Sole;
    CallStepFrame(s, act);
    QuietFrame(s, act);
    SoleKeeps(s, act, c, a, e);
    if c in s.calls && act.call == c {
      Matches(s, c);
      QuietCount(s, act, s.record.consumes[a]);
    }
  }

  lemma AloneBegin(s: System, act: Action, c: nat, a: string, e: string)
    requires Invariant(s) && Alone(s, c, a, e) && Exclusive(act, c, a, e)
    requires act.Begin?
    ensures Alone(Step(s, act), c, a, e)
  {
  }

  lemma AloneSend(s: System, act: Action, c: nat, a: string, e: string)
    requires Invariant(s) && Alone(s, c, a, e) && act.SendConsume?
    ensures Alone(Step(s, act), c, a, e)
  {
    hide Invariant;
    CallStepFrame(s, act);
    if c in s.calls { Matches(s, c); }
  }

  /** What the exception path of one call adds to the consume requests. */
  function LookedUp(s: System, c: nat): multiset<string> {
    if At(s, c, Cancelling) && s.calls[c].captured.Some? && s.calls[c].captured.value in s.desk.byExecution
    then multiset{s.desk.byExecution[s.calls[c].captured.value]}
    else multiset{}
  }

  lemma LookupFrame(s: System, act: Action)
    requires act.CancelLookup?
    ensures var t := Step(s, act);
            && t.desk == s.desk && t.record.consumes == s.record.consumes + LookedUp(s, act.call)
            && (act.call in s.calls ==>
                  act.call in t.calls && t.calls[act.call].proceeded == s.calls[act.call].proceeded
                  && t.calls[act.call].phase == if At(s, act.call, Cancelling) then Over else s.calls[act.call].phase)
  {
  }

  /** Only the one call can look its approval up, and only before it has gone on. */
  lemma LooksUpOwn(s: System, x: nat, c: nat, a: string, e: string)
    requires Alone(s, c, a, e)
    ensures LookedUp(s, x)[a] <= 1
    ensures LookedUp(s, x)[a] > 0 ==>
              x == c && At(s, c, Cancelling) && !(s.calls[c].proceeded && s.calls[c].kind == GateWait)
  {
  }

  lemma AloneLookup(s: System, act: Action, c: nat, a: string, e: string)
    requires Invariant(s) && Alone(s, c, a, e) && act.CancelLookup?
    ensures Alone(Step(s, act), c, a, e)
  {
    hide Invariant, Step, LookedUp, Sole;
    CallStepFrame(s, act);
    LookupFrame(s, act);
    SoleKeeps(s, act, c, a, e);
    LooksUpOwn(s, act.call, c, a, e);
    if c in s.calls { Matches(s, c); }
  }

  lemma AloneDrop(s: System, act: Action, c: nat, a: string, e: string)
    requires Invariant(s) && Handlers(s) && Alone(s, c, a, e)
    requires act.DropIndex?
    ensures Alone(Step(s, act), c, a, e)
  {
    hide Invariant;
    CallStepFrame(s, act);
    if c in s.calls { Matches(s, c); }
  }

  lemma AloneArrive(s: System, act: Action, c: nat, a: string, e: string)
    requires Invariant(s) && Alone(s, c, a, e) && Exclusive(act, c, a, e)
    requires act.PushArrives?
    ensures Alone(Step(s, act), c, a, e)
  {
  }

  lemma AlonePush(s: System, act: Action, c: nat, a: string, e: string)
    requires Handlers(s) && Alone(s, c, a, e)
    requires act.PushIndexes? || act.PushSignals? || act.PushWrites?
    ensures Alone(Step(s, act), c, a, e)
  {
    if act.push in s.pushes { assert PushMatches(s.pushes[act.push], s.desk.entries, s.record.takes); }
  }

  lemma AloneStep(s: System, act: Action, c: nat, a: string, e: string)
    requires Invariant(s) && Handlers(s) && Alone(s, c, a, e) && Exclusive(act, c, a, e)
    ensures Alone(Step(s, act), c, a, e)
  {
    hide Invariant, Handlers, Alone, Step, Exclusive;
    match act
    case Begin(_, _, _, _) => AloneBegin(s, act, c, a, e);
    case SendConsume(_) => AloneSend(s, act, c, a, e);
    case DropIndex(_) => AloneDrop(s, act, c, a, e);
    case CancelLookup(_) => AloneLookup(s, act, c, a, e);
    case PushArrives(_, _, _, _) => AloneArrive(s, act, c, a, e);
    case PushIndexes(_) => AlonePush(s, act, c, a, e);
    case PushSignals(_) => AlonePush(s, act, c, a, e);
    case PushWrites(_) => AlonePush(s, act, c, a, e);
    case _ => AloneQuiet(s, act, c, a, e);
  }

  lemma {:induction false} RunAlone(s: System, actions: seq<Action>, c: nat, a: string, e: string)
    requires Invariant(s) && Handlers(s) && Alone(s, c, a, e)
    requires forall i :: 0 <= i < |actions| ==> Exclusive(actions[i], c, a, e)
    ensures Alone(Run(s, actions), c, a, e) && Handlers(Run(s, actions)) && Invariant(Run(s, actions))
    decreases |actions|
  {
    hide Invariant, Handlers, Alone, Step, Exclusive;
    if actions != [] {
      StepKeeps(s, actions[0]);
      HandlersStep(s, actions[0]);
      AloneStep(s, actions[0], c, a, e);
      RunAlone(Step(s, actions[0]), actions[1..], c, a, e);
    }
  }

  lemma NothingYet(c: nat, a: string, e: string)
    ensures Invariant(INITIAL) && Handlers(INITIAL) && Alone(INITIAL, c, a, e)
  {
  }

  lemma AloneMeans(s: System, c: nat, a: string, e: string)
    requires Alone(s, c, a, e)
    ensures s.record.consumes[a] <= 1
    ensures c in s.calls && s.calls[c].proceeded && s.calls[c].kind == GateWait ==>
              s.record.consumes[a] == 1 && (e in s.desk.byExecution ==> s.desk.byExecution[e] != a)
  {
  }

  /** A grant is consumed at most once, whatever duplicate or late pushes, time-outs
      and failures after the resume the run holds; and once the /gate wait is over
      with an approval, the reverse index no longer leads to it. */
  lemma ConsumedAtMostOnce(actions: seq<Action>, c: nat, a: string, e: string)
    requires forall i :: 0 <= i < |actions| ==> Exclusive(actions[i], c, a, e)
    ensures var end := Run(INITIAL, actions);
            && end.record.consumes[a] <= 1
            && (c in end.calls && end.calls[c].proceeded && end.calls[c].kind == GateWait ==>
                  end.record.consumes[a] == 1 && (e in end.desk.byExecution ==> end.desk.byExecution[e] != a))
  {
    hide Handlers, Invariant, Alone, Exclusive, Run;
    assert Handlers(INITIAL) && Invariant(INITIAL) && Alone(INITIAL, c, a, e) by { NothingYet(c, a, e); }
    RunAlone(INITIAL, actions, c, a, e);
    AloneMeans(Run(INITIAL, actions), c, a, e);
  }

  // ------------------------------------------------------ exactly how often

  /** A /gate wait on the approval that has resumed. */
  predicate Resumed(call: Call, a: string) {
    call.approvalId == a && call.kind == GateWait && (call.phase == Consumed || call.proceeded)
  }

  function ResumedOn(s: System, a: string): set<nat> {
    set c | c in s.calls && Resumed(s.calls[c], a)
  }

  predicate Reports(s: System, act: Action) {
    act.SendConsume? && At(s, act.call, Resuming) && s.calls[act.call].kind == GateWait
  }

  function Looks(s: System, act: Action): multiset<string> {
    if act.CancelLookup? then LookedUp(s, act.call) else multiset{}
  }

  /** How often the exception paths of a run find the approval in the index. */
  function LookupsOf(s: System, actions: seq<Action>, a: string): nat
    decreases |actions|
  {
    if actions == [] then 0 else Looks(s, actions[0])[a] + LookupsOf(Step(s, actions[0]), actions[1..], a)
  }

  lemma ConsumesStep(s: System, act: Action)
    ensures Step(s, act).record.consumes
            == s.record.consumes + (if Reports(s, act) then multiset{s.calls[act.call].approvalId} else multiset{})
               + Looks(s, act)
  {
    hide Register, Unregister, MarkResolved, Signal, WriteOutcome, Forget;
  }

  lemma ResumesOwn(s: System, act: Action, a: string)
    requires CallAction(act) && !act.Begin? && act.call in s.calls && CallMatches(s, act.call)
    ensures var call, t := s.calls[act.call], Step(s, act);
            && act.call in t.calls
            && (Resumed(t.calls[act.call], a) <==> Resumed(call, a) || (Reports(s, act) && call.approvalId == a))
            && (Reports(s, act) ==> !Resumed(call, a))
  {
    hide Register, Unregister, MarkResolved, Signal, WriteOutcome, Forget;
  }

  lemma PushesLeaveCalls(s: System, act: Action)
    requires !CallAction(act)
    ensures Step(s, act).calls == s.calls
  {
    hide Register, Unregister, MarkResolved, Signal, WriteOutcome, Forget;
  }

  lemma BeginsWaiting(s: System, act: Action)
    requires act.Begin?
    ensures var t := Step(s, act);
            && (forall k :: k in s.calls ==> k in t.calls && t.calls[k] == s.calls[k])
            && (forall k :: k in t.calls && k !in s.calls ==> t.calls[k].phase == Waiting && !t.calls[k].proceeded)
  {
    hide Register;
  }

  lemma ResumedStep(s: System, act: Action, a: string)
    requires Invariant(s)
    ensures ResumedOn(Step(s, act), a)
            == ResumedOn(s, a) + if Reports(s, act) && s.calls[act.call].approvalId == a then {act.call} else {}
    ensures Reports(s, act) ==> act.call !in ResumedOn(s, a)
  {
    hide Invariant, Step;
    if !CallAction(act) {
      PushesLeaveCalls(s, act);
    } else if act.Begin? {
      BeginsWaiting(s, act);
    } else {
      CallStepFrame(s, act);
      if act.call in s.calls {
        Matches(s, act.call);
        ResumesOwn(s, act, a);
      }
      hide Resumed, CallMatches;
    }
  }

  lemma CountStep(s: System, act: Action, a: string)
    requires Invariant(s)
    ensures Step(s, act).record.consumes[a] + |ResumedOn(s, a)|
            == s.record.consumes[a] + |ResumedOn(Step(s, act), a)| + Looks(s, act)[a]
  {
    hide Invariant, Step, ResumedOn, Looks;
    ConsumesStep(s, act);
    ResumedStep(s, act, a);
  }

  lemma {:induction false} RunCounts(s: System, actions: seq<Action>, a: string)
    requires Invariant(s)
    ensures Run(s, actions).record.consumes[a] + |ResumedOn(s, a)|
            == s.record.consumes[a] + |ResumedOn(Run(s, actions), a)| + LookupsOf(s, actions, a)
    decreases |actions|
  {
    hide Invariant, Step, ResumedOn, Looks;
    if actions != [] {
      StepKeeps(s, actions[0]);
      CountStep(s, actions[0], a);
      RunCounts(Step(s, actions[0]), actions[1..], a);
    }
  }

  /** In every run, shared ids and misnamed pushes included, an approval is consumed
      once for each /gate wait on it that resumed and once for each exception path
      that found it in the index. */
  lemma ConsumedExactly(actions: seq<Action>, a: string)
    ensures Run(INITIAL, actions).record.consumes[a]
            == |ResumedOn(Run(INITIAL, actions), a)| + LookupsOf(INITIAL, actions, a)
  {
    hide Run, LookupsOf, Invariant;
    InitialInvariant();
    RunCounts(INITIAL, actions, a);
  }

  // --------------------------------------- exactly when an approved call goes on

  lemma {:induction false} RunHandles(s: System, actions: seq<Action>)
    requires Invariant(s) && Handlers(s)
    ensures Invariant(Run(s, actions)) && Handlers(Run(s, actions))
    decreases |actions|
  {
    hide Invariant, Handlers, Step;
    if actions != [] {
      StepKeeps(s, actions[0]);
      HandlersStep(s, actions[0]);
      RunHandles(Step(s, actions[0]), actions[1..]);
    }
  }

  /** A woken call resumes exactly when the handler's write of "approved" came
      before the call reads its outcome; otherwise it is refused. */
  lemma ResumesExactly(actions: seq<Action>, c: nat)
    requires At(Run(INITIAL, actions), c, Woken)
    ensures var s := Run(INITIAL, actions);
            var t := Step(s, ReadOutcome(c));
            && (At(t, c, Resuming) <==> (c, Approved) in s.record.writes)
            && (At(t, c, Refused) <==> (c, Approved) !in s.record.writes)
  {
    hide Invariant, Run, INITIAL;
    NothingYet(c, "", "");
    RunHandles(INITIAL, actions);
    var s := Run(INITIAL, actions);
    Matches(s, c);
    ReadsWritten(s, c);
  }

  lemma ReadsWritten(s: System, c: nat)
    requires Handlers(s) && At(s, c, Woken) && CallMatches(s, c)
    ensures var t := Step(s, ReadOutcome(c));
            if (c, Approved) in s.record.writes then At(t, c, Resuming) else At(t, c, Refused)
  {
  }

  /** What `execute` does with the answer to its second request. */
  lemma SecondAnswer(s: System, c: nat, decision: string)
    requires At(s, c, Resuming) && s.calls[c].kind == ExecuteWait
    ensures At(Step(s, Ask(c, "block")), c, Refused) && !Step(s, Ask(c, "block")).calls[c].proceeded
    ensures At(Step(s, Ask(c, "require_approval")), c, Refused)
    ensures !Step(s, Ask(c, "require_approval")).calls[c].proceeded
    ensures decision != "block" && decision != "require_approval" ==>
              At(Step(s, Ask(c, decision)), c, Going) && Step(s, Ask(c, decision)).calls[c].proceeded
  {
  }

  /** In every run an approved /gate wait goes on, and only an approved one; an
      `execute` wait goes on exactly when it was approved, has asked again under its
      own approval id, and the answer was neither "block" nor "require_approval". */
  lemma GoesOnExactly(actions: seq<Action>, c: nat)
    requires c in Run(INITIAL, actions).calls
    ensures var call := Run(INITIAL, actions).calls[c];
            && (call.kind == GateWait ==>
                  (call.reading == Found(Approved) <==> call.proceeded || PastApproval(call.phase)))
            && (call.kind == ExecuteWait ==>
                  (call.proceeded <==>
                     && call.reading == Found(Approved)
                     && call.recheck.Some?
                     && call.recheck.value.approvalId == call.approvalId
                     && call.recheck.value.decision != "block"
                     && call.recheck.value.decision != "require_approval"))
  {
    hide Invariant, Run, INITIAL;
    InitialInvariant();
    RunKeeps(INITIAL, actions);
    Matches(Run(INITIAL, actions), c);
  }

  lemma InitialInvariant()
    ensures Invariant(INITIAL)
  {
  }

  // --------------------------------------------------------- the reverse index

  /** A handler has put the execution into the index for this approval. */
  ghost predicate IndexedBy(pushes: map<nat, Push>, execution: string, approvalId: string) {
    execution != "" && exists p :: p in pushes && pushes[p].execution == execution
                                   && pushes[p].approvalId == approvalId && pushes[p].phase != Popped
  }

  ghost predicate IndexSound(s: System) {
    forall x :: x in s.desk.byExecution ==> IndexedBy(s.pushes, x, s.desk.byExecution[x])
  }

  /** A handler that has indexed never goes back, and its push keeps its contents. */
  ghost predicate PushesGoOn(before: map<nat, Push>, after: map<nat, Push>) {
    forall p :: p in before ==>
      && p in after && after[p].execution == before[p].execution && after[p].approvalId == before[p].approvalId
      && (before[p].phase != Popped ==> after[p].phase != Popped)
  }

  lemma StaysIndexed(before: map<nat, Push>, after: map<nat, Push>, x: string, a: string)
    requires PushesGoOn(before, after) && IndexedBy(before, x, a)
    ensures IndexedBy(after, x, a)
  {
    var p :| p in before && before[p].execution == x && before[p].approvalId == a && before[p].phase != Popped;
    assert p in after;
  }

  lemma PushesStep(s: System, act: Action)
    ensures PushesGoOn(s.pushes, Step(s, act).pushes)
  {
    if CallAction(act) && !act.Begin? {
      CallStepFrame(s, act);
      hide Step;
    }
  }

  /** What a step adds to the index is what a handler adds. */
  lemma IndexGains(s: System, act: Action, x: string)
    requires x in Step(s, act).desk.byExecution
    ensures var t := Step(s, act);
            || (x in s.desk.byExecution && t.desk.byExecution[x] == s.desk.byExecution[x])
            || IndexedBy(t.pushes, x, t.desk.byExecution[x])
  {
    hide IndexedBy;
    if act.PushIndexes? && PushAt(s, act.push, Popped) && x == s.pushes[act.push].execution && x != "" {
      IndexerKnown(s, act.push, x);
    }
  }

  lemma IndexerKnown(s: System, p: nat, x: string)
    requires PushAt(s, p, Popped) && x == s.pushes[p].execution != ""
    ensures IndexedBy(Step(s, PushIndexes(p)).pushes, x, s.pushes[p].approvalId)
  {
    var t := Step(s, PushIndexes(p));
    assert p in t.pushes && t.pushes[p] == s.pushes[p].(phase := Indexed);
  }

  lemma IndexStep(s: System, act: Action)
    requires IndexSound(s)
    ensures IndexSound(Step(s, act))
  {
    hide Step, IndexedBy, PushesGoOn;
    PushesStep(s, act);
    var t := Step(s, act);
    forall x | x in t.desk.byExecution
      ensures IndexedBy(t.pushes, x, t.desk.byExecution[x])
    {
      IndexGains(s, act, x);
      if x in s.desk.byExecution && t.desk.byExecution[x] == s.desk.byExecution[x] {
        StaysIndexed(s.pushes, t.pushes, x, s.desk.byExecution[x]);
      }
    }
  }

  lemma {:induction false} IndexRun(s: System, actions: seq<Action>)
    requires IndexSound(s)
    ensures IndexSound(Run(s, actions))
    decreases |actions|
  {
    hide Step, IndexSound;
    if actions != [] {
      IndexStep(s, actions[0]);
      IndexRun(Step(s, actions[0]), actions[1..]);
    }
  }

  /** Whatever a lookup finds in any run, a handler that took a push for that
      approval and that execution has put there. */
  lemma IndexedByPush(actions: seq<Action>, execution: string)
    requires execution in Run(INITIAL, actions).desk.byExecution
    ensures var s := Run(INITIAL, actions); IndexedBy(s.pushes, execution, s.desk.byExecution[execution])
  {
    IndexRun(INITIAL, actions);
  }

  ghost predicate Reachable(s: System) {
    exists actions :: s == Run(INITIAL, actions)
  }

  lemma {:induction false} RunThenStep(s: System, actions: seq<Action>, a: Action)
    ensures Run(s, actions + [a]) == Step(Run(s, actions), a)
    decreases |actions|
  {
    hide Step;
    if actions == [] {
      assert [] + [a] == [a] && [a][1..] == [];
      assert Run(s, [a]) == Run(Step(s, a), []);
    } else {
      assert (actions + [a])[1..] == actions[1..] + [a];
      RunThenStep(Step(s, actions[0]), actions[1..], a);
    }
  }

  lemma Next(s: System, a: Action) returns (t: System)
    requires Reachable(s)
    ensures t == Step(s, a) && Reachable(t)
  {
    hide Step;
    var actions :| s == Run(INITIAL, actions);
    RunThenStep(INITIAL, actions, a);
    t := Step(s, a);
  }

  lemma Start() returns (s: System)
    ensures s == INITIAL && Reachable(s)
  {
    assert Run(INITIAL, []) == INITIAL;
    s := INITIAL;
  }

  /** Call `c` starts to wait for approval "a" under execution `e`, and a push that
      names execution `x` is taken. */
  lemma Waits(s: System, c: nat, e: string, x: string) returns (t: System)
    requires Reachable(s) && c !in s.calls && c !in s.pushes && e != ""
    ensures Reachable(t) && t.record.consumes == s.record.consumes && t.desk.byExecution == s.desk.byExecution
    ensures t.calls == s.calls[c := Call(GateWait, "a", Some(e), Waiting, NotRead, None, false)]
    ensures t.pushes == s.pushes[c := Push("a", x, Approved, c, Popped)]
    ensures c in t.desk.entries && t.desk.entries[c] == Entry("a", false, None)
  {
    hide Reachable, Run;
    t := Next(s, Begin(c, GateWait, "a", Some(e)));
    assert t.calls == s.calls[c := Call(GateWait, "a", Some(e), Waiting, NotRead, None, false)];
    assert t.desk.entries[c] == Entry("a", false, None) && t.desk.pending["a"] == c;
    t := Next(t, PushArrives(c, "a", x, Approved));
  }

  /** The push then wakes it. */
  lemma WaitsAndIsSignalled(s: System, c: nat, e: string, x: string) returns (t: System)
    requires Reachable(s) && c !in s.calls && c !in s.pushes && e != "" && x != ""
    ensures Reachable(t) && t.record.consumes == s.record.consumes
    ensures t.desk.byExecution == s.desk.byExecution[x := "a"]
    ensures t.calls == s.calls[c := Call(GateWait, "a", Some(e), Waiting, NotRead, None, false)]
    ensures t.pushes == s.pushes[c := Push("a", x, Approved, c, Signalled)]
    ensures c in t.desk.entries && t.desk.entries[c] == Entry("a", true, None)
  {
    hide Reachable, Run;
    t := Waits(s, c, e, x);
    t := Next(t, PushIndexes(c));
    assert t.pushes == s.pushes[c := Push("a", x, Approved, c, Indexed)];
    t := Next(t, PushSignals(c));
  }

  /** The window between signal and write is open: an operator's approval, and a
      refused call. */
  lemma ApprovedYetRefused() returns (s: System)
    ensures Reachable(s)
    ensures At(s, 0, Refused) && s.calls[0].reading == Blank
    ensures 0 in s.desk.entries && s.desk.entries[0].outcome == Some(Approved)
  {
    hide Reachable, Run;
    s := Start();
    s := WaitsAndIsSignalled(s, 0, "e", "e");
    s := Next(s, Wake(0));
    assert s.calls[0] == Call(GateWait, "a", Some("e"), Woken, NotRead, None, false);
    s := Next(s, ReadOutcome(0));
    assert s.calls[0] == Call(GateWait, "a", Some("e"), Refused, Blank, None, false);
    s := Next(s, PushWrites(0));
  }

  lemma GoesOn(s: System, c: nat, e: string) returns (t: System)
    requires Reachable(s) && c in s.calls && s.calls[c] == Call(GateWait, "a", Some(e), Waiting, NotRead, None, false)
    requires c in s.desk.entries && s.desk.entries[c] == Entry("a", true, Some(Approved))
    ensures Reachable(t) && t.calls.Keys == s.calls.Keys && t.pushes == s.pushes
    ensures forall k :: k in s.calls && k != c ==> t.calls[k] == s.calls[k]
    ensures t.desk.byExecution == s.desk.byExecution - {e}
    ensures t.record.consumes == s.record.consumes + multiset{"a"}
  {
    hide Reachable, Run;
    t := Next(s, Wake(c));
    assert t == s.(calls := s.calls[c := s.calls[c].(phase := Woken)]);
    t := Next(t, ReadOutcome(c));
    assert t.calls[c] == Call(GateWait, "a", Some(e), Resuming, Found(Approved), None, false);
    t := Next(t, SendConsume(c));
    t := Next(t, DropIndex(c));
  }

  lemma Fails(s: System, c: nat) returns (t: System)
    requires Reachable(s) && At(s, c, Waiting)
    ensures Reachable(t) && t.desk.byExecution == s.desk.byExecution && t.record == s.record
    ensures t.calls == s.calls[c := s.calls[c].(phase := Cancelling)]
  {
    hide Reachable, Run, Register, MarkResolved, Signal, WriteOutcome, Forget;
    t := Next(s, GiveUp(c));
    assert t == s.(calls := s.calls[c := s.calls[c].(phase := TimedOut)]);
    t := Next(t, DropEntry(c));
    assert t.calls == s.calls[c := s.calls[c].(phase := Refused)] && t.desk.byExecution == s.desk.byExecution;
    t := Next(t, Fail(c));
  }

  /** Call `c` gives up, fails, and consumes what its execution is indexed to. */
  lemma FailsOnceIndexed(s: System, c: nat, x: string) returns (t: System)
    requires Reachable(s) && At(s, c, Waiting) && s.calls[c].captured == Some(x)
    requires x in s.desk.byExecution && s.desk.byExecution[x] == "a"
    ensures Reachable(t) && t.desk.byExecution == s.desk.byExecution
    ensures c in t.calls && t.calls == s.calls[c := t.calls[c]]
    ensures t.record.consumes == s.record.consumes + multiset{"a"}
  {
    hide Reachable, Run, Register, MarkResolved, Signal, WriteOutcome, Forget, Unregister;
    t := Fails(s, c);
    t := Next(t, CancelLookup(c));
  }

  /** Call `c` waits for approval "a", is told "approved" and goes on. */
  lemma ApprovedOnce(s: System, c: nat, e: string, x: string) returns (t: System)
    requires Reachable(s) && c !in s.calls && c !in s.pushes && e != "" && x != ""
    ensures Reachable(t) && t.calls.Keys == s.calls.Keys + {c} && t.pushes.Keys == s.pushes.Keys + {c}
    ensures forall k :: k in s.calls ==> t.calls[k] == s.calls[k]
    ensures t.desk.byExecution == s.desk.byExecution[x := "a"] - {e}
    ensures t.record.consumes == s.record.consumes + multiset{"a"}
  {
    hide Reachable, Run;
    t := WaitsAndIsSignalled(s, c, e, x);
    t := Next(t, PushWrites(c));
    hide Step;
    t := GoesOn(t, c, e);
  }

  /** Each part of exclusiveness is needed. Two calls served the same approval id,
      one after the other, consume it twice. */
  lemma ConsumedTwice() returns (s: System)
    ensures Reachable(s) && s.record.consumes["a"] == 2
  {
    hide Reachable, Run, Step;
    s := Start();
    s := ApprovedOnce(s, 0, "e", "e");
    s := ApprovedOnce(s, 1, "f", "f");
  }

  /** So do two failing calls that hold the same execution, as the exception path
      leaves the index as it is. */
  lemma ConsumedTwiceBySharedExecution() returns (s: System)
    ensures Reachable(s) && s.record.consumes["a"] == 2
  {
    hide Reachable, Run;
    s := Start();
    s := Next(s, Begin(1, GateWait, "b", Some("e")));
    assert At(s, 1, Waiting) && s.calls.Keys == {1};
    s := WaitsAndIsSignalled(s, 0, "e", "e");
    hide Step;
    s := FailsOnceIndexed(s, 1, "e");
    s := FailsOnceIndexed(s, 0, "e");
  }

  /** And a push that names the execution of another call, which then fails. */
  lemma ConsumedTwiceByMisnamedPush() returns (s: System)
    ensures Reachable(s) && s.record.consumes["a"] == 2
  {
    hide Reachable, Run;
    s := Start();
    s := Next(s, Begin(1, GateWait, "b", Some("f")));
    assert At(s, 1, Waiting) && s.calls.Keys == {1} && s.calls[1].captured == Some("f");
    hide Step;
    s := ApprovedOnce(s, 0, "e", "f");
    s := FailsOnceIndexed(s, 1, "f");
  }
}
