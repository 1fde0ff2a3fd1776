/** What the accounts of protected calls say about the events of a whole run. */
module CallClaims {
  import opened BusinessImpacts
  import opened CallRuns
  import OperationIds
  import opened Options
  import opened Programs
  import opened Scopes

  lemma Starts(failOpen: bool)
    ensures Ready(failOpen, START)
  {
    assert forall k: nat :: AccountOf(failOpen, Silence, k) == NOTHING;
  }

  /** Every call of a whole run ends settled. */
  lemma EveryCallSettled(env: Settings, p: Program, k: nat)
    ensures Settled(AccountOf(env.failOpen, Eval(env, p, START).state.log, k))
  {
    hide Eval, AccountOf, Ready;
    Starts(env.failOpen);
    EverOrderly(env, p, START);
    var end := Eval(env, p, START).state;
    ReadyMeans(env.failOpen, end);
    Settles();
  }

  /** What the log of a run is: every call settled, no operation id told twice. */
  ghost predicate Lawful(failOpen: bool, log: Trace) {
    (forall k: nat :: Settled(AccountOf(failOpen, log, k))) && DistinctOps(log)
  }

  /** The log of every whole run is lawful; what follows holds of lawful logs. */
  lemma EveryRunLawful(env: Settings, p: Program)
    ensures Lawful(env.failOpen, Eval(env, p, START).state.log)
  {
    hide Eval, AccountOf, Settled;
    Starts(env.failOpen);
    EverOrderly(env, p, START);
    forall k: nat
      ensures Settled(AccountOf(env.failOpen, Eval(env, p, START).state.log, k))
    {
      EveryCallSettled(env, p, k);
    }
  }

  // ----------------------------------------------------- the body's warrants

  // Each warrant says that an answer which lets call `k` go on came at some point
  // of the log, and that the warrant before it already held there.

  ghost predicate ControlWarrant(log: Trace, k: nat) {
    exists l, has, state :: Extends(log, On(l, ControlAsked(k, has, state))) && ControlPermits(has, state)
  }

  ghost predicate BudgetWarrant(log: Trace, k: nat) {
    exists l, has, answer ::
      Extends(log, On(l, BudgetAsked(k, has, answer))) && BudgetPermits(has, answer) && ControlWarrant(l, k)
  }

  ghost predicate PolicyWarrant(failOpen: bool, log: Trace, k: nat) {
    exists l, policy ::
      Extends(log, On(l, PolicyAsked(k, policy))) && PolicyPermits(failOpen, policy) && BudgetWarrant(l, k)
  }

  ghost predicate DrainWarrant(failOpen: bool, log: Trace, k: nat) {
    exists l :: Extends(log, On(l, Drained(k, None))) && PolicyWarrant(failOpen, l, k)
  }

  predicate PastBudget(stage: Stage) {
    stage == BudgetOk || stage == SpanOpen || PastPolicy(stage)
  }

  predicate PastPolicy(stage: Stage) {
    stage == PolicyOk || stage == Clear
  }

  /** What has been said to a call that has come as far as a stage. */
  ghost predicate Warranted(failOpen: bool, log: Trace, k: nat, stage: Stage) {
    && (stage == ControlOk ==> ControlWarrant(log, k))
    && (PastBudget(stage) ==> BudgetWarrant(log, k))
    && (PastPolicy(stage) ==> PolicyWarrant(failOpen, log, k))
    && (stage == Clear ==> DrainWarrant(failOpen, log, k))
  }

  lemma WarrantsStay(failOpen: bool, log: Trace, e: Event, k: nat)
    ensures ControlWarrant(log, k) ==> ControlWarrant(On(log, e), k)
    ensures BudgetWarrant(log, k) ==> BudgetWarrant(On(log, e), k)
    ensures PolicyWarrant(failOpen, log, k) ==> PolicyWarrant(failOpen, On(log, e), k)
    ensures DrainWarrant(failOpen, log, k) ==> DrainWarrant(failOpen, On(log, e), k)
  {
    hide ControlPermits, BudgetPermits, PolicyPermits;
  }

  lemma WarrantsCome(failOpen: bool, log: Trace, e: Event, k: nat)
    ensures e.ControlAsked? && e.call == k && ControlPermits(e.hasWorkflow, e.state) ==> ControlWarrant(On(log, e), k)
    ensures e.BudgetAsked? && e.call == k && BudgetPermits(e.hasWorkflow, e.answer) && ControlWarrant(log, k)
            ==> BudgetWarrant(On(log, e), k)
    ensures e.PolicyAsked? && e.call == k && PolicyPermits(failOpen, e.policy) && BudgetWarrant(log, k)
            ==> PolicyWarrant(failOpen, On(log, e), k)
    ensures e == Drained(k, None) && PolicyWarrant(failOpen, log, k) ==> DrainWarrant(failOpen, On(log, e), k)
  {
    hide ControlPermits, BudgetPermits, PolicyPermits;
    assert Extends(On(log, e), On(log, e));
  }

  /** A stage is reached only from the one before it, by the answer that warrants it. */
  lemma Promotes(failOpen: bool, stage: Stage, e: Event)
    requires NextStage(failOpen, stage, e) != Broken
    ensures var next := NextStage(failOpen, stage, e);
            && stage != Broken
            && (next == ControlOk ==> stage == ControlOk || (e.ControlAsked? && ControlPermits(e.hasWorkflow, e.state)))
            && (PastBudget(next) ==>
                  PastBudget(stage) || (stage == ControlOk && e.BudgetAsked? && BudgetPermits(e.hasWorkflow, e.answer)))
            && (PastPolicy(next) ==>
                  PastPolicy(stage) || (stage == SpanOpen && e.PolicyAsked? && PolicyPermits(failOpen, e.policy)))
            && (next == Clear ==> stage == Clear || (stage == PolicyOk && e.Drained? && e.found.None?))
            && (e.BodyBegan? ==> stage == Clear)
  {
    hide ControlPermits, BudgetPermits, PolicyPermits;
  }

  lemma StageMoves(failOpen: bool, log: Trace, e: Event, k: nat)
    requires AccountOf(failOpen, On(log, e), k).stage != Broken
    ensures AccountOf(failOpen, On(log, e), k).stage
            == if CallOf(e) == Some(k) then NextStage(failOpen, AccountOf(failOpen, log, k).stage, e)
               else AccountOf(failOpen, log, k).stage
  {
    hide NextStage, HashedBytes, WellBound, Agrees, CallImpact;
  }

  lemma WarrantStep(failOpen: bool, log: Trace, e: Event, k: nat)
    requires AccountOf(failOpen, On(log, e), k).stage != Broken
    requires Warranted(failOpen, log, k, AccountOf(failOpen, log, k).stage)
    ensures Warranted(failOpen, On(log, e), k, AccountOf(failOpen, On(log, e), k).stage)
  {
    hide ControlWarrant, BudgetWarrant, PolicyWarrant, DrainWarrant, AccountOf, NextStage;
    hide ControlPermits, BudgetPermits, PolicyPermits;
    StageMoves(failOpen, log, e, k);
    if CallOf(e) == Some(k) { Promotes(failOpen, AccountOf(failOpen, log, k).stage, e); }
    WarrantsStay(failOpen, log, e, k);
    WarrantsCome(failOpen, log, e, k);
  }

  lemma Unbroken(failOpen: bool, log: Trace, e: Event, k: nat)
    requires AccountOf(failOpen, On(log, e), k).stage != Broken
    ensures AccountOf(failOpen, log, k).stage != Broken
    ensures e == BodyBegan(k) ==> AccountOf(failOpen, log, k).stage == Clear
  {
    hide AccountOf, NextStage;
    StageMoves(failOpen, log, e, k);
    if CallOf(e) == Some(k) { Promotes(failOpen, AccountOf(failOpen, log, k).stage, e); }
  }

  lemma {:induction false} WarrantedByStage(failOpen: bool, log: Trace, k: nat)
    requires AccountOf(failOpen, log, k).stage != Broken
    ensures Warranted(failOpen, log, k, AccountOf(failOpen, log, k).stage)
    decreases log
  {
    hide AccountOf, Warranted;
    match log
    case Silence => SilentlyWarranted(failOpen, k);
    case On(past, e) =>
      Unbroken(failOpen, past, e, k);
      WarrantedByStage(failOpen, past, k);
      WarrantStep(failOpen, past, e, k);
  }

  lemma SilentlyWarranted(failOpen: bool, k: nat)
    ensures Warranted(failOpen, Silence, k, AccountOf(failOpen, Silence, k).stage)
  {
    hide ControlWarrant, BudgetWarrant, PolicyWarrant, DrainWarrant;
  }

  /** Nothing of call `k` was out of order at any earlier point either. */
  lemma {:induction false} UnbrokenBefore(failOpen: bool, log: Trace, past: Trace, k: nat)
    requires AccountOf(failOpen, log, k).stage != Broken && Extends(log, past)
    ensures AccountOf(failOpen, past, k).stage != Broken
    decreases log
  {
    hide AccountOf;
    if log != past {
      Unbroken(failOpen, log.past, log.event, k);
      UnbrokenBefore(failOpen, log.past, past, k);
    }
  }

  /** In every run, by the time a body begins, the control plane has said that the
      call is neither paused nor killed, then the pre-flight has let it proceed,
      then the policy gate has, and then no stashed decision was waiting. */
  lemma BodyOnlyIfPermitted(failOpen: bool, log: Trace, past: Trace, k: nat)
    requires Lawful(failOpen, log) && Extends(log, On(past, BodyBegan(k)))
    ensures DrainWarrant(failOpen, past, k)
  {
    hide AccountOf, DrainWarrant, ControlWarrant, BudgetWarrant, PolicyWarrant;
    assert Settled(AccountOf(failOpen, log, k));
    UnbrokenBefore(failOpen, log, On(past, BodyBegan(k)), k);
    Unbroken(failOpen, past, BodyBegan(k), k);
    WarrantedByStage(failOpen, past, k);
  }

  // ------------------------------------------------------------- one span_end

  ghost function SpanEnds(log: Trace, k: nat): nat {
    match log
    case Silence => 0
    case On(past, e) => SpanEnds(past, k) + if e.SpanEnded? && e.call == k then 1 else 0
  }

  lemma {:induction false} EndsCounted(failOpen: bool, log: Trace, k: nat)
    ensures AccountOf(failOpen, log, k).ends == SpanEnds(log, k)
    decreases log
  {
    hide HashedBytes, NextStage, WellBound, CallImpact;
    if log.On? { EndsCounted(failOpen, log.past, k); }
  }

  /** A call that entered stays in view, and so does its envelope. */
  lemma {:induction false} EntryKept(failOpen: bool, log: Trace, k: nat, c: Call)
    requires Happened(log, Entered(k, c)) && AccountOf(failOpen, log, k).stage != Broken
    ensures var a := AccountOf(failOpen, log, k);
            a.stage != Unseen && a.stage != Bare && a.envelope == Some(CallImpact(c))
    decreases log
  {
    hide HashedBytes, BudgetPermits, ControlPermits, PolicyPermits, CallImpact, WellBound, Agrees;
    Moves(failOpen, log.past, log.event);
    if log.event != Entered(k, c) { EntryKept(failOpen, log.past, k, c); }
  }

  /** A call that entered emits exactly one span_end, whatever happened to it. */
  lemma OneSpanEnd(failOpen: bool, log: Trace, k: nat, c: Call)
    requires Lawful(failOpen, log) && Happened(log, Entered(k, c))
    ensures SpanEnds(log, k) == 1
  {
    hide AccountOf;
    assert Settled(AccountOf(failOpen, log, k));
    EntryKept(failOpen, log, k, c);
    EndsCounted(failOpen, log, k);
  }

  // ------------------------------------------------------------- one identity

  /** The account keeps what was told, and agreement means all of it is one. */
  lemma {:induction false} ToldAlike(failOpen: bool, log: Trace, k: nat, e: Event)
    requires AccountOf(failOpen, log, k).agrees && Happened(log, e) && (e.GateSent? || e.ExecuteSent?) && e.call == k
    ensures WellBound(e.identity)
    ensures var a := AccountOf(failOpen, log, k);
            if e.GateSent? then a.gated == Some(e.identity) && (a.named.Some? ==> a.named == a.gated)
            else a.named == Some(e.identity) && (a.gated.Some? ==> a.named == a.gated)
    decreases log
  {
    hide HashedBytes, BudgetPermits, ControlPermits, PolicyPermits, NextStage, WellBound;
    Moves(failOpen, log.past, log.event);
    if log.event != e { ToldAlike(failOpen, log.past, k, e); }
    else if CallOf(log.event) == Some(k) { ToldBoth(failOpen, log.past, k); }
  }

  lemma {:induction false} ToldBoth(failOpen: bool, log: Trace, k: nat)
    requires AccountOf(failOpen, log, k).agrees
    ensures var a := AccountOf(failOpen, log, k); a.gated.Some? && a.named.Some? ==> a.gated == a.named
    decreases log
  {
    hide HashedBytes, BudgetPermits, ControlPermits, PolicyPermits, NextStage, WellBound;
    if log.On? {
      Moves(failOpen, log.past, log.event);
      ToldBoth(failOpen, log.past, k);
    }
  }

  /** What was told is told under the envelope of the call, and nothing before it. */
  predicate UnderEnvelope(a: Account) {
    && (a.stage == Unseen ==> a.gated.None? && a.named.None?)
    && (a.gated.Some? && a.envelope.Some? ==> a.gated.value.impact == a.envelope)
    && (a.named.Some? && a.envelope.Some? ==> a.named.value.impact == a.envelope)
  }

  lemma AdvanceUnder(failOpen: bool, a: Account, e: Event)
    requires var b := Advance(failOpen, a, e); b.agrees && b.stage != Broken
    requires a.agrees && a.stage != Broken ==> UnderEnvelope(a)
    ensures UnderEnvelope(Advance(failOpen, a, e))
  {
    hide HashedBytes, BudgetPermits, ControlPermits, PolicyPermits, CallImpact, WellBound;
  }

  lemma {:induction false} ToldEnvelope(failOpen: bool, log: Trace, k: nat)
    requires AccountOf(failOpen, log, k).agrees && AccountOf(failOpen, log, k).stage != Broken
    ensures UnderEnvelope(AccountOf(failOpen, log, k))
    decreases log
  {
    hide Advance, UnderEnvelope;
    if log.On? {
      Moves(failOpen, log.past, log.event);
      var before := AccountOf(failOpen, log.past, k);
      if before.agrees && before.stage != Broken { ToldEnvelope(failOpen, log.past, k); }
      if CallOf(log.event) == Some(k) { AdvanceUnder(failOpen, before, log.event); }
    } else {
      assert UnderEnvelope(NOTHING) by { NothingUnder(); }
    }
  }

  lemma NothingUnder()
    ensures UnderEnvelope(NOTHING)
  {
  }

  /** The first /gate, the first /execute and the one after an approval carry one
      operation id, one envelope and one digest, taken over that envelope, and it
      is the envelope of the call: its name and its arguments. */
  lemma OneIdentity(failOpen: bool, log: Trace, k: nat, c: Call, d: Event, e: Event)
    requires Lawful(failOpen, log) && Happened(log, Entered(k, c)) && Happened(log, d) && Happened(log, e)
    requires (d.GateSent? || d.ExecuteSent?) && (e.GateSent? || e.ExecuteSent?) && d.call == k == e.call
    ensures d.identity == e.identity && WellBound(e.identity) && e.identity.impact == Some(CallImpact(c))
  {
    hide AccountOf, WellBound, CallImpact;
    assert Settled(AccountOf(failOpen, log, k));
    ToldAlike(failOpen, log, k, d);
    ToldAlike(failOpen, log, k, e);
    ToldBoth(failOpen, log, k);
    EntryKept(failOpen, log, k, c);
    ToldEnvelope(failOpen, log, k);
  }

  lemma EnvelopeHashes(c: Call)
    ensures HashedBytes(CallImpact(c)).Ok?
  {
    assert Validate(NoImpact).None?;
  }

  /** Two requests, of any two calls in any run, hash the same bytes exactly when
      the calls' envelopes are the same action: same function, same arguments up to
      the order of keys. */
  lemma DigestsBindCalls(failOpen: bool, log: Trace, b: Call, c: Call, d: Event, e: Event)
    requires Lawful(failOpen, log)
    requires (d.GateSent? || d.ExecuteSent?) && Happened(log, d) && Happened(log, Entered(d.call, b))
    requires (e.GateSent? || e.ExecuteSent?) && Happened(log, e) && Happened(log, Entered(e.call, c))
    requires IsImpact(CallImpact(b)) && IsImpact(CallImpact(c))
    ensures d.identity.hashed == e.identity.hashed <==> SameAction(CallImpact(b), CallImpact(c))
  {
    hide Lawful, CallImpact, HashedBytes, SameAction, IsImpact;
    OneIdentity(failOpen, log, d.call, b, d, d);
    OneIdentity(failOpen, log, e.call, c, e, e);
    EnvelopeHashes(b);
    EnvelopeHashes(c);
    HashedBytesBindAction(CallImpact(b), CallImpact(c));
  }

  lemma {:induction false} TellsInOps(log: Trace, k: nat, identity: Identity)
    requires Happened(log, GateSent(k, identity))
    ensures identity.operationId in GateOps(log)
    decreases log
  {
    if log.event != GateSent(k, identity) { TellsInOps(log.past, k, identity); }
  }

  lemma {:induction false} DistinctApart(log: Trace, j: nat, k: nat, a: Identity, b: Identity)
    requires DistinctOps(log) && Happened(log, GateSent(j, a)) && Happened(log, GateSent(k, b)) && j != k
    ensures a.operationId != b.operationId
    decreases log
  {
    if log.event == GateSent(j, a) { TellsInOps(log.past, k, b); }
    else if log.event == GateSent(k, b) { TellsInOps(log.past, j, a); }
    else { DistinctApart(log.past, j, k, a, b); }
  }

  /** Two calls that reach /gate, nested or not, share no operation id. */
  lemma IdentitiesApart(failOpen: bool, log: Trace, j: nat, k: nat, a: Identity, b: Identity)
    requires Lawful(failOpen, log) && Happened(log, GateSent(j, a)) && Happened(log, GateSent(k, b)) && j != k
    ensures a.operationId != b.operationId
  {
    DistinctApart(log, j, k, a, b);
  }

  // ----------------------------------------------------------------- the stash

  /** Stashed decisions are raised first in, first out, each at most once: those
      raised and those still waiting are those stashed. */
  lemma StashConserved(env: Settings, p: Program)
    ensures var end := Eval(env, p, START).state; RaisedFrom(end.log) + end.stash == StashedIn(end.log)
  {
    hide Eval;
    Starts(env.failOpen);
    EverOrderly(env, p, START);
  }

  // ---------------------------------------------------- what does not hold

  /** A call killed before /gate cancels whatever execution an earlier call left
      in the variable, in every state. */
  lemma KilledCancelsEarlier(env: Settings, c: Call, body: Program, s: State)
    requires c.sync && c.control == KilledState && HasWorkflow(env, s.context) && s.minted.Some?
    ensures Happened(Eval(env, Protect(c, body), s).state.log, CancelSent(s.next, s.minted.value))
  {
    hide CallImpact;
    ProtectMeans(env, c, body, s);
    var gates := Gates(env, Enter(s, c), s.next, c, NextSpan(s));
    assert gates.raised == Some(Killed) && gates.state.minted == s.minted;
  }

  function Allow(x: Execution): Verdict {
    Verdict("allow", "gateway", Some(x), None, WaitUnclear, Budget)
  }

  function Plain(control: ControlState, x: Execution): Call {
    var policy := Policy(ExecuteAnswers(Allow(x)), ExecuteFails(Transport("NR-B001")));
    Call("f", [], true, control, GateAnswers(false, Allow(x)), policy, None)
  }

  lemma PlainGates(env: Settings, s: State, x: Execution)
    requires HasWorkflow(env, s.context) && s.stash == []
    ensures var c := Plain(Normal, x);
            var gates := Gates(env, Enter(s, c), s.next, c, NextSpan(s));
            && gates.raised.None? && gates.state.minted == Some(x) && gates.state.stash == []
            && gates.state.context.workflowId == s.context.workflowId
  {
    hide CallImpact, IdentityOf;
    var c := Plain(Normal, x);
    var entered, span := Enter(s, c), NextSpan(s);
    var control := CheckControl(env, entered, s.next, Normal).state;
    assert control.context == entered.context && control.stash == [];
    var budget := CheckBudget(env, control, s.next, c.gate);
    assert budget.raised.None? && budget.state.stash == [];
    var policy := CheckPolicy(env, Log(budget.state, SpanStarted(s.next, span)), s.next, c.policy);
    assert policy.raised.None? && policy.state.stash == [] && policy.state.minted == Some(x);
  }

  /** A plain call, anywhere, comes through its gates and leaves its execution in
      the variable. */
  ghost predicate Began(env: Settings, s: State, x: Execution, began: State) {
    && Around(env.failOpen, began, s)
    && began.minted == Some(x) && began.stash == [] && began.context.workflowId == s.context.workflowId
    && var a := AccountOf(env.failOpen, began.log, s.next); Passing(a, began, s.minted) && a.stage == Body
  }

  function BeginsAt(env: Settings, s: State, x: Execution): State {
    var c := Plain(Normal, x);
    Log(Gates(env, Enter(s, c), s.next, c, NextSpan(s)).state, BodyBegan(s.next))
  }

  lemma PlainBegins(env: Settings, s: State, x: Execution)
    requires Ready(env.failOpen, s) && HasWorkflow(env, s.context) && s.stash == []
    ensures Began(env, s, x, BeginsAt(env, s, x))
  {
    hide AccountOf, Ready, Gates, Enter, NextSpan, SameBefore, Settled;
    BodyStep(env, s, Plain(Normal, x));
    PlainGates(env, s, x);
  }

  lemma PlainMeans(env: Settings, s: State, x: Execution, body: Program)
    requires HasWorkflow(env, s.context) && s.stash == []
    ensures Eval(env, Protect(Plain(Normal, x), body), s)
            == Close(Eval(env, body, BeginsAt(env, s, x)), s.next, Plain(Normal, x), s.context, NextSpan(s))
  {
    hide Gates, Enter, NextSpan, Close, Eval;
    PlainGates(env, s, x);
    ProtectMeans(env, Plain(Normal, x), body, s);
  }

  /** What a plain call with nothing to do leaves. */
  ghost predicate Returned(env: Settings, s: State, x: Execution, r: Result) {
    && r.raised.None? && r.state.minted == Some(x)
    && var a := AccountOf(env.failOpen, r.state.log, s.next); a.completed && HoldsLast(a, Some(x), s.minted)
  }

  lemma PlainRuns(env: Settings, s: State, x: Execution)
    requires Ready(env.failOpen, s) && HasWorkflow(env, s.context) && s.stash == []
    ensures Returned(env, s, x, Eval(env, Protect(Plain(Normal, x), Skip), s))
  {
    hide AccountOf, Eval, Close, Ready, NextSpan, BeginsAt, SameBefore, Settled;
    var c, began := Plain(Normal, x), BeginsAt(env, s, x);
    PlainBegins(env, s, x);
    PlainMeans(env, s, x, Skip);
    SkipMeans(env, began);
    CloseReturns(env.failOpen, Fine(began), s, c, NextSpan(s));
  }

  lemma SkipMeans(env: Settings, s: State)
    ensures Eval(env, Skip, s) == Fine(s)
  {
  }

  lemma CloseReturns(failOpen: bool, ran: Result, s: State, c: Call, span: SpanContext)
    requires ran.raised.None? && c.trackFails.None? && Around(failOpen, ran.state, s)
    requires var a := AccountOf(failOpen, ran.state.log, s.next); Passing(a, ran.state, s.minted) && a.stage == Body
    ensures var t := Close(ran, s.next, c, s.context, span);
            && t.raised.None? && t.state.minted == ran.state.minted
            && var a := AccountOf(failOpen, t.state.log, s.next);
               a.completed && HoldsLast(a, ran.state.minted, s.minted)
  {
    hide Ready, AccountOf, HashedBytes, Finish;
    var done := AfterBody(ran.state, s.next, c);
    Keeps(failOpen, ran.state, BodyCompleted(s.next));
    FinishStep(failOpen, done, s.next, c, s.context, span, true);
    FinishHolds(done, s.next, c, s.context, span, true);
    FinishReturns(done, s.next, c, s.context, span);
  }

  lemma FinishReturns(r: Result, k: nat, c: Call, outer: Context, span: SpanContext)
    ensures Finish(r, k, c, outer, span, true).raised.None? <==> r.raised.None?
  {
  }

  /** So the documented no-op is not one: a call that returned long ago has its
      execution cancelled by a later call that never reached /gate. */
  lemma CompletedCallCancelled(env: Settings, x: Execution, y: Execution)
    requires HasWorkflow(env, NO_CONTEXT)
    ensures var returned := Eval(env, Protect(Plain(Normal, x), Skip), START).state;
            && AccountOf(env.failOpen, returned.log, 0).completed
            && Happened(Eval(env, Protect(Plain(KilledState, y), Skip), returned).state.log,
                        CancelSent(returned.next, x))
  {
    hide Eval, AccountOf, Ready;
    Starts(env.failOpen);
    PlainRuns(env, START, x);
    Restored(env, Protect(Plain(Normal, x), Skip), START);
    KilledCancelsEarlier(env, Plain(KilledState, y), Skip, Eval(env, Protect(Plain(Normal, x), Skip), START).state);
  }

  /** The outer call of a nested pair, its own body failing after the inner call. */
  function Nested(x: Execution, y: Execution): Program {
    Protect(Plain(Normal, x), Both(Protect(Plain(Normal, y), Skip), Raise(UserError(0))))
  }

  /** A nested call returns, the outer body then raises: the outer call cancels the
      execution of the inner one, which completed, and not its own. */
  lemma NestedCancelled(env: Settings, x: Execution, y: Execution) returns (inner: nat)
    requires HasWorkflow(env, NO_CONTEXT) && x != y
    ensures var log := Eval(env, Nested(x, y), START).state.log;
            var a, b := AccountOf(env.failOpen, log, 0), AccountOf(env.failOpen, log, inner);
            && inner != 0
            && b.completed && b.captured == Some(Some(y))
            && !a.completed && a.captured == Some(Some(x)) && a.cancelled == Some(y)
  {
    hide Eval, AccountOf, Ready, Close, NextSpan, BeginsAt, SameBefore, Settled;
    var body := Both(Protect(Plain(Normal, y), Skip), Raise(UserError(0)));
    var began := BeginsAt(env, START, x);
    inner := began.next;
    Starts(env.failOpen);
    PlainBegins(env, START, x);
    PlainMeans(env, START, x, body);
    PlainRuns(env, began, y);
    var first := Eval(env, Protect(Plain(Normal, y), Skip), began);
    ThenRaises(env, body.first, UserError(0), began);
    EverOrderly(env, body.first, began);
    AroundRuns(env.failOpen, first.state, began, START);
    CloseFails(env.failOpen, Fails(first.state, UserError(0)), START, Plain(Normal, x), NextSpan(START));
  }

  lemma ThenRaises(env: Settings, p: Program, e: Exn, s: State)
    requires Eval(env, p, s).raised.None?
    ensures Eval(env, Both(p, Raise(e)), s) == Fails(Eval(env, p, s).state, e)
  {
    assert Eval(env, Raise(e), Eval(env, p, s).state) == Fails(Eval(env, p, s).state, e);
  }

  lemma CloseFails(failOpen: bool, ran: Result, s: State, c: Call, span: SpanContext)
    requires Cancels(c, false, ran.raised) && ran.state.minted.Some? && Around(failOpen, ran.state, s)
    requires var a := AccountOf(failOpen, ran.state.log, s.next);
             !a.completed && a.ends == 0 && a.cancelled.None? && a.stage == Body
    ensures var t := Close(ran, s.next, c, s.context, span).state;
            && OnlyCall(failOpen, s.next, t, ran.state)
            && var a := AccountOf(failOpen, t.log, s.next);
               && a.cancelled == ran.state.minted && !a.completed
               && a.captured == AccountOf(failOpen, ran.state.log, s.next).captured
  {
    hide Ready, AccountOf, HashedBytes, Finish;
    FinishStep(failOpen, ran, s.next, c, s.context, span, false);
  }

  /** A call whose pre-flight the environment skips mints nothing: it tells
      /execute the operation id, and the execution, an earlier call left. */
  lemma BypassedCallReuses(env: Settings, c: Call, s: State)
    requires c.control == Normal && c.gate == Bypassed(false) && s.operationId.Some?
    ensures Happened(Gates(env, Enter(s, c), s.next, c, NextSpan(s)).state.log,
                     ExecuteSent(s.next, IdentityOf(s.operationId.value, Some(CallImpact(c))),
                                 FirstRequest(Enter(s, c))))
  {
    hide CallImpact, IdentityOf, Happened;
    var entered, span := Enter(s, c), NextSpan(s);
    var e := ExecuteSent(s.next, IdentityOf(s.operationId.value, Some(CallImpact(c))), FirstRequest(entered));
    var control := CheckControl(env, entered, s.next, Normal);
    var budget := CheckBudget(env, control.state, s.next, c.gate);
    assert budget.raised.None? && budget.state.operationId == s.operationId && budget.state.context == entered.context;
    assert budget.state.minted == entered.minted;
    var started := Log(budget.state, SpanStarted(s.next, span));
    OperationIds.PolicyTells(env, started, s.next, c.policy);
    var policy := CheckPolicy(env, started, s.next, c.policy);
    OperationIds.DrainKeeps(policy.state, s.next, e);
  }
}
