/** Which operation id each protected call tells the backend, over whole runs. */
module OperationIds {
  import opened BusinessImpacts
  import opened Options
  import opened Programs
  import opened Scopes

  /** The requests that carry an operation id. */
  predicate Tells(e: Event) {
    e.GateSent? || e.ExecuteSent?
  }

  ghost function ToldOps(log: Trace): set<Id> {
    match log
    case Silence => {}
    case On(past, e) => ToldOps(past) + if Tells(e) then {e.identity.operationId} else {}
  }

  /** The ids told by calls other than `k`. */
  ghost function OthersOps(log: Trace, k: nat): set<Id> {
    match log
    case Silence => {}
    case On(past, e) => OthersOps(past, k) + if Tells(e) && e.call != k then {e.identity.operationId} else {}
  }

  /** The environment made call `k` skip its pre-flight. */
  ghost predicate Skipped(log: Trace, k: nat) {
    log.On? && ((log.event.BudgetAsked? && log.event.call == k && log.event.answer.Bypassed?) || Skipped(log.past, k))
  }

  /** What is told to /gate was never told before; what is told to /execute was
      never told by another call, unless this one skipped its pre-flight. */
  ghost predicate OpsSound(log: Trace) {
    log.On? ==>
      && OpsSound(log.past)
      && (log.event.GateSent? ==> log.event.identity.operationId !in ToldOps(log.past))
      && (log.event.ExecuteSent? ==>
            log.event.identity.operationId !in OthersOps(log.past, log.event.call) || Skipped(log.past, log.event.call))
  }

  predicate Older(op: Id, next: nat) {
    op.Minted? && op.n < next
  }

  /** Every id told or held was minted before. */
  ghost predicate IdsSound(s: State) {
    && OpsSound(s.log)
    && (forall op :: op in ToldOps(s.log) ==> Older(op, s.next))
    && (s.operationId.Some? ==> Older(s.operationId.value, s.next))
  }

  /** Call `k` holds an id of its own, or has skipped the pre-flight. */
  ghost predicate OwnsId(s: State, k: nat) {
    Skipped(s.log, k) || (s.operationId.Some? && s.operationId.value !in OthersOps(s.log, k))
  }

  lemma {:induction false} OthersAmongTold(log: Trace, k: nat)
    ensures OthersOps(log, k) <= ToldOps(log)
    decreases log
  {
    if log.On? { OthersAmongTold(log.past, k); }
  }

  /** An event that carries no id. */
  lemma Quietly(s: State, e: Event, k: nat)
    requires IdsSound(s) && !Tells(e)
    ensures IdsSound(Log(s, e)) && (OwnsId(s, k) ==> OwnsId(Log(s, e), k))
  {
    assert ToldOps(On(s.log, e)) == ToldOps(s.log) && OthersOps(On(s.log, e), k) == OthersOps(s.log, k);
  }

  lemma Mints(s: State, k: nat)
    requires IdsSound(s)
    ensures IdsSound(MintOperation(s)) && OwnsId(MintOperation(s), k)
  {
    OthersAmongTold(s.log, k);
  }

  /** A call that has just minted tells /gate. */
  lemma TellsGate(s: State, k: nat, identity: Identity)
    requires IdsSound(s) && identity.operationId == Minted(s.next)
    ensures var t := Log(MintOperation(s), GateSent(k, identity)); IdsSound(t) && OwnsId(t, k)
  {
    OthersAmongTold(s.log, k);
    assert OthersOps(On(s.log, GateSent(k, identity)), k) == OthersOps(s.log, k);
  }

  lemma TellsExecute(s: State, k: nat, identity: Identity, request: Request)
    requires IdsSound(s) && OwnsId(s, k) && s.operationId == Some(identity.operationId)
    ensures var t := Log(s, ExecuteSent(k, identity, request)); IdsSound(t) && OwnsId(t, k)
  {
    assert OthersOps(On(s.log, ExecuteSent(k, identity, request)), k) == OthersOps(s.log, k);
  }

  /** Changing anything but the log and the held id, ids set aside included. */
  lemma Otherwise(s: State, t: State, k: nat)
    requires IdsSound(s) && t.log == s.log && t.operationId == s.operationId && t.next >= s.next
    ensures IdsSound(t) && (OwnsId(s, k) ==> OwnsId(t, k))
  {
  }

  lemma AskIds(s: State, k: nat, answer: GateAnswer)
    requires IdsSound(s) && !answer.Bypassed?
    ensures var t := AskGate(s, k, answer).state; IdsSound(t) && OwnsId(t, k) && t.next >= s.next
  {
    hide IdsSound, OwnsId, GateDecision, IdentityOf;
    var identity := IdentityOf(Minted(s.next), s.context.callImpact);
    IdentityIs(Minted(s.next), s.context.callImpact);
    Mints(s, k);
    TellsGate(s, k, identity);
    if answer.GateAnswers? {
      var v := answer.verdict;
      var sent := Log(MintOperation(s), GateSent(k, identity));
      var from := if answer.cached && s.context.chainId.Some? then MintOperation(s) else sent;
      Otherwise(from, from.(minted := v.reservation), k);
      Quietly(from.(minted := v.reservation), Captured(k, v.reservation), k);
      DecisionKeeps(Log(from.(minted := v.reservation), Captured(k, v.reservation)), v);
    }
  }

  lemma IdentityIs(op: Id, impact: Option<Impact>)
    ensures IdentityOf(op, impact).operationId == op
  {
    hide HashedBytes;
  }

  lemma DecisionKeeps(s: State, v: Verdict)
    ensures GateDecision(s, v).state == s
  {
  }

  lemma BudgetIds(env: Settings, s: State, k: nat, answer: GateAnswer)
    requires IdsSound(s)
    ensures var t := CheckBudget(env, s, k, answer).state; IdsSound(t) && OwnsId(t, k) && t.next >= s.next
  {
    hide IdsSound, AskGate;
    var e := BudgetAsked(k, HasWorkflow(env, s.context), answer);
    Quietly(s, e, k);
    if !answer.Bypassed? {
      Mints(Log(s, e), k);
      if HasWorkflow(env, s.context) { AskIds(Log(s, e), k, answer); }
    }
  }

  lemma NamingOwns(s: State, k: nat)
    requires IdsSound(s) && OwnsId(s, k)
    ensures IdsSound(Naming(s)) && OwnsId(Naming(s), k)
    ensures Naming(s).operationId == Some(ExecuteIdentity(s).operationId)
  {
    hide HashedBytes;
  }

  lemma PolicyIds(env: Settings, s: State, k: nat, policy: Policy)
    requires IdsSound(s) && OwnsId(s, k)
    ensures var t := CheckPolicy(env, s, k, policy).state; IdsSound(t) && t.next >= s.next
  {
    hide IdsSound, OwnsId, ExecuteIdentity, Recheck, Settle, Caught;
    AnswersKeep(env, policy);
    Quietly(s, PolicyAsked(k, policy), k);
    var asked := Log(s, PolicyAsked(k, policy));
    NamingOwns(asked, k);
    var named, identity := Naming(asked), ExecuteIdentity(asked);
    TellsExecute(named, k, identity, FirstRequest(s));
    if policy.first.ExecuteAnswers? {
      var v := policy.first.verdict;
      var sent := Log(named, ExecuteSent(k, identity, FirstRequest(s)));
      Otherwise(sent, sent.(minted := v.reservation), k);
      Quietly(sent.(minted := v.reservation), Captured(k, v.reservation), k);
      var answered := Log(sent.(minted := v.reservation), Captured(k, v.reservation));
      TellsExecute(answered, k, identity, Again(FirstRequest(s), v));
    }
  }

  lemma AnswersKeep(env: Settings, policy: Policy)
    ensures forall s, v :: Settle(env, s, v).state == s
    ensures forall s :: Recheck(env, s, policy.second).state == s
    ensures forall s, e :: Caught(env, s, e).state == s
  {
  }

  lemma GatesIds(env: Settings, s: State, k: nat, c: Call, span: SpanContext)
    requires IdsSound(s)
    ensures var t := Gates(env, s, k, c, span).state; IdsSound(t) && t.next >= s.next
  {
    hide IdsSound, OwnsId, CheckBudget, CheckPolicy;
    Quietly(s, ControlAsked(k, HasWorkflow(env, s.context), c.control), k);
    var control := CheckControl(env, s, k, c.control).state;
    BudgetIds(env, control, k, c.gate);
    var budget := CheckBudget(env, control, k, c.gate).state;
    Quietly(budget, SpanStarted(k, span), k);
    PolicyIds(env, Log(budget, SpanStarted(k, span)), k, c.policy);
    var policy := CheckPolicy(env, Log(budget, SpanStarted(k, span)), k, c.policy).state;
    Quietly(policy, Drained(k, None), k);
    if policy.stash != [] {
      Otherwise(policy, policy.(stash := policy.stash[1..]), k);
      Quietly(policy.(stash := policy.stash[1..]), Drained(k, Some(policy.stash[0])), k);
    }
  }

  lemma FinishIds(r: Result, k: nat, c: Call, outer: Context, span: SpanContext, completed: bool)
    requires IdsSound(r.state)
    ensures var t := Finish(r, k, c, outer, span, completed).state; IdsSound(t) && t.next == r.state.next
  {
    hide IdsSound;
    var left := Leave(r.state, k, outer, span, r.raised.Some?);
    Otherwise(r.state, r.state.(context := left.context), k);
    Quietly(r.state.(context := left.context), SpanEnded(k, span, r.raised.Some?), k);
    if left.minted.Some? { Quietly(left, CancelSent(k, left.minted.value), k); }
  }

  lemma EnterIds(s: State, c: Call)
    requires IdsSound(s)
    ensures IdsSound(Enter(s, c)) && Enter(s, c).next >= s.next
  {
    hide IdsSound, CallImpact, NextSpan;
    var t, span := Enter(s, c), NextSpan(s);
    var taken := s.(context := t.context, next := s.next + 3);
    Otherwise(s, taken, 0);
    Quietly(taken, Opened(span), 0);
    Quietly(Log(taken, Opened(span)), Entered(s.next, c), 0);
  }

  lemma ProtectIds(env: Settings, c: Call, body: Program, s: State)
    requires IdsSound(s)
    ensures var t := Eval(env, Protect(c, body), s).state; IdsSound(t) && t.next >= s.next
    decreases Protect(c, body), 0
  {
    hide IdsSound, Gates, Enter, NextSpan, Finish, Eval;
    ProtectMeans(env, c, body, s);
    EnterIds(s, c);
    var k, span := s.next, NextSpan(s);
    GatesIds(env, Enter(s, c), k, c, span);
    var gates := Gates(env, Enter(s, c), k, c, span);
    FinishIds(gates, k, c, s.context, span, false);
    Quietly(gates.state, BodyBegan(k), k);
    IdsKept(env, body, Log(gates.state, BodyBegan(k)));
    var ran := Eval(env, body, Log(gates.state, BodyBegan(k)));
    FinishIds(ran, k, c, s.context, span, false);
    Quietly(ran.state, BodyCompleted(k), k);
    FinishIds(AfterBody(ran.state, k, c), k, c, s.context, span, true);
  }

  /** Every program keeps the ids sound. */
  lemma {:induction false} IdsKept(env: Settings, p: Program, s: State)
    requires IdsSound(s)
    ensures var t := Eval(env, p, s).state; IdsSound(t) && t.next >= s.next
    decreases p, 1
  {
    hide IdsSound, Gates, Finish, Close, CheckBudget, Enter;
    match p
    case Skip =>
    case Raise(_) =>
    case Track => Quietly(s, Tracked(s.context), 0);
    case Both(first, second) =>
      IdsKept(env, first, s);
      IdsKept(env, second, Eval(env, first, s).state);
    case Try(body, bare, handler) =>
      IdsKept(env, body, s);
      IdsKept(env, handler, Eval(env, body, s).state);
    case LlmStart(answer) =>
      var t := s.(next := s.next + 1);
      Otherwise(s, t, 0);
      BudgetIds(env, t, s.next, answer);
      var r := CheckBudget(env, t, s.next, answer);
      if r.raised.Some? {
        var stashed := r.state.(stash := r.state.stash + [r.raised.value]);
        Otherwise(r.state, stashed, 0);
        Quietly(stashed, Stashed(r.raised.value), 0);
      }
    case Workflow(name, body) =>
      InWorkflowIds(s, name);
      BlockIds(env, body, InWorkflow(s, name), Eval(env, p, s).state);
    case Span(name, body) =>
      InSpanIds(s, name);
      BlockIds(env, body, InSpan(s, name), Eval(env, p, s).state);
    case Agent(name, body) =>
      Otherwise(s, InAgent(s, name), 0);
      BlockIds(env, body, InAgent(s, name), Eval(env, p, s).state);
    case Attempt(index, body) =>
      Otherwise(s, InAttempt(s, index), 0);
      BlockIds(env, body, InAttempt(s, index), Eval(env, p, s).state);
    case Chain(id, isV4, op, body) =>
      if op in CHAIN_OPS && isV4 {
        Otherwise(s, InChain(s, id, op), 0);
        BlockIds(env, body, InChain(s, id, op), Eval(env, p, s).state);
      }
    case Protect(c, body) => ProtectIds(env, c, body, s);
  }

  lemma BlockIds(env: Settings, body: Program, from: State, t: State)
    requires IdsSound(from)
    requires var u := Eval(env, body, from).state; t == u.(context := t.context)
    ensures IdsSound(t) && t.next >= from.next
    decreases body, 2
  {
    hide IdsSound, Eval;
    IdsKept(env, body, from);
    Otherwise(Eval(env, body, from).state, t, 0);
  }

  lemma InWorkflowIds(s: State, name: Option<string>)
    requires IdsSound(s)
    ensures IdsSound(InWorkflow(s, name))
  {
    hide IdsSound;
    var t := InWorkflow(s, name);
    Otherwise(s, t.(log := s.log), 0);
    Quietly(t.(log := s.log), t.log.event, 0);
  }

  lemma InSpanIds(s: State, name: Option<string>)
    requires IdsSound(s)
    ensures IdsSound(InSpan(s, name))
  {
    hide IdsSound;
    var t := InSpan(s, name);
    Otherwise(s, t.(log := s.log), 0);
    if s.context.current.Some? { Quietly(t.(log := s.log), t.log.event, 0); }
  }

  // ------------------------------------------------------------------- claims

  /** The log of every whole run is sound. */
  lemma EveryRunSound(env: Settings, p: Program)
    ensures OpsSound(Eval(env, p, START).state.log)
  {
    hide Eval;
    IdsKept(env, p, START);
  }

  lemma {:induction false} ToldSomewhere(log: Trace, k: nat, d: Event)
    requires Happened(log, d) && Tells(d)
    ensures d.identity.operationId in ToldOps(log) && (d.call != k ==> d.identity.operationId in OthersOps(log, k))
    decreases log
  {
    if log.event != d { ToldSomewhere(log.past, k, d); }
  }

  lemma {:induction false} SoundBefore(log: Trace, past: Trace)
    requires OpsSound(log) && Extends(log, past)
    ensures OpsSound(past)
    decreases log
  {
    if log != past { SoundBefore(log.past, past); }
  }

  /** In a sound log, two requests of different calls carry one operation id only
      if the later one is an /execute of a call that skipped its pre-flight. */
  lemma SharedOnlyIfSkipped(log: Trace, past: Trace, d: Event, e: Event)
    requires OpsSound(log) && Extends(log, On(past, e)) && Happened(past, d)
    requires Tells(d) && Tells(e) && d.call != e.call && d.identity.operationId == e.identity.operationId
    ensures e.ExecuteSent? && Skipped(past, e.call)
  {
    SoundBefore(log, On(past, e));
    ToldSomewhere(past, e.call, d);
  }

  /** The id a call tells /execute, once its control and budget gates have passed. */
  function ExecuteOp(env: Settings, c: Call, s: State): Id {
    var control := CheckControl(env, Enter(s, c), s.next, c.control);
    var budget := CheckBudget(env, control.state, s.next, c.gate);
    ExecuteIdentity(Log(Log(budget.state, SpanStarted(s.next, NextSpan(s))), PolicyAsked(s.next, c.policy))).operationId
  }

  predicate ReachesExecute(env: Settings, c: Call, s: State) {
    && CheckControl(env, Enter(s, c), s.next, c.control).raised.None?
    && CheckBudget(env, CheckControl(env, Enter(s, c), s.next, c.control).state, s.next, c.gate).raised.None?
  }

  /** A call tells /execute an id held from before exactly when the environment made
      it skip the pre-flight and an id was held; otherwise it tells one minted since
      it entered, also when no workflow is known, the answer is cached or the
      request failed open. */
  lemma OperationIdExactly(env: Settings, c: Call, s: State)
    requires IdsSound(s) && ReachesExecute(env, c, s)
    ensures var op := ExecuteOp(env, c, s);
            && ((s.operationId.Some? && op == s.operationId.value) <==> (c.gate.Bypassed? && s.operationId.Some?))
            && (!(c.gate.Bypassed? && s.operationId.Some?) ==> op.Minted? && op.n >= s.next)
  {
    hide CallImpact, HashedBytes, OpsSound, ToldOps;
    var entered := Enter(s, c);
    var control := CheckControl(env, entered, s.next, c.control).state;
    assert control.operationId == s.operationId && control.next == s.next + 3;
    hide Enter, NextSpan, CheckControl;
    HeldAfterBudget(env, control, s.next, c.gate);
  }

  /** And that is the id the call's first /execute carries, whatever is answered. It
      names the execution the call's own gate answer left or, without an answer,
      whatever an earlier call left; and the call's own name among the tools only if
      no call around it, nor the user, has set them. */
  lemma FirstRequestExactly(env: Settings, c: Call, s: State) returns (identity: Identity, request: Request)
    requires ReachesExecute(env, c, s)
    ensures Happened(Gates(env, Enter(s, c), s.next, c, NextSpan(s)).state.log, ExecuteSent(s.next, identity, request))
    ensures identity.operationId == ExecuteOp(env, c, s)
    ensures request.execution
            == if c.gate.GateAnswers? && HasWorkflow(env, s.context) then c.gate.verdict.reservation else s.minted
    ensures request.tools == (if s.context.callTools == [] then [c.name] else s.context.callTools)
    ensures request.approvalId.None?
  {
    EntersWith(env, c, s);
    hide Enter, NextSpan, CheckControl, CheckBudget, Happened, ExecuteIdentity;
    var control := CheckControl(env, Enter(s, c), s.next, c.control);
    var budget := CheckBudget(env, control.state, s.next, c.gate);
    MintedAfterBudget(env, control.state, s.next, c.gate);
    var started := Log(budget.state, SpanStarted(s.next, NextSpan(s)));
    identity, request := ExecuteIdentity(Log(started, PolicyAsked(s.next, c.policy))), FirstRequest(started);
    PolicyTells(env, started, s.next, c.policy);
    DrainKeeps(CheckPolicy(env, started, s.next, c.policy).state, s.next, ExecuteSent(s.next, identity, request));
  }

  lemma EntersWith(env: Settings, c: Call, s: State)
    ensures var t := CheckControl(env, Enter(s, c), s.next, c.control).state;
            && t.minted == s.minted && HasWorkflow(env, t.context) == HasWorkflow(env, s.context)
            && t.context.callTools == if s.context.callTools == [] then [c.name] else s.context.callTools
  {
    hide CallImpact, NextSpan;
  }

  lemma MintedAfterBudget(env: Settings, s: State, k: nat, answer: GateAnswer)
    ensures var t := CheckBudget(env, s, k, answer).state;
            && t.minted == (if answer.GateAnswers? && HasWorkflow(env, s.context) then answer.verdict.reservation
                            else s.minted)
            && t.context == s.context
  {
    hide IdentityOf;
  }

  /** After an approval the same request goes out again, with the approval's id and
      the execution of the first answer, or of the first request if it had none. */
  lemma SecondRequestExactly(env: Settings, s: State, k: nat, policy: Policy)
    requires policy.first.ExecuteAnswers? && policy.first.verdict.decision == "require_approval"
    requires policy.first.verdict.approvalId.Some? && policy.first.verdict.approvalId.value != ""
    requires policy.first.verdict.wait == WaitApproved
    ensures var v := policy.first.verdict;
            var execution := if v.reservation.Some? then v.reservation else s.minted;
            Happened(CheckPolicy(env, s, k, policy).state.log,
                     ExecuteSent(k, ExecuteIdentity(Log(s, PolicyAsked(k, policy))),
                                 Request(execution, s.context.callTools, v.approvalId)))
  {
    hide ExecuteIdentity, Recheck;
    AnswersKeep(env, policy);
  }

  lemma PolicyTells(env: Settings, s: State, k: nat, policy: Policy)
    ensures var identity := ExecuteIdentity(Log(s, PolicyAsked(k, policy)));
            Happened(CheckPolicy(env, s, k, policy).state.log, ExecuteSent(k, identity, FirstRequest(s)))
  {
    hide ExecuteIdentity;
    AnswersKeep(env, policy);
    var identity := ExecuteIdentity(Log(s, PolicyAsked(k, policy)));
    var sent := On(On(s.log, PolicyAsked(k, policy)), ExecuteSent(k, identity, FirstRequest(s)));
    assert Happened(sent, sent.event);
    if policy.first.ExecuteAnswers? {
      var answered := On(sent, Captured(k, policy.first.verdict.reservation));
      assert Happened(answered, sent.event);
    }
  }

  lemma DrainKeeps(s: State, k: nat, e: Event)
    requires Happened(s.log, e)
    ensures Happened(Drain(s, k).state.log, e)
  {
  }

  lemma HeldAfterBudget(env: Settings, s: State, k: nat, answer: GateAnswer)
    ensures var t := CheckBudget(env, s, k, answer).state;
            if answer.Bypassed? then t.operationId == s.operationId && t.next == s.next
            else t.operationId == Some(Minted(s.next)) && t.next == s.next + 1
  {
    hide IdentityOf;
  }
}
