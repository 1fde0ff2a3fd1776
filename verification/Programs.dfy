/** Programs over the SDK's context blocks and protected calls, and what running
    one means: the context variables, the telemetry and wire events, the
    exception that comes out. */
module Programs {
  import opened BusinessImpacts
  import opened JsonValues
  import opened Options

  // ------------------------------------------------------------------- values

  /** An identifier is fresh, numbered by the order of minting, or given. */
  datatype Id = Minted(n: nat) | Named(text: string)

  function NameOr(name: Option<string>, n: nat): Id {
    if name.Some? && name.value != "" then Named(name.value) else Minted(n)
  }

  /** A reservation the backend minted; captured only if it parses as a UUID. */
  datatype Execution = Execution(id: string)

  datatype Exn =
    | Killed
    | Paused
    | Budget
    | Refusal(code: string)
    | Transport(code: string)    // unreachable or broken backend, the rate limit and a lost execution apart
    | ValueError
    | TypeError
    | UserError(tag: nat)
    | Interrupt(tag: nat)    // a BaseException that is not an Exception

  predicate IsException(e: Exn) { !e.Interrupt? }

  /** The decisions a callback stashes for the next protected call. */
  predicate IsEnforcement(e: Exn) { e == Killed || e == Paused || e == Budget }

  datatype SpanContext = SpanContext(traceId: Id, spanId: Id, parentSpanId: Option<Id>, depth: nat)

  function RootSpan(n: nat): SpanContext {
    SpanContext(Minted(n), Minted(n + 1), None, 0)
  }

  function ChildSpan(parent: SpanContext, spanId: Id): SpanContext {
    SpanContext(parent.traceId, spanId, Some(parent.spanId), parent.depth + 1)
  }

  /** The context variables that blocks set and restore. */
  datatype Context = Context(
    workflowId: Option<Id>,
    traceId: Option<Id>,
    spanId: Option<Id>,
    agentId: Option<Id>,
    attemptIndex: int,
    chainId: Option<string>,
    chainOp: string,
    current: Option<SpanContext>,
    callTools: seq<string>,
    callImpact: Option<Impact>
  )

  const NO_CONTEXT := Context(None, None, None, None, 0, None, "auto", None, [], None)

  // ------------------------------------------------- what the backend answers

  datatype ControlState = Normal | PausedState | KilledState
  datatype Wait = WaitApproved | WaitDenied | WaitTimeout | WaitUnclear

  /** A decision body. `error` is the exception a block becomes (see `BlockErrors`). */
  datatype Verdict = Verdict(
    decision: string,
    source: string,
    reservation: Option<Execution>,
    approvalId: Option<string>,
    wait: Wait,
    error: Exn
  )

  datatype GateAnswer =
    | Bypassed(refused: bool)             // skipped by environment, or refused in production
    | GateFails(error: Exn)               // credentials, malformed or unclassified refusal
    | GateUnreachable
    | GateAnswers(cached: bool, verdict: Verdict)

  datatype ExecuteAnswer =
    | ExecuteFails(error: Exn)
    | ExecuteAnswers(verdict: Verdict)

  /** The answers to the first and, after an approval, to the second request. */
  datatype Policy = Policy(first: ExecuteAnswer, second: ExecuteAnswer)

  const EXTRACTOR_ID := "nullrun.tool_call.path"
  const EXTRACTOR_VERSION := "1"

  const GATE_DECISIONS := {"allow", "block", "soft_pass", "require_approval", "deny"}
  const GATE_SOURCES := {"gateway", "cached", "fallback", "local", "edge_lease"}
  const SYNTHETIC_SOURCES := {"fallback", "NETWORK_ERROR", "GATEWAY_ERROR", "BREAKER_OPEN"}

  // ----------------------------------------------------------------- programs

  /** One decorated call: the function's name and masked arguments, and what its
      gates and `track_tool` meet. */
  datatype Call = Call(
    name: string,
    params: seq<Entry>,
    sync: bool,
    control: ControlState,
    gate: GateAnswer,
    policy: Policy,
    trackFails: Option<Exn>
  )

  datatype Program =
    | Skip
    | Raise(error: Exn)
    | Both(first: Program, second: Program)
    | Try(body: Program, bare: bool, handler: Program)
    | Track                                              // any user event
    | LlmStart(gate: GateAnswer)                         // framework callback
    | Workflow(name: Option<string>, body: Program)
    | Span(name: Option<string>, body: Program)
    | Agent(name: Option<string>, body: Program)
    | Attempt(index: int, body: Program)
    | Chain(id: string, isV4: bool, op: string, body: Program)
    | Protect(call: Call, body: Program)

  // ------------------------------------------------------------------- events

  /** What an /execute or /gate request says the action is. */
  datatype Identity = Identity(operationId: Id, impact: Option<Impact>, hashed: Bytes)

  /** What else an /execute request carries. Without an execution a fresh id is sent. */
  datatype Request = Request(execution: Option<Execution>, tools: seq<string>, approvalId: Option<string>)

  datatype Event =
    | Tracked(context: Context)
    | Opened(span: SpanContext)
    | Stashed(error: Exn)
    | Entered(call: nat, what: Call)
    | ControlAsked(call: nat, hasWorkflow: bool, state: ControlState)
    | BudgetAsked(call: nat, hasWorkflow: bool, answer: GateAnswer)
    | GateSent(call: nat, identity: Identity)
    | Captured(call: nat, reservation: Option<Execution>)
    | SpanStarted(call: nat, span: SpanContext)
    | PolicyAsked(call: nat, policy: Policy)
    | ExecuteSent(call: nat, identity: Identity, request: Request)
    | Drained(call: nat, found: Option<Exn>)
    | BodyBegan(call: nat)
    | BodyCompleted(call: nat)
    | SpanEnded(call: nat, span: SpanContext, failed: bool)
    | CancelSent(call: nat, execution: Execution)

  /** Newest event outermost. */
  datatype Trace = Silence | On(past: Trace, event: Event)

  // -------------------------------------------------------------------- state

  /** The operation id and the captured reservation live in variables that no
      block restores; the stash belongs to the thread. */
  datatype State = State(
    context: Context,
    operationId: Option<Id>,
    minted: Option<Execution>,
    stash: seq<Exn>,
    next: nat,
    log: Trace
  )

  const START := State(NO_CONTEXT, None, None, [], 0, Silence)

  datatype Result = Result(state: State, raised: Option<Exn>)

  /** `bound` is the workflow the API key is bound to. */
  datatype Settings = Settings(bound: Option<string>, failOpen: bool)

  function Fine(s: State): Result { Result(s, None) }
  function Fails(s: State, e: Exn): Result { Result(s, Some(e)) }
  function Log(s: State, e: Event): State { s.(log := On(s.log, e)) }

  predicate HasWorkflow(env: Settings, c: Context) {
    c.workflowId.Some? || (env.bound.Some? && env.bound.value != "")
  }

  // -------------------------------------------------------------------- gates

  function CheckControl(env: Settings, s: State, k: nat, state: ControlState): Result {
    var asked := Log(s, ControlAsked(k, HasWorkflow(env, s.context), state));
    if !HasWorkflow(env, s.context) then Fine(asked)
    else match state
      case Normal => Fine(asked)
      case PausedState => Fails(asked, Paused)
      case KilledState => Fails(asked, Killed)
  }

  function IdentityOf(operationId: Id, impact: Option<Impact>): Identity {
    Identity(operationId, impact, HashedBytes(if impact.Some? then impact.value else NoImpact))
  }

  /** What a decision body means to the pre-flight. */
  function GateDecision(s: State, v: Verdict): Result {
    if v.source !in GATE_SOURCES || v.decision !in GATE_DECISIONS then Fails(s, Refusal("malformed"))
    else if v.source in SYNTHETIC_SOURCES then Fine(s)
    else if v.decision == "block" then Fails(s, v.error)
    else if v.decision == "soft_pass" then Fine(s)
    else if v.decision == "require_approval" then
      if v.approvalId.None? || v.approvalId.value == "" then Fails(s, Refusal("approval_id missing"))
      else if v.wait == WaitApproved then Fine(s)
      else if v.wait == WaitDenied then Fails(s, Refusal("NR-A011"))
      else Fails(s, Refusal("NR-A012"))
    else if v.decision == "deny" then Fails(s, Refusal("NR-B006"))
    else Fine(s)
  }

  /** Every pre-flight mints an operation id of its own. */
  function MintOperation(s: State): State {
    s.(operationId := Some(Minted(s.next)), next := s.next + 1)
  }

  /** The request to /gate, or the cached answer to an earlier one. */
  function AskGate(s: State, k: nat, answer: GateAnswer): Result
    requires !answer.Bypassed?
  {
    var minted := MintOperation(s);
    var sent := Log(minted, GateSent(k, IdentityOf(Minted(s.next), s.context.callImpact)));
    match answer
    case GateFails(e) => Fails(sent, e)
    case GateUnreachable => Fine(sent)
    case GateAnswers(cached, v) =>
      var from := if cached && s.context.chainId.Some? then minted else sent;
      GateDecision(Log(from.(minted := v.reservation), Captured(k, v.reservation)), v)
  }

  /** `check_workflow_budget`. */
  function CheckBudget(env: Settings, s: State, k: nat, answer: GateAnswer): Result {
    var asked := Log(s, BudgetAsked(k, HasWorkflow(env, s.context), answer));
    if answer.Bypassed? then
      if answer.refused then Fails(asked, Refusal("NR-S001")) else Fine(asked)
    else if !HasWorkflow(env, s.context) then Fine(MintOperation(asked))
    else AskGate(asked, k, answer)
  }

  function PolicyUnavailable(env: Settings, s: State): Result {
    if env.failOpen then Fine(s) else Fails(s, Refusal("policy engine unavailable"))
  }

  /** What the policy gate raises again as it is; a `BaseException` it never sees. */
  predicate Reraised(e: Exn) {
    e.Refusal? || e.Budget? || e.Paused? || e.Interrupt?
  }

  /** Any other exception out of `execute` is unavailability to it. */
  function Caught(env: Settings, s: State, e: Exn): Result {
    if Reraised(e) then Fails(s, e) else PolicyUnavailable(env, s)
  }

  /** An answer that is not `require_approval`: `execute` raises for a block. */
  function Settle(env: Settings, s: State, v: Verdict): Result {
    if v.decision == "block" then Caught(env, s, v.error)
    else if v.source in SYNTHETIC_SOURCES then PolicyUnavailable(env, s)
    else Fine(s)
  }

  function Recheck(env: Settings, s: State, answer: ExecuteAnswer): Result {
    match answer
    case ExecuteFails(e) => Caught(env, s, e)
    case ExecuteAnswers(v) =>
      if v.decision == "require_approval" then Fails(s, Refusal("NR-A015")) else Settle(env, s, v)
  }

  /** `execute` mints an operation id only if no pre-flight has left one. */
  function Naming(s: State): State {
    if s.operationId.Some? then s else s.(operationId := Some(Minted(s.next)), next := s.next + 1)
  }

  function ExecuteIdentity(s: State): Identity {
    var impact := if s.context.callImpact.Some? then s.context.callImpact.value else NoImpact;
    IdentityOf(Naming(s).operationId.value, Some(impact))
  }

  /** The request names the execution the variable holds and the tools in scope. */
  function FirstRequest(s: State): Request {
    Request(s.minted, s.context.callTools, None)
  }

  /** The request after the approval: the same one, but for the execution of the
      answer, if it had one. */
  function Again(first: Request, v: Verdict): Request {
    first.(execution := if v.reservation.Some? then v.reservation else first.execution, approvalId := v.approvalId)
  }

  /** `_run_tool_policy_gate` and the `execute` under it. */
  function CheckPolicy(env: Settings, s: State, k: nat, policy: Policy): Result {
    var asked := Log(s, PolicyAsked(k, policy));
    var named, identity := Naming(asked), ExecuteIdentity(asked);
    var sent := Log(named, ExecuteSent(k, identity, FirstRequest(s)));
    match policy.first
    case ExecuteFails(e) => Caught(env, sent, e)
    case ExecuteAnswers(v) =>
      var answered := Log(sent.(minted := v.reservation), Captured(k, v.reservation));
      if v.decision != "require_approval" then Settle(env, answered, v)
      else if v.approvalId.None? || v.approvalId.value == "" then Fails(answered, Refusal("NR-A004"))
      else if v.wait != WaitApproved then Fails(answered, Refusal("approval not granted"))
      else Recheck(env, Log(answered, ExecuteSent(k, identity, Again(FirstRequest(s), v))), policy.second)
  }

  /** `_raise_deferred_enforcement`: the oldest stashed decision, if any. */
  function Drain(s: State, k: nat): Result {
    if s.stash == [] then Fine(Log(s, Drained(k, None)))
    else Fails(Log(s.(stash := s.stash[1..]), Drained(k, Some(s.stash[0]))), s.stash[0])
  }

  // ---------------------------------------------------------- protected calls

  function NextSpan(s: State): SpanContext {
    match s.context.current
    case None => RootSpan(s.next + 1)
    case Some(parent) => ChildSpan(parent, Minted(s.next + 1))
  }

  /** The envelope of the call, or none that says anything if it cannot be built. */
  function CallImpact(c: Call): Impact {
    var impact := ToolCall(c.name, c.params, EXTRACTOR_ID, EXTRACTOR_VERSION);
    if Validate(impact).None? then impact else NoImpact
  }

  /** The call is numbered by the first fresh id it uses. */
  function Enter(s: State, c: Call): State {
    var span := NextSpan(s);
    var tools := if s.context.callTools == [] then [c.name] else s.context.callTools;
    var context := s.context.(current := Some(span), traceId := Some(span.traceId), spanId := Some(span.spanId),
                              callTools := tools, callImpact := Some(CallImpact(c)));
    Log(Log(s.(context := context, next := s.next + 3), Opened(span)), Entered(s.next, c))
  }

  function Gates(env: Settings, s: State, k: nat, c: Call, span: SpanContext): Result {
    var control := CheckControl(env, s, k, c.control);
    if control.raised.Some? then control
    else
      var budget := CheckBudget(env, control.state, k, c.gate);
      if budget.raised.Some? then budget
      else
        var policy := CheckPolicy(env, Log(budget.state, SpanStarted(k, span)), k, c.policy);
        if policy.raised.Some? then policy else Drain(policy.state, k)
  }

  /** The `finally` of the body: each variable back to what it was. */
  function Leave(s: State, k: nat, outer: Context, span: SpanContext, failed: bool): State {
    var context := s.context.(
      current := outer.current, traceId := outer.traceId, spanId := outer.spanId,
      callTools := if outer.callTools == [] then [] else s.context.callTools,
      callImpact := outer.callImpact);
    Log(s.(context := context), SpanEnded(k, span, failed))
  }

  /** A synchronous caller sees kill and pause as one exception. */
  function Unify(sync: bool, e: Exn): Exn {
    if sync && e == Killed then Refusal("NR-W002")
    else if sync && e == Paused then Refusal("NR-W003")
    else e
  }

  function Cancel(s: State, k: nat): State {
    match s.minted
    case None => s
    case Some(execution) => Log(s, CancelSent(k, execution))
  }

  /** From the gates' or the body's result to the caller's. */
  function Finish(r: Result, k: nat, c: Call, outer: Context, span: SpanContext, completed: bool): Result {
    var left := Leave(r.state, k, outer, span, r.raised.Some?);
    match r.raised
    case None => Fine(left)
    case Some(e) =>
      Fails(if !completed && (c.sync || IsException(e)) then Cancel(left, k) else left, Unify(c.sync, e))
  }

  /** After the body returned: `track_tool`, which may raise. */
  function AfterBody(s: State, k: nat, c: Call): Result {
    Result(Log(s, BodyCompleted(k)), c.trackFails)
  }

  /** From the body's result to the caller's. */
  function Close(ran: Result, k: nat, c: Call, outer: Context, span: SpanContext): Result {
    if ran.raised.Some? then Finish(ran, k, c, outer, span, false)
    else Finish(AfterBody(ran.state, k, c), k, c, outer, span, true)
  }

  // ------------------------------------------------------------------- blocks

  /** A workflow starts a trace of its own. */
  function InWorkflow(s: State, name: Option<string>): State {
    var root := SpanContext(Minted(s.next + 1), Minted(s.next + 2), None, 0);
    var context := s.context.(workflowId := Some(NameOr(name, s.next)), traceId := Some(root.traceId),
                              spanId := Some(root.spanId), current := Some(root));
    Log(s.(context := context, next := s.next + 3), Opened(root))
  }

  function OutWorkflow(r: Result, outer: Context): Result {
    r.(state := r.state.(context := r.state.context.(
      workflowId := outer.workflowId, traceId := outer.traceId, spanId := outer.spanId, current := outer.current)))
  }

  /** A span is a child of the active one; with none active only its id is set. */
  function InSpan(s: State, name: Option<string>): State {
    var spanId := NameOr(name, s.next);
    var named := s.(context := s.context.(spanId := Some(spanId)), next := s.next + 1);
    match s.context.current
    case None => named
    case Some(parent) =>
      var child := ChildSpan(parent, spanId);
      Log(named.(context := named.context.(current := Some(child))), Opened(child))
  }

  function OutSpan(r: Result, outer: Context): Result {
    var current := if outer.current.Some? then outer.current else r.state.context.current;
    r.(state := r.state.(context := r.state.context.(spanId := outer.spanId, current := current)))
  }

  function InAgent(s: State, name: Option<string>): State {
    s.(context := s.context.(agentId := Some(NameOr(name, s.next))), next := s.next + 1)
  }

  function OutAgent(r: Result, outer: Context): Result {
    r.(state := r.state.(context := r.state.context.(agentId := outer.agentId)))
  }

  function InAttempt(s: State, index: int): State {
    s.(context := s.context.(attemptIndex := index))
  }

  function OutAttempt(r: Result, outer: Context): Result {
    r.(state := r.state.(context := r.state.context.(attemptIndex := outer.attemptIndex)))
  }

  const CHAIN_OPS := {"start", "continue", "end", "auto"}

  function InChain(s: State, id: string, op: string): State {
    s.(context := s.context.(chainId := Some(id), chainOp := op))
  }

  function OutChain(r: Result, outer: Context): Result {
    r.(state := r.state.(context := r.state.context.(chainId := outer.chainId, chainOp := outer.chainOp)))
  }

  // ------------------------------------------------------------------ meaning

  function Eval(env: Settings, p: Program, s: State): Result
    decreases p
  {
    match p
    case Skip => Fine(s)
    case Raise(e) => Fails(s, e)
    case Both(first, second) =>
      var r := Eval(env, first, s);
      if r.raised.Some? then r else Eval(env, second, r.state)
    case Try(body, bare, handler) =>
      var r := Eval(env, body, s);
      if r.raised.Some? && (bare || IsException(r.raised.value)) then Eval(env, handler, r.state) else r
    case Track => Fine(Log(s, Tracked(s.context)))
    case LlmStart(answer) =>
      var r := CheckBudget(env, s.(next := s.next + 1), s.next, answer);
      if r.raised.None? then r
      else if IsEnforcement(r.raised.value) then
        Fine(Log(r.state.(stash := r.state.stash + [r.raised.value]), Stashed(r.raised.value)))
      else if IsException(r.raised.value) then Fine(r.state)
      else r
    case Workflow(name, body) => OutWorkflow(Eval(env, body, InWorkflow(s, name)), s.context)
    case Span(name, body) => OutSpan(Eval(env, body, InSpan(s, name)), s.context)
    case Agent(name, body) => OutAgent(Eval(env, body, InAgent(s, name)), s.context)
    case Attempt(index, body) => OutAttempt(Eval(env, body, InAttempt(s, index)), s.context)
    case Chain(id, isV4, op, body) =>
      if op !in CHAIN_OPS || !isV4 then Fails(s, ValueError)
      else OutChain(Eval(env, body, InChain(s, id, op)), s.context)
    case Protect(c, body) =>
      var k, span, entered := s.next, NextSpan(s), Enter(s, c);
      var gates := Gates(env, entered, k, c, span);
      if gates.raised.Some? then Finish(gates, k, c, s.context, span, false)
      else Close(Eval(env, body, Log(gates.state, BodyBegan(k))), k, c, s.context, span)
  }

  lemma ProtectMeans(env: Settings, c: Call, body: Program, s: State)
    ensures var gates := Gates(env, Enter(s, c), s.next, c, NextSpan(s));
            Eval(env, Protect(c, body), s) ==
              if gates.raised.Some? then Finish(gates, s.next, c, s.context, NextSpan(s), false)
              else Close(Eval(env, body, Log(gates.state, BodyBegan(s.next))), s.next, c, s.context, NextSpan(s))
  {
    hide Gates, Finish, Close, Enter, NextSpan;
  }

  lemma BlockMeans(env: Settings, p: Program, s: State)
    ensures p.Workflow? ==> Eval(env, p, s) == OutWorkflow(Eval(env, p.body, InWorkflow(s, p.name)), s.context)
    ensures p.Span? ==> Eval(env, p, s) == OutSpan(Eval(env, p.body, InSpan(s, p.name)), s.context)
    ensures p.Agent? ==> Eval(env, p, s) == OutAgent(Eval(env, p.body, InAgent(s, p.name)), s.context)
    ensures p.Attempt? ==> Eval(env, p, s) == OutAttempt(Eval(env, p.body, InAttempt(s, p.index)), s.context)
    ensures p.Chain? && p.op in CHAIN_OPS && p.isV4 ==>
              Eval(env, p, s) == OutChain(Eval(env, p.body, InChain(s, p.id, p.op)), s.context)
    ensures p.Chain? && !(p.op in CHAIN_OPS && p.isV4) ==> Eval(env, p, s) == Fails(s, ValueError)
  {
    hide InWorkflow, OutWorkflow, InSpan, OutSpan, InAgent, OutAgent, InAttempt, OutAttempt, InChain, OutChain;
    hide Gates, Finish, Close, Enter, CheckBudget;
  }
}
