/** One task of the SDK as it runs: the context variables, set and reset by
    tokens, and the wrapper around a protected call. */
module SdkTasks {
  import opened BusinessImpacts
  import opened Options
  import opened Programs

  /** What a protected call saves before it sets the variables. The tools are
      saved only if it sets them. */
  datatype Tokens = Tokens(
    current: Option<SpanContext>,
    traceId: Option<Id>,
    spanId: Option<Id>,
    tools: Option<seq<string>>,
    impact: Option<Impact>
  )

  ghost predicate Saves(tokens: Tokens, outer: Context) {
    && tokens.current == outer.current && tokens.traceId == outer.traceId && tokens.spanId == outer.spanId
    && tokens.impact == outer.callImpact
    && tokens.tools == if outer.callTools == [] then Some([]) else None
  }

  class Task {
    const env: Settings
    var workflowId: Option<Id>
    var traceId: Option<Id>
    var spanId: Option<Id>
    var agentId: Option<Id>
    var attemptIndex: int
    var chainId: Option<string>
    var chainOp: string
    var current: Option<SpanContext>
    var callTools: seq<string>
    var callImpact: Option<Impact>
    var operationId: Option<Id>
    var minted: Option<Execution>
    var pending: seq<Exn>
    var next: nat
    var log: Trace

    ghost function View(): State
      reads this
    {
      State(Context(workflowId, traceId, spanId, agentId, attemptIndex, chainId, chainOp,
                    current, callTools, callImpact),
            operationId, minted, pending, next, log)
    }

    constructor (env: Settings)
      ensures this.env == env && View() == START
    {
      this.env := env;
      workflowId, traceId, spanId, agentId, attemptIndex := None, None, None, None, 0;
      chainId, chainOp, current, callTools, callImpact := None, "auto", None, [], None;
      operationId, minted, pending, next, log := None, None, [], 0, Silence;
    }

    method Emit(e: Event)
      modifies this`log
      ensures View() == Log(old(View()), e)
    {
      log := On(log, e);
    }

    method ResolvesWorkflow() returns (found: bool)
      ensures found == HasWorkflow(env, View().context)
    {
      found := workflowId.Some? || (env.bound.Some? && env.bound.value != "");
    }

    method CheckControlPlane(k: nat, state: ControlState) returns (raised: Option<Exn>)
      modifies this`log
      ensures Result(View(), raised) == CheckControl(env, old(View()), k, state)
    {
      var found := ResolvesWorkflow();
      Emit(ControlAsked(k, found, state));
      if !found { return None; }
      match state {
        case Normal => return None;
        case PausedState => return Some(Paused);
        case KilledState => return Some(Killed);
      }
    }

    method RequireGateDecision(v: Verdict) returns (raised: Option<Exn>)
      ensures Result(View(), raised) == GateDecision(View(), v)
    {
      if v.source !in GATE_SOURCES || v.decision !in GATE_DECISIONS { return Some(Refusal("malformed")); }
      if v.source in SYNTHETIC_SOURCES { return None; }
      if v.decision == "block" { return Some(v.error); }
      if v.decision == "soft_pass" { return None; }
      if v.decision == "require_approval" {
        if v.approvalId.None? || v.approvalId.value == "" { return Some(Refusal("approval_id missing")); }
        if v.wait == WaitApproved { return None; }
        if v.wait == WaitDenied { return Some(Refusal("NR-A011")); }
        return Some(Refusal("NR-A012"));
      }
      if v.decision == "deny" { return Some(Refusal("NR-B006")); }
      return None;
    }

    /** What the answer to a /gate request does. */
    method TakeGateAnswer(k: nat, answer: GateAnswer) returns (raised: Option<Exn>)
      requires !answer.Bypassed?
      modifies this`log, this`minted
      ensures Result(View(), raised) ==
              match answer
              case GateFails(e) => Fails(old(View()), e)
              case GateUnreachable => Fine(old(View()))
              case GateAnswers(_, v) =>
                GateDecision(Log(old(View()).(minted := v.reservation), Captured(k, v.reservation)), v)
    {
      hide Programs.GateDecision;
      match answer {
        case GateFails(e) => return Some(e);
        case GateUnreachable => return None;
        case GateAnswers(_, v) =>
          minted := v.reservation;
          Emit(Captured(k, v.reservation));
          raised := RequireGateDecision(v);
      }
    }

    method CheckWorkflowBudget(k: nat, answer: GateAnswer) returns (raised: Option<Exn>)
      modifies this`log, this`operationId, this`minted, this`next
      ensures Result(View(), raised) == CheckBudget(env, old(View()), k, answer)
    {
      hide Programs.GateDecision, Programs.IdentityOf;
      var found := ResolvesWorkflow();
      Emit(BudgetAsked(k, found, answer));
      if answer.Bypassed? {
        return if answer.refused then Some(Refusal("NR-S001")) else None;
      }
      operationId := Some(Minted(next));
      next := next + 1;
      if !found { return None; }
      if !(answer.GateAnswers? && answer.cached && chainId.Some?) {
        Emit(GateSent(k, IdentityOf(operationId.value, callImpact)));
      }
      raised := TakeGateAnswer(k, answer);
    }

    method Unavailable() returns (raised: Option<Exn>)
      ensures Result(View(), raised) == PolicyUnavailable(env, View())
    {
      return if env.failOpen then None else Some(Refusal("policy engine unavailable"));
    }

    /** The `except` arms of the policy gate. */
    method TakeRaise(e: Exn) returns (raised: Option<Exn>)
      ensures Result(View(), raised) == Caught(env, View(), e)
    {
      if e.Refusal? || e.Budget? || e.Paused? || e.Interrupt? { return Some(e); }
      raised := Unavailable();
    }

    method SettleAnswer(v: Verdict) returns (raised: Option<Exn>)
      ensures Result(View(), raised) == Settle(env, View(), v)
    {
      if v.decision == "block" { raised := TakeRaise(v.error); return; }
      if v.source in SYNTHETIC_SOURCES { raised := Unavailable(); } else { return None; }
    }

    method SettleRecheck(answer: ExecuteAnswer) returns (raised: Option<Exn>)
      ensures Result(View(), raised) == Recheck(env, View(), answer)
    {
      match answer {
        case ExecuteFails(e) => raised := TakeRaise(e);
        case ExecuteAnswers(v) =>
          if v.decision == "require_approval" { return Some(Refusal("NR-A015")); }
          raised := SettleAnswer(v);
      }
    }

    method NameOperation() returns (identity: Identity)
      modifies this`operationId, this`next
      ensures View() == Naming(old(View())) && identity == ExecuteIdentity(old(View()))
    {
      hide Programs.IdentityOf;
      if operationId.None? {
        operationId := Some(Minted(next));
        next := next + 1;
      }
      return IdentityOf(operationId.value, Some(if callImpact.Some? then callImpact.value else NoImpact));
    }

    /** The wait for an approval the answer asks for, and the second request. */
    method AwaitApproval(k: nat, identity: Identity, first: Request, v: Verdict, second: ExecuteAnswer)
      returns (raised: Option<Exn>)
      modifies this`log
      ensures Result(View(), raised) ==
              if v.approvalId.None? || v.approvalId.value == "" then Fails(old(View()), Refusal("NR-A004"))
              else if v.wait != WaitApproved then Fails(old(View()), Refusal("approval not granted"))
              else Recheck(env, Log(old(View()), ExecuteSent(k, identity, Again(first, v))), second)
    {
      hide Programs.Recheck;
      if v.approvalId.None? || v.approvalId.value == "" { return Some(Refusal("NR-A004")); }
      if v.wait != WaitApproved { return Some(Refusal("approval not granted")); }
      Emit(ExecuteSent(k, identity, Again(first, v)));
      raised := SettleRecheck(second);
    }

    method RunToolPolicyGate(k: nat, policy: Policy) returns (raised: Option<Exn>)
      modifies this`log, this`operationId, this`minted, this`next
      ensures Result(View(), raised) == CheckPolicy(env, old(View()), k, policy)
    {
      hide Programs.Recheck, Programs.Settle, Programs.Naming, Programs.ExecuteIdentity, Programs.Caught;
      Emit(PolicyAsked(k, policy));
      var identity := NameOperation();
      var first := Request(minted, callTools, None);
      Emit(ExecuteSent(k, identity, first));
      match policy.first {
        case ExecuteFails(e) => raised := TakeRaise(e);
        case ExecuteAnswers(v) =>
          minted := v.reservation;
          Emit(Captured(k, v.reservation));
          if v.decision != "require_approval" {
            raised := SettleAnswer(v);
          } else {
            raised := AwaitApproval(k, identity, first, v, policy.second);
          }
      }
    }

    method RaiseDeferredEnforcement(k: nat) returns (raised: Option<Exn>)
      modifies this`log, this`pending
      ensures Result(View(), raised) == Drain(old(View()), k)
    {
      if pending == [] {
        Emit(Drained(k, None));
        return None;
      }
      var oldest := pending[0];
      pending := pending[1..];
      Emit(Drained(k, Some(oldest)));
      return Some(oldest);
    }

    method SafeCancelActiveExecution(k: nat)
      modifies this`log
      ensures View() == Cancel(old(View()), k)
    {
      if minted.Some? { Emit(CancelSent(k, minted.value)); }
    }

    /** The four gates, in order, each stopping the ones after it. */
    method PassGates(k: nat, c: Call, span: SpanContext) returns (raised: Option<Exn>)
      modifies this`log, this`operationId, this`minted, this`next, this`pending
      ensures Result(View(), raised) == Gates(env, old(View()), k, c, span)
    {
      hide Programs.CheckControl, Programs.CheckBudget, Programs.CheckPolicy, Programs.Drain;
      raised := CheckControlPlane(k, c.control);
      if raised.Some? { return; }
      raised := CheckWorkflowBudget(k, c.gate);
      if raised.Some? { return; }
      Emit(SpanStarted(k, span));
      raised := RunToolPolicyGate(k, c.policy);
      if raised.Some? { return; }
      raised := RaiseDeferredEnforcement(k);
    }

    // -------------------------------------------------------------- the wrapper

    method PushSpan(span: SpanContext)
      modifies this`current, this`traceId, this`spanId
      ensures View() == old(View()).(context := old(View()).context.(
                current := Some(span), traceId := Some(span.traceId), spanId := Some(span.spanId)))
    {
      current, traceId, spanId := Some(span), Some(span.traceId), Some(span.spanId);
    }

    method PushAction(c: Call)
      modifies this`callTools, this`callImpact
      ensures View() == old(View()).(context := old(View()).context.(
                callTools := if old(callTools) == [] then [c.name] else old(callTools),
                callImpact := Some(CallImpact(c))))
    {
      hide Programs.CallImpact;
      if callTools == [] { callTools := [c.name]; }
      callImpact := Some(CallImpact(c));
    }

    /** The setup before the `try`: span, its mirror, the tools and the envelope. */
    method EnterCall(c: Call) returns (k: nat, span: SpanContext, tokens: Tokens)
      modifies this`current, this`traceId, this`spanId, this`callTools, this`callImpact, this`next, this`log
      ensures k == old(next) && span == NextSpan(old(View())) && View() == Enter(old(View()), c)
      ensures Saves(tokens, old(View()).context)
    {
      hide Programs.CallImpact;
      k := next;
      span := if current.None? then RootSpan(next + 1) else ChildSpan(current.value, Minted(next + 1));
      next := next + 3;
      tokens := Tokens(current, traceId, spanId, if callTools == [] then Some(callTools) else None, callImpact);
      PushSpan(span);
      PushAction(c);
      Emit(Opened(span));
      Emit(Entered(k, c));
    }

    /** The `finally`: every token reset, then span_end. */
    method LeaveCall(k: nat, span: SpanContext, tokens: Tokens, failed: bool, ghost outer: Context)
      requires Saves(tokens, outer)
      modifies this`current, this`traceId, this`spanId, this`callTools, this`callImpact, this`log
      ensures View() == Leave(old(View()), k, outer, span, failed)
    {
      current, traceId, spanId, callImpact := tokens.current, tokens.traceId, tokens.spanId, tokens.impact;
      if tokens.tools.Some? { callTools := tokens.tools.value; }
      Emit(SpanEnded(k, span, failed));
    }

    /** What the wrapper does on the way out. */
    method FinishCall(raised: Option<Exn>, k: nat, c: Call, span: SpanContext, tokens: Tokens, completed: bool,
                      ghost outer: Context)
      returns (out: Option<Exn>)
      requires Saves(tokens, outer)
      modifies this`current, this`traceId, this`spanId, this`callTools, this`callImpact, this`log
      ensures Result(View(), out) == Finish(Result(old(View()), raised), k, c, outer, span, completed)
    {
      hide Programs.Leave, Saves;
      LeaveCall(k, span, tokens, raised.Some?, outer);
      if raised.None? { return None; }
      if !completed && (c.sync || IsException(raised.value)) { SafeCancelActiveExecution(k); }
      return Some(Unify(c.sync, raised.value));
    }

    /** One decorated call: setup, gates, body, `track_tool`, and on every path the
        resets and span_end before the exception goes on. */
    method Protected(c: Call, body: Program) returns (raised: Option<Exn>)
      modifies this
      ensures Result(View(), raised) == Eval(env, Protect(c, body), old(View()))
      decreases Protect(c, body), 0
    {
      hide Programs.Gates, Programs.Enter, Programs.NextSpan, Programs.Eval, Programs.Finish, Saves;
      ProtectMeans(env, c, body, View());
      ghost var outer := View().context;
      var k, span, tokens := EnterCall(c);
      var completed := false;
      raised := PassGates(k, c, span);
      if raised.None? {
        Emit(BodyBegan(k));
        raised := Exec(body);
        if raised.None? {
          completed := true;
          Emit(BodyCompleted(k));
          raised := c.trackFails;
        }
      }
      raised := FinishCall(raised, k, c, span, tokens, completed, outer);
    }

    method StashDecision(e: Exn)
      modifies this`pending, this`log
      ensures View() == Log(old(View()).(stash := old(View()).stash + [e]), Stashed(e))
    {
      pending := pending + [e];
      Emit(Stashed(e));
    }

    method OnLlmStart(answer: GateAnswer) returns (raised: Option<Exn>)
      modifies this`log, this`operationId, this`minted, this`next, this`pending
      ensures Result(View(), raised) == Eval(env, LlmStart(answer), old(View()))
    {
      hide Programs.CheckBudget;
      next := next + 1;
      raised := CheckWorkflowBudget(next - 1, answer);
      if raised.Some? && IsEnforcement(raised.value) {
        StashDecision(raised.value);
        return None;
      } else if raised.Some? && IsException(raised.value) {
        return None;
      }
    }

    /** `with workflow(name)`. */
    method WithWorkflow(name: Option<string>, body: Program) returns (raised: Option<Exn>)
      modifies this
      ensures Result(View(), raised) == Eval(env, Workflow(name, body), old(View()))
      decreases Workflow(name, body), 0
    {
      hide Programs.Eval;
      BlockMeans(env, Workflow(name, body), View());
      var root := SpanContext(Minted(next + 1), Minted(next + 2), None, 0);
      var workflowToken, traceToken, spanToken, currentToken := workflowId, traceId, spanId, current;
      workflowId, current := Some(NameOr(name, next)), Some(root);
      traceId, spanId := Some(root.traceId), Some(root.spanId);
      next := next + 3;
      Emit(Opened(root));
      assert View() == InWorkflow(old(View()), name);
      raised := Exec(body);
      workflowId, traceId, spanId, current := workflowToken, traceToken, spanToken, currentToken;
    }

    /** `with span(name)`: a child span only if a span is active. */
    method WithSpan(name: Option<string>, body: Program) returns (raised: Option<Exn>)
      modifies this
      ensures Result(View(), raised) == Eval(env, Span(name, body), old(View()))
      decreases Span(name, body), 0
    {
      hide Programs.Eval;
      BlockMeans(env, Span(name, body), View());
      var id := NameOr(name, next);
      var spanToken := spanId;
      spanId, next := Some(id), next + 1;
      var currentToken: Option<Option<SpanContext>> := None;
      if current.Some? {
        var child := ChildSpan(current.value, id);
        currentToken := Some(current);
        current := Some(child);
        Emit(Opened(child));
      }
      assert View() == InSpan(old(View()), name);
      raised := Exec(body);
      spanId := spanToken;
      if currentToken.Some? { current := currentToken.value; }
    }

    /** `with agent(name)`. */
    method WithAgent(name: Option<string>, body: Program) returns (raised: Option<Exn>)
      modifies this
      ensures Result(View(), raised) == Eval(env, Agent(name, body), old(View()))
      decreases Agent(name, body), 0
    {
      hide Programs.Eval;
      BlockMeans(env, Agent(name, body), View());
      var token := agentId;
      agentId, next := Some(NameOr(name, next)), next + 1;
      assert View() == InAgent(old(View()), name);
      raised := Exec(body);
      agentId := token;
    }

    /** `with attempt(index)`. */
    method WithAttempt(index: int, body: Program) returns (raised: Option<Exn>)
      modifies this
      ensures Result(View(), raised) == Eval(env, Attempt(index, body), old(View()))
      decreases Attempt(index, body), 0
    {
      hide Programs.Eval;
      BlockMeans(env, Attempt(index, body), View());
      var token := attemptIndex;
      attemptIndex := index;
      assert View() == InAttempt(old(View()), index);
      raised := Exec(body);
      attemptIndex := token;
    }

    /** `with chain(id, op)`: both arguments checked before anything is set. */
    method WithChain(id: string, isV4: bool, op: string, body: Program) returns (raised: Option<Exn>)
      modifies this
      ensures Result(View(), raised) == Eval(env, Chain(id, isV4, op, body), old(View()))
      decreases Chain(id, isV4, op, body), 0
    {
      hide Programs.Eval;
      BlockMeans(env, Chain(id, isV4, op, body), View());
      if op !in CHAIN_OPS { return Some(ValueError); }
      if !isV4 { return Some(ValueError); }
      var chainToken, opToken := chainId, chainOp;
      chainId, chainOp := Some(id), op;
      assert View() == InChain(old(View()), id, op);
      raised := Exec(body);
      chainId, chainOp := chainToken, opToken;
    }

    /** Any program, block by block. */
    method Exec(p: Program) returns (raised: Option<Exn>)
      modifies this
      ensures Result(View(), raised) == Eval(env, p, old(View()))
      decreases p, 1
    {
      match p {
        case Skip => return None;
        case Raise(e) => return Some(e);
        case Both(first, second) =>
          raised := Exec(first);
          if raised.Some? { return; }
          raised := Exec(second);
        case Try(body, bare, handler) =>
          raised := Exec(body);
          if raised.Some? && (bare || IsException(raised.value)) { raised := Exec(handler); }
        case Track =>
          Emit(Tracked(Context(workflowId, traceId, spanId, agentId, attemptIndex, chainId, chainOp,
                               current, callTools, callImpact)));
          return None;
        case LlmStart(answer) => raised := OnLlmStart(answer);
        case Workflow(name, body) => raised := WithWorkflow(name, body);
        case Span(name, body) => raised := WithSpan(name, body);
        case Agent(name, body) => raised := WithAgent(name, body);
        case Attempt(index, body) => raised := WithAttempt(index, body);
        case Chain(id, isV4, op, body) => raised := WithChain(id, isV4, op, body);
        case Protect(c, body) => raised := Protected(c, body);
      }
    }
  }
}
