/** Span and trace ids over whole programs: which span a new one hangs under, and
    that no id is given twice. */
module SpanIds {
  import opened BusinessImpacts
  import opened Options
  import opened Programs
  import opened Scopes

  /** A protected call and a `span` block open a child of the active span; with none
      active the call opens a root and the block nothing. A `workflow` block opens a
      root whatever is active. */
  lemma OpensUnder(s: State, c: Call, name: Option<string>)
    ensures match s.context.current
            case Some(parent) =>
              && Enter(s, c).log.On? && Enter(s, c).log.past == On(s.log, Opened(Enter(s, c).context.current.value))
              && Under(parent, Enter(s, c).context.current.value)
              && InSpan(s, name).log == On(s.log, Opened(InSpan(s, name).context.current.value))
              && Under(parent, InSpan(s, name).context.current.value)
            case None =>
              && Enter(s, c).log.On? && Enter(s, c).log.past == On(s.log, Opened(Enter(s, c).context.current.value))
              && IsRoot(Enter(s, c).context.current.value)
              && InSpan(s, name).log == s.log && InSpan(s, name).context.current.None?
    ensures && InWorkflow(s, name).log == On(s.log, Opened(InWorkflow(s, name).context.current.value))
            && IsRoot(InWorkflow(s, name).context.current.value)
  {
    hide CallImpact;
  }

  predicate Under(parent: SpanContext, span: SpanContext) {
    span.traceId == parent.traceId && span.parentSpanId == Some(parent.spanId) && span.depth == parent.depth + 1
  }

  predicate IsRoot(span: SpanContext) {
    span.parentSpanId.None? && span.depth == 0
  }

  // ---------------------------------------------------------------- fresh ids

  predicate Old(id: Id, next: nat) {
    id.Minted? ==> id.n < next
  }

  /** Not the span of an earlier one, unless the user named it; and a root starts a
      trace of its own. */
  ghost predicate New(past: Trace, span: SpanContext) {
    forall earlier :: WasOpened(past, earlier) ==>
      && (span.spanId.Minted? ==> earlier.spanId != span.spanId)
      && (span.parentSpanId.None? ==> earlier.traceId != span.traceId)
  }

  ghost predicate SpansApart(log: Trace) {
    log.On? ==> SpansApart(log.past) && (log.event.Opened? ==> New(log.past, log.event.span))
  }

  ghost predicate FreshSpans(s: State) {
    && SpansApart(s.log)
    && (forall earlier :: WasOpened(s.log, earlier) ==> Old(earlier.spanId, s.next) && Old(earlier.traceId, s.next))
    && (s.context.current.Some? ==> Old(s.context.current.value.traceId, s.next))
  }

  /** Any event but a span's opening, and any change of the rest. */
  lemma Quietly(s: State, t: State)
    requires FreshSpans(s) && t.next >= s.next && t.context.current == s.context.current
    requires t.log == s.log || (t.log.On? && t.log.past == s.log && !t.log.event.Opened?)
    ensures FreshSpans(t)
  {
  }

  /** A span whose minted ids are taken from the numbers set aside for it. */
  lemma Opens(s: State, t: State, span: SpanContext)
    requires FreshSpans(s) && t.log == On(s.log, Opened(span)) && t.context.current == Some(span)
    requires span.spanId.Minted? ==> s.next <= span.spanId.n < t.next
    requires if span.parentSpanId.None? then span.traceId.Minted? && s.next <= span.traceId.n < t.next
             else s.context.current.Some? && span.traceId == s.context.current.value.traceId
    requires t.next >= s.next
    ensures FreshSpans(t)
  {
  }

  lemma BudgetFresh(env: Settings, s: State, k: nat, answer: GateAnswer)
    requires FreshSpans(s)
    ensures var t := CheckBudget(env, s, k, answer).state; FreshSpans(t) && t.next >= s.next
  {
    hide IdentityOf, FreshSpans;
    var asked := Log(s, BudgetAsked(k, HasWorkflow(env, s.context), answer));
    Quietly(s, asked);
    Quietly(asked, MintOperation(asked));
    if !answer.Bypassed? && HasWorkflow(env, s.context) {
      var minted := MintOperation(asked);
      var sent := Log(minted, GateSent(k, IdentityOf(Minted(asked.next), asked.context.callImpact)));
      Quietly(minted, sent);
      if answer.GateAnswers? {
        var v := answer.verdict;
        var from := if answer.cached && asked.context.chainId.Some? then minted else sent;
        Quietly(from, Log(from.(minted := v.reservation), Captured(k, v.reservation)));
        DecisionKeepsState(Log(from.(minted := v.reservation), Captured(k, v.reservation)), v);
      }
    }
  }

  lemma DecisionKeepsState(s: State, v: Verdict)
    ensures GateDecision(s, v).state == s
  {
  }

  lemma AnswersKeep(env: Settings, policy: Policy)
    ensures forall s, v :: Settle(env, s, v).state == s
    ensures forall s :: Recheck(env, s, policy.second).state == s
    ensures forall s, e :: Caught(env, s, e).state == s
  {
  }

  lemma PolicyFresh(env: Settings, s: State, k: nat, policy: Policy)
    requires FreshSpans(s)
    ensures var t := CheckPolicy(env, s, k, policy).state; FreshSpans(t) && t.next >= s.next
  {
    hide FreshSpans, ExecuteIdentity, Recheck, Settle, Caught;
    AnswersKeep(env, policy);
    var asked := Log(s, PolicyAsked(k, policy));
    Quietly(s, asked);
    var named := Naming(asked);
    Quietly(asked, named);
    var sent := Log(named, ExecuteSent(k, ExecuteIdentity(asked), FirstRequest(s)));
    Quietly(named, sent);
    if policy.first.ExecuteAnswers? {
      var v := policy.first.verdict;
      var answered := Log(sent.(minted := v.reservation), Captured(k, v.reservation));
      Quietly(sent, answered);
      Quietly(answered, Log(answered, ExecuteSent(k, ExecuteIdentity(asked), Again(FirstRequest(s), v))));
    }
  }

  lemma GatesFresh(env: Settings, s: State, k: nat, c: Call, span: SpanContext)
    requires FreshSpans(s)
    ensures var t := Gates(env, s, k, c, span).state; FreshSpans(t) && t.next >= s.next
  {
    hide FreshSpans, CheckBudget, CheckPolicy;
    var control := CheckControl(env, s, k, c.control).state;
    Quietly(s, control);
    BudgetFresh(env, control, k, c.gate);
    var budget := CheckBudget(env, control, k, c.gate).state;
    var started := Log(budget, SpanStarted(k, span));
    Quietly(budget, started);
    PolicyFresh(env, started, k, c.policy);
    var policy := CheckPolicy(env, started, k, c.policy).state;
    Quietly(policy, Drain(policy, k).state);
  }

  /** The end of a call puts the span of before back. */
  lemma FinishFresh(r: Result, k: nat, c: Call, outer: Context, span: SpanContext, completed: bool)
    requires FreshSpans(r.state) && (outer.current.Some? ==> Old(outer.current.value.traceId, r.state.next))
    ensures var t := Finish(r, k, c, outer, span, completed).state; FreshSpans(t) && t.next == r.state.next
  {
    var left := Leave(r.state, k, outer, span, r.raised.Some?);
    assert FreshSpans(left);
    hide FreshSpans;
    Quietly(left, Cancel(left, k));
  }

  lemma EnterFresh(s: State, c: Call)
    requires FreshSpans(s)
    ensures FreshSpans(Enter(s, c)) && Enter(s, c).next >= s.next
  {
    hide CallImpact, FreshSpans;
    var span, t := NextSpan(s), Enter(s, c);
    var marked := t.(log := On(s.log, Opened(span)));
    Opens(s, marked, span);
    Quietly(marked, t);
  }

  lemma ProtectFresh(env: Settings, c: Call, body: Program, s: State)
    requires FreshSpans(s)
    ensures var t := Eval(env, Protect(c, body), s).state; FreshSpans(t) && t.next >= s.next
    decreases Protect(c, body), 0
  {
    assert s.context.current.Some? ==> Old(s.context.current.value.traceId, s.next);
    hide FreshSpans, Gates, Enter, NextSpan, Finish, Eval;
    ProtectMeans(env, c, body, s);
    EnterFresh(s, c);
    var k, span := s.next, NextSpan(s);
    GatesFresh(env, Enter(s, c), k, c, span);
    var gates := Gates(env, Enter(s, c), k, c, span);
    FinishFresh(gates, k, c, s.context, span, false);
    var began := Log(gates.state, BodyBegan(k));
    Quietly(gates.state, began);
    IdsFresh(env, body, began);
    var ran := Eval(env, body, began);
    FinishFresh(ran, k, c, s.context, span, false);
    Quietly(ran.state, AfterBody(ran.state, k, c).state);
    FinishFresh(AfterBody(ran.state, k, c), k, c, s.context, span, true);
  }

  lemma BlockFresh(env: Settings, p: Program, from: State, s: State)
    requires p.Workflow? || p.Span? || p.Agent? || p.Attempt? || p.Chain?
    requires FreshSpans(s) && FreshSpans(from) && from.next >= s.next
    requires Eval(env, p, s).state == Eval(env, p.body, from).state.(context := s.context)
    ensures var t := Eval(env, p, s).state; FreshSpans(t) && t.next >= s.next
    decreases p, 0
  {
    hide Eval;
    IdsFresh(env, p.body, from);
  }

  lemma InsideFresh(s: State, name: Option<string>, index: int, id: string, op: string)
    requires FreshSpans(s)
    ensures FreshSpans(InWorkflow(s, name)) && FreshSpans(InSpan(s, name)) && FreshSpans(InAgent(s, name))
    ensures FreshSpans(InAttempt(s, index)) && FreshSpans(InChain(s, id, op))
  {
    hide FreshSpans;
    var flow, span := InWorkflow(s, name), InSpan(s, name);
    Opens(s, flow, flow.context.current.value);
    if s.context.current.Some? { Opens(s, span, span.context.current.value); } else { Quietly(s, span); }
    Quietly(s, InAgent(s, name));
    Quietly(s, InAttempt(s, index));
    Quietly(s, InChain(s, id, op));
  }

  /** Every program keeps the ids fresh. */
  lemma {:induction false} IdsFresh(env: Settings, p: Program, s: State)
    requires FreshSpans(s)
    ensures var t := Eval(env, p, s).state; FreshSpans(t) && t.next >= s.next
    decreases p, 2
  {
    hide FreshSpans, Gates, Finish, Close, CheckBudget, Enter;
    match p
    case Skip =>
    case Raise(_) =>
    case Track => Quietly(s, Log(s, Tracked(s.context)));
    case Both(first, second) =>
      IdsFresh(env, first, s);
      IdsFresh(env, second, Eval(env, first, s).state);
    case Try(body, bare, handler) =>
      IdsFresh(env, body, s);
      IdsFresh(env, handler, Eval(env, body, s).state);
    case LlmStart(answer) =>
      var t := s.(next := s.next + 1);
      Quietly(s, t);
      BudgetFresh(env, t, s.next, answer);
      var r := CheckBudget(env, t, s.next, answer);
      if r.raised.Some? {
        Quietly(r.state, Log(r.state.(stash := r.state.stash + [r.raised.value]), Stashed(r.raised.value)));
      }
    case Protect(c, body) => ProtectFresh(env, c, body, s);
    case Workflow(name, body) => Block(env, p, InWorkflow(s, name), s);
    case Span(name, body) => Block(env, p, InSpan(s, name), s);
    case Agent(name, body) => Block(env, p, InAgent(s, name), s);
    case Attempt(index, body) => Block(env, p, InAttempt(s, index), s);
    case Chain(id, isV4, op, body) => if op in CHAIN_OPS && isV4 { Block(env, p, InChain(s, id, op), s); }
  }

  lemma Block(env: Settings, p: Program, from: State, s: State)
    requires p.Workflow? || p.Span? || p.Agent? || p.Attempt? || (p.Chain? && p.op in CHAIN_OPS && p.isV4)
    requires from == match p
                     case Workflow(name, _) => InWorkflow(s, name)
                     case Span(name, _) => InSpan(s, name)
                     case Agent(name, _) => InAgent(s, name)
                     case Attempt(index, _) => InAttempt(s, index)
                     case Chain(id, _, op, _) => InChain(s, id, op)
    requires FreshSpans(s)
    ensures var t := Eval(env, p, s).state; FreshSpans(t) && t.next >= s.next
    decreases p, 1
  {
    hide FreshSpans, Eval;
    match p {
      case Workflow(name, _) => InsideFresh(s, name, 0, "", "");
      case Span(name, _) => InsideFresh(s, name, 0, "", "");
      case Agent(name, _) => InsideFresh(s, name, 0, "", "");
      case Attempt(index, _) => InsideFresh(s, None, index, "", "");
      case Chain(id, _, op, _) => InsideFresh(s, None, 0, id, op);
    }
    Restored(env, p, s);
    BlockMeans(env, p, s);
    BlockFresh(env, p, from, s);
  }

  /** In every run no two spans have one minted id, and no two roots one trace. */
  lemma SpansNeverShare(env: Settings, p: Program)
    ensures SpansApart(Eval(env, p, START).state.log)
  {
    hide Eval;
    IdsFresh(env, p, START);
  }
}
