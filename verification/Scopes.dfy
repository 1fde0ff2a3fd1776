/** What every program keeps: the context variables come back, the two records of
    the current span agree at every point, and the spans form trees. */
module Scopes {
  import opened BusinessImpacts
  import opened Options
  import opened Programs

  /** No gate touches a context variable. */
  lemma GatesKeepContext(env: Settings, s: State, k: nat, c: Call, span: SpanContext)
    ensures Gates(env, s, k, c, span).state.context == s.context
  {
    hide CheckBudget, CheckPolicy;
    var control := CheckControl(env, s, k, c.control).state;
    BudgetKeepsContext(env, control, k, c.gate);
    var budget := CheckBudget(env, control, k, c.gate).state;
    PolicyKeepsContext(env, Log(budget, SpanStarted(k, span)), k, c.policy);
  }

  lemma BudgetKeepsContext(env: Settings, s: State, k: nat, answer: GateAnswer)
    ensures CheckBudget(env, s, k, answer).state.context == s.context
  {
    hide HashedBytes;
  }

  lemma PolicyKeepsContext(env: Settings, s: State, k: nat, policy: Policy)
    ensures CheckPolicy(env, s, k, policy).state.context == s.context
  {
    hide HashedBytes;
  }

  lemma FinishRestores(r: Result, k: nat, c: Call, s: State, span: SpanContext, completed: bool)
    requires r.state.context == Enter(s, c).context
    ensures Finish(r, k, c, s.context, span, completed).state.context == s.context
  {
    hide CallImpact;
  }

  /** The whole context after a program is the context before it, whatever is
      raised inside and wherever. */
  lemma {:induction false} Restored(env: Settings, p: Program, s: State)
    ensures Eval(env, p, s).state.context == s.context
    decreases p
  {
    hide Gates, Finish, CheckBudget;
    match p
    case Skip =>
    case Raise(_) =>
    case Track =>
    case Both(first, second) =>
      Restored(env, first, s);
      Restored(env, second, Eval(env, first, s).state);
    case Try(body, bare, handler) =>
      Restored(env, body, s);
      Restored(env, handler, Eval(env, body, s).state);
    case LlmStart(answer) =>
      BudgetKeepsContext(env, s.(next := s.next + 1), s.next, answer);
    case Workflow(name, body) => Restored(env, body, InWorkflow(s, name));
    case Span(name, body) => Restored(env, body, InSpan(s, name));
    case Agent(name, body) => Restored(env, body, InAgent(s, name));
    case Attempt(index, body) => Restored(env, body, InAttempt(s, index));
    case Chain(id, isV4, op, body) => Restored(env, body, InChain(s, id, op));
    case Protect(c, body) =>
      ProtectRestored(env, c, body, s);
  }

  lemma CloseRestores(ran: Result, k: nat, c: Call, s: State, span: SpanContext)
    requires ran.state.context == Enter(s, c).context
    ensures Close(ran, k, c, s.context, span).state.context == s.context
  {
    hide Finish, Enter;
    FinishRestores(ran, k, c, s, span, false);
    FinishRestores(AfterBody(ran.state, k, c), k, c, s, span, true);
  }

  lemma ProtectRestored(env: Settings, c: Call, body: Program, s: State)
    ensures Eval(env, Protect(c, body), s).state.context == s.context
    decreases Protect(c, body), 0
  {
    hide Gates, Finish, Close, Enter, Eval;
    ProtectMeans(env, c, body, s);
    var k, span, entered := s.next, NextSpan(s), Enter(s, c);
    GatesKeepContext(env, entered, k, c, span);
    var gates := Gates(env, entered, k, c, span);
    FinishRestores(gates, k, c, s, span, false);
    Restored(env, body, Log(gates.state, BodyBegan(k)));
    CloseRestores(Eval(env, body, Log(gates.state, BodyBegan(k))), k, c, s, span);
  }

  // ------------------------------------------------------ spans and lockstep

  /** The two records of the current span agree. */
  predicate InStep(c: Context) {
    c.current.Some? ==> c.traceId == Some(c.current.value.traceId) && c.spanId == Some(c.current.value.spanId)
  }

  ghost predicate WasOpened(log: Trace, span: SpanContext) {
    log.On? && (log.event == Opened(span) || WasOpened(log.past, span))
  }

  /** A root, or the child of a span opened before: same trace, one level deeper. */
  ghost predicate Descends(log: Trace, span: SpanContext) {
    if span.parentSpanId.None? then span.depth == 0
    else exists parent :: WasOpened(log, parent) && span.traceId == parent.traceId
                          && span.parentSpanId == Some(parent.spanId) && span.depth == parent.depth + 1
  }

  /** Every user event saw the two records agree, every opened span descends, and
      protected calls start and end spans that were opened. */
  ghost predicate Sound(log: Trace) {
    log.On? ==>
      && Sound(log.past)
      && (log.event.Tracked? ==> InStep(log.event.context))
      && (log.event.Opened? ==> Descends(log.past, log.event.span))
      && (log.event.SpanStarted? || log.event.SpanEnded? ==> WasOpened(log.past, log.event.span))
  }

  ghost predicate Extends(log: Trace, past: Trace) {
    log == past || (log.On? && Extends(log.past, past))
  }

  lemma {:induction false} ExtendsFurther(c: Trace, b: Trace, a: Trace)
    requires Extends(c, b) && Extends(b, a)
    ensures Extends(c, a)
    decreases c
  {
    if c != b { ExtendsFurther(c.past, b, a); }
  }

  lemma {:induction false} StaysOpened(log: Trace, past: Trace, span: SpanContext)
    requires Extends(log, past) && WasOpened(past, span)
    ensures WasOpened(log, span)
    decreases log
  {
    if log != past { StaysOpened(log.past, past, span); }
  }

  /** What the state is before every piece of a program. */
  ghost predicate Placed(s: State) {
    Sound(s.log) && InStep(s.context) && (s.context.current.Some? ==> WasOpened(s.log, s.context.current.value))
  }

  ghost predicate Grown(t: State, s: State) {
    Sound(t.log) && Extends(t.log, s.log)
  }

  /** Any event that is not about a span or from the user. */
  lemma Adds(log: Trace, e: Event, past: Trace)
    requires Sound(log) && Extends(log, past)
    requires !e.Tracked? && !e.Opened? && !e.SpanStarted? && !e.SpanEnded?
    ensures Sound(On(log, e)) && Extends(On(log, e), past)
  {
  }

  lemma BudgetGrows(env: Settings, s: State, k: nat, answer: GateAnswer)
    requires Sound(s.log)
    ensures Grown(CheckBudget(env, s, k, answer).state, s)
  {
    hide IdentityOf, Sound, Extends;
    assert Extends(s.log, s.log) by { Refl(s.log); }
    var asked := On(s.log, BudgetAsked(k, HasWorkflow(env, s.context), answer));
    Adds(s.log, asked.event, s.log);
    if !answer.Bypassed? && HasWorkflow(env, s.context) {
      var sent := On(asked, GateSent(k, IdentityOf(Minted(s.next), s.context.callImpact)));
      Adds(asked, sent.event, s.log);
      if answer.GateAnswers? {
        Adds(asked, Captured(k, answer.verdict.reservation), s.log);
        Adds(sent, Captured(k, answer.verdict.reservation), s.log);
      }
    }
  }

  lemma Refl(log: Trace)
    ensures Extends(log, log)
  {
  }

  lemma PolicyGrows(env: Settings, s: State, k: nat, policy: Policy)
    requires Sound(s.log)
    ensures Grown(CheckPolicy(env, s, k, policy).state, s)
  {
    hide IdentityOf, Sound, Extends;
    Refl(s.log);
    var asked := On(s.log, PolicyAsked(k, policy));
    Adds(s.log, asked.event, s.log);
    var identity := ExecuteIdentity(Log(s, PolicyAsked(k, policy)));
    var sent := On(asked, ExecuteSent(k, identity, FirstRequest(s)));
    Adds(asked, sent.event, s.log);
    if policy.first.ExecuteAnswers? {
      var v := policy.first.verdict;
      var answered := On(sent, Captured(k, v.reservation));
      Adds(sent, answered.event, s.log);
      Adds(answered, ExecuteSent(k, identity, Again(FirstRequest(s), v)), s.log);
    }
  }

  lemma GatesGrow(env: Settings, s: State, k: nat, c: Call, span: SpanContext)
    requires Sound(s.log) && WasOpened(s.log, span)
    ensures Grown(Gates(env, s, k, c, span).state, s)
  {
    hide CheckBudget, CheckPolicy;
    var control := CheckControl(env, s, k, c.control).state;
    BudgetGrows(env, control, k, c.gate);
    var budget := CheckBudget(env, control, k, c.gate).state;
    ExtendsFurther(budget.log, control.log, s.log);
    StaysOpened(budget.log, s.log, span);
    var started := Log(budget, SpanStarted(k, span));
    PolicyGrows(env, started, k, c.policy);
    var policy := CheckPolicy(env, started, k, c.policy).state;
    ExtendsFurther(policy.log, started.log, s.log);
    var drained := Drain(policy, k).state;
    ExtendsFurther(drained.log, policy.log, s.log);
  }

  lemma FinishGrows(r: Result, k: nat, c: Call, outer: Context, span: SpanContext, completed: bool)
    requires Sound(r.state.log) && WasOpened(r.state.log, span)
    ensures Grown(Finish(r, k, c, outer, span, completed).state, r.state)
  {
    var left := Leave(r.state, k, outer, span, r.raised.Some?);
    assert Sound(left.log) && Extends(left.log, r.state.log);
    if r.state.minted.Some? { Adds(left.log, CancelSent(k, r.state.minted.value), r.state.log); }
  }

  lemma Descended(log: Trace, parent: SpanContext, spanId: Id)
    requires WasOpened(log, parent)
    ensures Descends(log, ChildSpan(parent, spanId))
  {
  }

  lemma EnterPlaced(s: State, c: Call)
    requires Placed(s)
    ensures Placed(Enter(s, c)) && Grown(Enter(s, c), s) && WasOpened(Enter(s, c).log, NextSpan(s))
  {
    hide CallImpact;
    var span := NextSpan(s);
    if s.context.current.Some? { Descended(s.log, s.context.current.value, span.spanId); }
    var pushed := On(s.log, Opened(span));
    OpensSound(s.log, span);
    StaysOn(pushed, Entered(s.next, c), span);
    Adds(pushed, Entered(s.next, c), s.log);
  }

  lemma WorkflowPlaced(s: State, name: Option<string>)
    requires Placed(s)
    ensures Placed(InWorkflow(s, name)) && Grown(InWorkflow(s, name), s)
  {
    hide Sound, Extends, WasOpened;
    OpensSound(s.log, SpanContext(Minted(s.next + 1), Minted(s.next + 2), None, 0));
  }

  lemma SpanPlaced(s: State, name: Option<string>)
    requires Placed(s)
    ensures Placed(InSpan(s, name)) && Grown(InSpan(s, name), s)
  {
    hide Sound, Extends, WasOpened;
    Refl(s.log);
    if s.context.current.Some? {
      var child := ChildSpan(s.context.current.value, NameOr(name, s.next));
      Descended(s.log, s.context.current.value, child.spanId);
      OpensSound(s.log, child);
    }
  }

  /** Wherever a program reports an event of the user, the two records of the
      current span agree; and every span is a root or the child of a span opened
      before it, with its parent's trace, its parent's id and one level more. */
  lemma {:induction false} EverSound(env: Settings, p: Program, s: State)
    requires Placed(s)
    ensures Grown(Eval(env, p, s).state, s)
    decreases p, 1
  {
    hide Gates, Finish, CheckBudget, Enter, Sound, Extends;
    Refl(s.log);
    match p
    case Skip =>
    case Raise(_) =>
    case Track => Samples(s);
    case Both(first, second) =>
      EverSound(env, first, s);
      FollowsSound(env, second, Eval(env, first, s).state, s, first);
    case Try(body, bare, handler) =>
      EverSound(env, body, s);
      FollowsSound(env, handler, Eval(env, body, s).state, s, body);
    case LlmStart(answer) =>
      var r := CheckBudget(env, s.(next := s.next + 1), s.next, answer);
      BudgetGrows(env, s.(next := s.next + 1), s.next, answer);
      if r.raised.Some? { Adds(r.state.log, Stashed(r.raised.value), s.log); }
    case Workflow(name, body) =>
      WorkflowPlaced(s, name);
      EverSound(env, body, InWorkflow(s, name));
      ExtendsFurther(Eval(env, body, InWorkflow(s, name)).state.log, InWorkflow(s, name).log, s.log);
    case Span(name, body) =>
      SpanPlaced(s, name);
      EverSound(env, body, InSpan(s, name));
      ExtendsFurther(Eval(env, body, InSpan(s, name)).state.log, InSpan(s, name).log, s.log);
    case Agent(name, body) => EverSound(env, body, InAgent(s, name));
    case Attempt(index, body) => EverSound(env, body, InAttempt(s, index));
    case Chain(id, isV4, op, body) => EverSound(env, body, InChain(s, id, op));
    case Protect(c, body) =>
      ProtectSound(env, c, body, s);
  }

  lemma Samples(s: State)
    requires Placed(s)
    ensures Grown(Log(s, Tracked(s.context)), s)
  {
  }

  lemma OpensSound(log: Trace, span: SpanContext)
    requires Sound(log) && Descends(log, span)
    ensures var more := On(log, Opened(span)); Sound(more) && Extends(more, log) && WasOpened(more, span)
  {
  }

  /** The second half of a program starts in the context of the first. */
  lemma FollowsSound(env: Settings, p: Program, t: State, s: State, first: Program)
    requires Placed(s) && t == Eval(env, first, s).state && Grown(t, s)
    ensures Grown(Eval(env, p, t).state, s)
    decreases p, 2
  {
    hide Eval, Sound, Extends;
    Restored(env, first, s);
    if s.context.current.Some? { StaysOpened(t.log, s.log, s.context.current.value); }
    EverSound(env, p, t);
    ExtendsFurther(Eval(env, p, t).state.log, t.log, s.log);
  }

  lemma StaysOn(log: Trace, e: Event, span: SpanContext)
    requires WasOpened(log, span)
    ensures WasOpened(On(log, e), span)
  {
  }

  lemma CloseGrows(ran: Result, k: nat, c: Call, outer: Context, span: SpanContext)
    requires Sound(ran.state.log) && WasOpened(ran.state.log, span)
    ensures Grown(Close(ran, k, c, outer, span).state, ran.state)
  {
    hide Finish, Sound, Extends, WasOpened;
    FinishGrows(ran, k, c, outer, span, false);
    if ran.raised.None? {
      var done := AfterBody(ran.state, k, c);
      Refl(ran.state.log);
      Adds(ran.state.log, BodyCompleted(k), ran.state.log);
      StaysOn(ran.state.log, BodyCompleted(k), span);
      FinishGrows(done, k, c, outer, span, true);
      ExtendsFurther(Finish(done, k, c, outer, span, true).state.log, done.state.log, ran.state.log);
    }
  }

  /** Past the gates the body starts in a state like any other. */
  lemma BodyPlaced(env: Settings, c: Call, s: State)
    requires Placed(s)
    ensures var gates := Gates(env, Enter(s, c), s.next, c, NextSpan(s)).state;
            && Grown(gates, s) && WasOpened(gates.log, NextSpan(s))
            && Placed(Log(gates, BodyBegan(s.next))) && Grown(Log(gates, BodyBegan(s.next)), s)
  {
    hide Gates, Sound, Extends, WasOpened;
    var k, span, entered := s.next, NextSpan(s), Enter(s, c);
    EnterPlaced(s, c);
    GatesGrow(env, entered, k, c, span);
    GatesKeepContext(env, entered, k, c, span);
    var gates := Gates(env, entered, k, c, span).state;
    ExtendsFurther(gates.log, entered.log, s.log);
    StaysOpened(gates.log, entered.log, span);
    Adds(gates.log, BodyBegan(k), s.log);
    StaysOn(gates.log, BodyBegan(k), span);
  }

  lemma ProtectSound(env: Settings, c: Call, body: Program, s: State)
    requires Placed(s)
    ensures Grown(Eval(env, Protect(c, body), s).state, s)
    decreases Protect(c, body), 0
  {
    hide Gates, Finish, Close, Enter, Sound, Extends, NextSpan, Eval, WasOpened;
    ProtectMeans(env, c, body, s);
    BodyPlaced(env, c, s);
    var k, span := s.next, NextSpan(s);
    var gates := Gates(env, Enter(s, c), k, c, span);
    FinishGrows(gates, k, c, s.context, span, false);
    ExtendsFurther(Finish(gates, k, c, s.context, span, false).state.log, gates.state.log, s.log);
    var began := Log(gates.state, BodyBegan(k));
    EverSound(env, body, began);
    var ran := Eval(env, body, began);
    ExtendsFurther(ran.state.log, began.log, s.log);
    StaysOn(gates.state.log, BodyBegan(k), span);
    StaysOpened(ran.state.log, began.log, span);
    CloseGrows(ran, k, c, s.context, span);
    ExtendsFurther(Close(ran, k, c, s.context, span).state.log, ran.state.log, s.log);
  }

  ghost predicate Happened(log: Trace, e: Event) {
    log.On? && (log.event == e || Happened(log.past, e))
  }

  lemma {:induction false} SoundMeans(log: Trace, e: Event)
    requires Sound(log) && Happened(log, e)
    ensures e.Tracked? ==> InStep(e.context)
    ensures e.Opened? ==> Descends(log, e.span)
    ensures e.SpanStarted? || e.SpanEnded? ==> WasOpened(log, e.span)
    decreases log
  {
    if log.event != e { SoundMeans(log.past, e); }
    assert forall span :: WasOpened(log.past, span) ==> WasOpened(log, span);
  }

  lemma {:induction false} OpenedHappened(log: Trace, span: SpanContext)
    requires WasOpened(log, span)
    ensures Happened(log, Opened(span))
    decreases log
  {
    if log.event != Opened(span) { OpenedHappened(log.past, span); }
  }

  /** The same for whole programs run from the start, event by event. */
  lemma EveryEvent(env: Settings, p: Program, e: Event)
    requires Happened(Eval(env, p, START).state.log, e)
    ensures e.Tracked? ==> InStep(e.context)
    ensures e.Opened? || e.SpanStarted? || e.SpanEnded? ==> Descends(Eval(env, p, START).state.log, e.span)
  {
    hide Eval;
    EverSound(env, p, START);
    var log := Eval(env, p, START).state.log;
    SoundMeans(log, e);
    if e.SpanStarted? || e.SpanEnded? {
      OpenedHappened(log, e.span);
      SoundMeans(log, Opened(e.span));
    }
  }
}
