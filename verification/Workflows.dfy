/** What a workflow, and the other blocks, mean for what happens inside them. */
module Workflows {
  import opened BusinessImpacts
  import opened CallRuns
  import opened Options
  import opened Programs
  import opened Scopes

  // ------------------------------------------------------------ the workflow

  /** A workflow is known from the block the call is in or, failing that, from the
      API key. Where one is, its state stops the call; where none is, nothing does. */
  lemma WorkflowStops(env: Settings, s: State, k: nat, state: ControlState)
    ensures s.context.workflowId.Some? || (env.bound.Some? && env.bound.value != "") ==>
              && CheckControl(env, s, k, KilledState).raised == Some(Killed)
              && CheckControl(env, s, k, PausedState).raised == Some(Paused)
              && CheckControl(env, s, k, Normal).raised == None
    ensures s.context.workflowId.None? && (env.bound.None? || env.bound.value == "") ==>
              CheckControl(env, s, k, state).raised == None
  {
  }

  /** And the pre-flight, unless it is skipped or has a cached answer inside a chain,
      asks /gate about it; where none is known it asks nothing and passes. */
  lemma WorkflowAsked(env: Settings, s: State, k: nat, answer: GateAnswer)
    requires !answer.Bypassed?
    ensures s.context.workflowId.Some? || (env.bound.Some? && env.bound.value != "") ==>
              (answer.GateAnswers? && answer.cached && s.context.chainId.Some?)
              || Happened(CheckBudget(env, s, k, answer).state.log,
                          GateSent(k, IdentityOf(Minted(s.next), s.context.callImpact)))
    ensures s.context.workflowId.None? && (env.bound.None? || env.bound.value == "") ==>
              && CheckBudget(env, s, k, answer).raised == None
              && CheckBudget(env, s, k, answer).state.log == On(s.log, BudgetAsked(k, false, answer))
  {
    hide IdentityOf;
    var identity := IdentityOf(Minted(s.next), s.context.callImpact);
    var sent := On(On(s.log, BudgetAsked(k, true, answer)), GateSent(k, identity));
    assert Happened(sent, sent.event);
    if answer.GateAnswers? {
      assert Happened(On(sent, Captured(k, answer.verdict.reservation)), sent.event);
      DecisionPermits(s, answer.verdict);
      forall t ensures GateDecision(t, answer.verdict).state == t { DecisionPermits(t, answer.verdict); }
    }
  }

  /** The events of `log` that are not in `past`, if they are none of a body's
      beginning and no request. */
  ghost predicate NoneRan(log: Trace, past: Trace) {
    log == past || (log.On? && !log.event.BodyBegan? && !log.event.GateSent? && !log.event.ExecuteSent?
                    && NoneRan(log.past, past))
  }

  lemma NoneRanThen(c: Trace, b: Trace, a: Trace)
    requires NoneRan(c, b) && NoneRan(b, a)
    ensures NoneRan(c, a)
    decreases c
  {
  }

  function Stopped(c: Call): Exn {
    if c.control == KilledState then (if c.sync then Refusal("NR-W002") else Killed)
    else (if c.sync then Refusal("NR-W003") else Paused)
  }

  lemma FinishRuns(r: Result, k: nat, c: Call, outer: Context, span: SpanContext)
    requires r.raised == Some(if c.control == KilledState then Killed else Paused)
    ensures var t := Finish(r, k, c, outer, span, false);
            NoneRan(t.state.log, r.state.log) && t.raised == Some(Stopped(c))
  {
  }

  lemma EnterRuns(s: State, c: Call)
    ensures NoneRan(Enter(s, c).log, s.log) && Enter(s, c).context.workflowId == s.context.workflowId
  {
    hide CallImpact, NextSpan;
    assert NoneRan(s.log, s.log) && NoneRan(On(s.log, Opened(NextSpan(s))), s.log);
  }

  lemma StoppedCall(env: Settings, c: Call, body: Program, s: State)
    requires c.control == KilledState || c.control == PausedState
    requires s.context.workflowId.Some? || (env.bound.Some? && env.bound.value != "")
    ensures var r := Eval(env, Protect(c, body), s);
            NoneRan(r.state.log, s.log) && r.raised == Some(Stopped(c))
  {
    hide Eval, Enter, NextSpan, Finish, Stopped;
    ProtectMeans(env, c, body, s);
    EnterRuns(s, c);
    var entered := Enter(s, c);
    WorkflowStops(env, entered, s.next, c.control);
    var stopped := CheckControl(env, entered, s.next, c.control);
    assert NoneRan(stopped.state.log, entered.log);
    FinishRuns(stopped, s.next, c, s.context, NextSpan(s));
    NoneRanThen(stopped.state.log, entered.log, s.log);
    NoneRanThen(Eval(env, Protect(c, body), s).state.log, stopped.state.log, s.log);
  }

  /** Inside a `workflow` block, whatever the API key is bound to, a call of a killed
      or paused workflow runs no body and sends no request, and says so. */
  lemma StoppedWorkflow(env: Settings, name: Option<string>, c: Call, body: Program, s: State)
    requires c.control == KilledState || c.control == PausedState
    ensures var r := Eval(env, Workflow(name, Protect(c, body)), s);
            && NoneRan(r.state.log, s.log)
            && r.raised == Some(match (c.control, c.sync)
                                case (KilledState, true) => Refusal("NR-W002")
                                case (KilledState, false) => Killed
                                case (_, true) => Refusal("NR-W003")
                                case (_, false) => Paused)
  {
    hide Eval;
    var inside := InWorkflow(s, name);
    BlockMeans(env, Workflow(name, Protect(c, body)), s);
    StoppedCall(env, c, body, inside);
    NoneRanThen(Eval(env, Protect(c, body), inside).state.log, inside.log, s.log);
  }

  // ------------------------------------------------------------ what is carried

  datatype Kind = OfWorkflow | OfAgent | OfAttempt | OfChain

  /** No block of a kind stands in a program. */
  predicate Without(p: Program, kind: Kind) {
    match p
    case Both(first, second) => Without(first, kind) && Without(second, kind)
    case Try(body, _, handler) => Without(body, kind) && Without(handler, kind)
    case Workflow(_, body) => kind != OfWorkflow && Without(body, kind)
    case Span(_, body) => Without(body, kind)
    case Agent(_, body) => kind != OfAgent && Without(body, kind)
    case Attempt(_, body) => kind != OfAttempt && Without(body, kind)
    case Chain(_, _, _, body) => kind != OfChain && Without(body, kind)
    case Protect(_, body) => Without(body, kind)
    case _ => true
  }

  /** What no block of the program sets is as it was. */
  predicate Carried(seen: Context, outer: Context, p: Program) {
    && (Without(p, OfWorkflow) ==> seen.workflowId == outer.workflowId)
    && (Without(p, OfAgent) ==> seen.agentId == outer.agentId)
    && (Without(p, OfAttempt) ==> seen.attemptIndex == outer.attemptIndex)
    && (Without(p, OfChain) ==> seen.chainId == outer.chainId && seen.chainOp == outer.chainOp)
  }

  /** Every user event between `past` and `log` carries what was set around `p`. */
  ghost predicate Carries(log: Trace, past: Trace, outer: Context, p: Program) {
    log == past || (log.On? && (log.event.Tracked? ==> Carried(log.event.context, outer, p))
                    && Carries(log.past, past, outer, p))
  }

  ghost predicate Untracked(log: Trace, past: Trace) {
    log == past || (log.On? && !log.event.Tracked? && Untracked(log.past, past))
  }

  lemma {:induction false} UntrackedCarries(log: Trace, past: Trace, outer: Context, p: Program)
    requires Untracked(log, past)
    ensures Carries(log, past, outer, p)
    decreases log
  {
    if log != past { UntrackedCarries(log.past, past, outer, p); }
  }

  lemma {:induction false} CarriesThen(c: Trace, b: Trace, a: Trace, outer: Context, p: Program)
    requires Carries(c, b, outer, p) && Carries(b, a, outer, p)
    ensures Carries(c, a, outer, p)
    decreases c
  {
    if c != b { CarriesThen(c.past, b, a, outer, p); }
  }

  /** From a part of a program, and from what is set around that part, to the whole. */
  ghost predicate Wraps(inner: Context, q: Program, outer: Context, p: Program) {
    forall seen :: Carried(seen, inner, q) ==> Carried(seen, outer, p)
  }

  lemma {:induction false} CarriesAround(log: Trace, past: Trace, inner: Context, q: Program,
                                         outer: Context, p: Program)
    requires Carries(log, past, inner, q) && Wraps(inner, q, outer, p)
    ensures Carries(log, past, outer, p)
    decreases log
  {
    hide Carried;
    if log != past { CarriesAround(log.past, past, inner, q, outer, p); }
  }

  lemma {:induction false} UntrackedThen(c: Trace, b: Trace, a: Trace)
    requires Untracked(c, b) && Untracked(b, a)
    ensures Untracked(c, a)
    decreases c
  {
    if c != b { UntrackedThen(c.past, b, a); }
  }

  lemma BudgetUntracked(env: Settings, s: State, k: nat, answer: GateAnswer)
    ensures Untracked(CheckBudget(env, s, k, answer).state.log, s.log)
  {
    hide IdentityOf;
    var asked := On(s.log, BudgetAsked(k, HasWorkflow(env, s.context), answer));
    assert Untracked(asked, s.log);
    var sent := On(asked, GateSent(k, IdentityOf(Minted(s.next), s.context.callImpact)));
    assert Untracked(sent, s.log);
    if answer.GateAnswers? {
      forall t ensures GateDecision(t, answer.verdict).state == t { DecisionPermits(t, answer.verdict); }
      assert Untracked(On(asked, Captured(k, answer.verdict.reservation)), s.log);
    }
  }

  lemma PolicyUntracked(env: Settings, s: State, k: nat, policy: Policy)
    ensures Untracked(CheckPolicy(env, s, k, policy).state.log, s.log)
  {
    hide IdentityOf, Settle, Recheck, Caught;
    AnyAnswerKeepsState(env, policy);
    var asked := On(s.log, PolicyAsked(k, policy));
    assert Untracked(asked, s.log);
    var sent := On(asked, ExecuteSent(k, ExecuteIdentity(Log(s, PolicyAsked(k, policy))), FirstRequest(s)));
    assert Untracked(sent, s.log);
    if policy.first.ExecuteAnswers? {
      assert Untracked(On(sent, Captured(k, policy.first.verdict.reservation)), s.log);
    }
  }

  lemma GatesUntracked(env: Settings, s: State, k: nat, c: Call, span: SpanContext)
    ensures var t := Gates(env, s, k, c, span).state; Untracked(t.log, s.log) && t.context == s.context
  {
    hide CheckBudget, CheckPolicy;
    var control := CheckControl(env, s, k, c.control).state;
    assert Untracked(control.log, s.log);
    GatesKeep(env, s, k, c);
    GatesKeep(env, control, k, c);
    BudgetUntracked(env, control, k, c.gate);
    var budget := CheckBudget(env, control, k, c.gate).state;
    UntrackedThen(budget.log, control.log, s.log);
    var started := Log(budget, SpanStarted(k, span));
    assert Untracked(started.log, s.log);
    GatesKeep(env, started, k, c);
    PolicyUntracked(env, started, k, c.policy);
    var policy := CheckPolicy(env, started, k, c.policy).state;
    UntrackedThen(policy.log, started.log, s.log);
  }

  lemma FinishUntracked(r: Result, k: nat, c: Call, outer: Context, span: SpanContext, completed: bool)
    ensures Untracked(Finish(r, k, c, outer, span, completed).state.log, r.state.log)
  {
    assert Untracked(Leave(r.state, k, outer, span, r.raised.Some?).log, r.state.log);
  }

  lemma CloseUntracked(ran: Result, k: nat, c: Call, outer: Context, span: SpanContext)
    ensures Untracked(Close(ran, k, c, outer, span).state.log, ran.state.log)
  {
    hide Finish;
    FinishUntracked(ran, k, c, outer, span, false);
    var done := AfterBody(ran.state, k, c);
    FinishUntracked(done, k, c, outer, span, true);
    assert Untracked(done.state.log, ran.state.log);
    UntrackedThen(Finish(done, k, c, outer, span, true).state.log, done.state.log, ran.state.log);
  }

  lemma EnterUntracked(s: State, c: Call)
    ensures Untracked(Enter(s, c).log, s.log)
    ensures var inner := Enter(s, c).context;
            && inner.workflowId == s.context.workflowId && inner.agentId == s.context.agentId
            && inner.attemptIndex == s.context.attemptIndex && inner.chainId == s.context.chainId
            && inner.chainOp == s.context.chainOp
  {
    hide CallImpact, NextSpan;
    assert Untracked(On(s.log, Opened(NextSpan(s))), s.log);
  }

  lemma ProtectCarries(env: Settings, c: Call, body: Program, s: State)
    ensures Carries(Eval(env, Protect(c, body), s).state.log, s.log, s.context, Protect(c, body))
    decreases Protect(c, body), 0
  {
    hide Eval, Enter, NextSpan, Gates, Finish, Close, Carried;
    var p, span, entered := Protect(c, body), NextSpan(s), Enter(s, c);
    ProtectMeans(env, c, body, s);
    EnterUntracked(s, c);
    GatesUntracked(env, entered, s.next, c, span);
    var gates := Gates(env, entered, s.next, c, span);
    UntrackedThen(gates.state.log, entered.log, s.log);
    if gates.raised.Some? {
      FinishUntracked(gates, s.next, c, s.context, span, false);
      UntrackedThen(Finish(gates, s.next, c, s.context, span, false).state.log, gates.state.log, s.log);
      UntrackedCarries(Eval(env, p, s).state.log, s.log, s.context, p);
    } else {
      var began := Log(gates.state, BodyBegan(s.next));
      assert Untracked(began.log, s.log);
      UntrackedCarries(began.log, s.log, s.context, p);
      EventsCarry(env, body, began);
      var ran := Eval(env, body, began);
      ProtectAround(c, body, began.context, s.context);
      CarriesAround(ran.state.log, began.log, began.context, body, s.context, p);
      CarriesThen(ran.state.log, began.log, s.log, s.context, p);
      CloseUntracked(ran, s.next, c, s.context, span);
      UntrackedCarries(Eval(env, p, s).state.log, ran.state.log, s.context, p);
      CarriesThen(Eval(env, p, s).state.log, ran.state.log, s.log, s.context, p);
    }
  }

  lemma ProtectAround(c: Call, body: Program, inner: Context, outer: Context)
    requires inner.workflowId == outer.workflowId && inner.agentId == outer.agentId
    requires inner.attemptIndex == outer.attemptIndex
    requires inner.chainId == outer.chainId && inner.chainOp == outer.chainOp
    ensures Wraps(inner, body, outer, Protect(c, body))
  {
  }

  /** Every user event carries the workflow, the agent, the attempt and the chain of
      the innermost block around it that sets them. */
  lemma {:induction false} EventsCarry(env: Settings, p: Program, s: State)
    ensures Carries(Eval(env, p, s).state.log, s.log, s.context, p)
    decreases p, 1
  {
    hide Carried, Gates, Finish, Close, CheckBudget, Enter, InWorkflow, InSpan, InAgent, InAttempt, InChain;
    match p
    case Skip =>
    case Raise(_) =>
    case Track => assert Carried(s.context, s.context, p) by { CarriedSelf(s.context, p); }
    case Both(first, second) =>
      PartsAround(p, s.context);
      EventsCarry(env, first, s);
      Restored(env, first, s);
      var r := Eval(env, first, s);
      CarriesAround(r.state.log, s.log, s.context, first, s.context, p);
      if r.raised.None? { Continues(env, p, second, r.state, s); }
    case Try(body, bare, handler) =>
      PartsAround(p, s.context);
      EventsCarry(env, body, s);
      Restored(env, body, s);
      var r := Eval(env, body, s);
      CarriesAround(r.state.log, s.log, s.context, body, s.context, p);
      if r.raised.Some? && (bare || IsException(r.raised.value)) { Continues(env, p, handler, r.state, s); }
    case LlmStart(answer) =>
      BudgetUntracked(env, s.(next := s.next + 1), s.next, answer);
      var r := CheckBudget(env, s.(next := s.next + 1), s.next, answer);
      if r.raised.Some? { assert Untracked(On(r.state.log, Stashed(r.raised.value)), s.log); }
      UntrackedCarries(Eval(env, p, s).state.log, s.log, s.context, p);
    case Protect(c, body) => ProtectCarries(env, c, body, s);
    case _ => BlockCarries(env, p, s);
  }

  lemma CarriedSelf(outer: Context, p: Program)
    ensures Carried(outer, outer, p)
  {
  }

  lemma PartsAround(p: Program, outer: Context)
    ensures p.Both? ==> Wraps(outer, p.first, outer, p) && Wraps(outer, p.second, outer, p)
    ensures p.Try? ==> Wraps(outer, p.body, outer, p) && Wraps(outer, p.handler, outer, p)
  {
  }

  /** A part that runs after another one has restored the variables. */
  lemma Continues(env: Settings, p: Program, next: Program, from: State, s: State)
    requires from.context == s.context && Wraps(s.context, next, s.context, p)
    requires Carries(from.log, s.log, s.context, p)
    ensures Carries(Eval(env, next, from).state.log, s.log, s.context, p)
    decreases next, 2
  {
    hide Eval, Carried, Wraps;
    EventsCarry(env, next, from);
    var end := Eval(env, next, from).state;
    CarriesAround(end.log, from.log, s.context, next, s.context, p);
    CarriesThen(end.log, from.log, s.log, s.context, p);
  }

  /** Where a block runs its body: one variable of its own set, nothing tracked. */
  function InBlock(p: Program, s: State): State
    requires p.Workflow? || p.Span? || p.Agent? || p.Attempt? || p.Chain?
  {
    match p
    case Workflow(name, _) => InWorkflow(s, name)
    case Span(name, _) => InSpan(s, name)
    case Agent(name, _) => InAgent(s, name)
    case Attempt(index, _) => InAttempt(s, index)
    case Chain(id, _, op, _) => InChain(s, id, op)
  }

  lemma BlockWraps(p: Program, s: State)
    requires p.Workflow? || p.Span? || p.Agent? || p.Attempt? || p.Chain?
    ensures Untracked(InBlock(p, s).log, s.log)
    ensures Wraps(InBlock(p, s).context, p.body, s.context, p)
  {
    hide RootSpan, ChildSpan;
  }

  lemma BlockRuns(env: Settings, p: Program, s: State)
    requires p.Workflow? || p.Span? || p.Agent? || p.Attempt? || p.Chain?
    ensures Eval(env, p, s).state.log
            == if p.Chain? && !(p.op in CHAIN_OPS && p.isV4) then s.log else Eval(env, p.body, InBlock(p, s)).state.log
  {
    hide Eval, InWorkflow, InSpan, InAgent, InAttempt, InChain;
    BlockMeans(env, p, s);
  }

  lemma BlockCarries(env: Settings, p: Program, s: State)
    requires p.Workflow? || p.Span? || p.Agent? || p.Attempt? || p.Chain?
    ensures Carries(Eval(env, p, s).state.log, s.log, s.context, p)
    decreases p, 0
  {
    hide Eval, Carried, Wraps, InBlock;
    BlockWraps(p, s);
    BlockRuns(env, p, s);
    var inside := InBlock(p, s);
    EventsCarry(env, p.body, inside);
    var end := Eval(env, p.body, inside).state;
    CarriesAround(end.log, inside.log, inside.context, p.body, s.context, p);
    UntrackedCarries(inside.log, s.log, s.context, p);
    CarriesThen(end.log, inside.log, s.log, s.context, p);
  }

  /** Every user event of the run satisfies a claim about its context. */
  ghost predicate EachTracked(log: Trace, past: Trace, claim: Context -> bool) {
    log == past || (log.On? && (log.event.Tracked? ==> claim(log.event.context)) && EachTracked(log.past, past, claim))
  }

  lemma {:induction false} CarriesEach(log: Trace, past: Trace, outer: Context, p: Program, claim: Context -> bool)
    requires Carries(log, past, outer, p) && forall seen :: Carried(seen, outer, p) ==> claim(seen)
    ensures EachTracked(log, past, claim)
    decreases log
  {
    hide Carried;
    if log != past { CarriesEach(log.past, past, outer, p, claim); }
  }

  lemma {:induction false} EachTrackedThen(c: Trace, b: Trace, a: Trace, claim: Context -> bool)
    requires EachTracked(c, b, claim) && Untracked(b, a)
    ensures EachTracked(c, a, claim)
    decreases c
  {
    if c == b { NothingTracked(b, a, claim); } else { EachTrackedThen(c.past, b, a, claim); }
  }

  lemma {:induction false} NothingTracked(b: Trace, a: Trace, claim: Context -> bool)
    requires Untracked(b, a)
    ensures EachTracked(b, a, claim)
    decreases b
  {
    if b != a { NothingTracked(b.past, a, claim); }
  }

  lemma BlockTracks(env: Settings, p: Program, s: State, claim: Context -> bool)
    requires p.Workflow? || p.Agent? || p.Attempt? || (p.Chain? && p.op in CHAIN_OPS && p.isV4)
    requires forall seen :: Carried(seen, InBlock(p, s).context, p.body) ==> claim(seen)
    ensures EachTracked(Eval(env, p, s).state.log, s.log, claim)
  {
    hide Eval, Carried, InBlock, Wraps;
    BlockWraps(p, s);
    BlockRuns(env, p, s);
    var inside := InBlock(p, s);
    EventsCarry(env, p.body, inside);
    CarriesEach(Eval(env, p.body, inside).state.log, inside.log, inside.context, p.body, claim);
    EachTrackedThen(Eval(env, p.body, inside).state.log, inside.log, s.log, claim);
  }

  /** What a block names is on every user event in it, those of calls and of nested
      blocks of other kinds included: the workflow, */
  lemma WorkflowNames(env: Settings, name: string, body: Program, s: State)
    requires name != "" && Without(body, OfWorkflow)
    ensures EachTracked(Eval(env, Workflow(Some(name), body), s).state.log, s.log,
                        (seen: Context) => seen.workflowId == Some(Named(name)))
  {
    hide Eval;
    BlockTracks(env, Workflow(Some(name), body), s, (seen: Context) => seen.workflowId == Some(Named(name)));
  }

  /** (a block without a name, or with an empty one, gets a name of its own) */
  lemma UnnamedWorkflow(env: Settings, name: Option<string>, body: Program, s: State)
    requires (name.None? || name.value == "") && Without(body, OfWorkflow)
    ensures EachTracked(Eval(env, Workflow(name, body), s).state.log, s.log,
                        (seen: Context) => seen.workflowId == Some(Minted(s.next)))
  {
    hide Eval;
    BlockTracks(env, Workflow(name, body), s, (seen: Context) => seen.workflowId == Some(Minted(s.next)));
  }

  /** the agent, */
  lemma AgentNames(env: Settings, name: string, body: Program, s: State)
    requires name != "" && Without(body, OfAgent)
    ensures EachTracked(Eval(env, Agent(Some(name), body), s).state.log, s.log,
                        (seen: Context) => seen.agentId == Some(Named(name)))
  {
    hide Eval;
    BlockTracks(env, Agent(Some(name), body), s, (seen: Context) => seen.agentId == Some(Named(name)));
  }

  /** the attempt */
  lemma AttemptCounts(env: Settings, index: int, body: Program, s: State)
    requires Without(body, OfAttempt)
    ensures EachTracked(Eval(env, Attempt(index, body), s).state.log, s.log,
                        (seen: Context) => seen.attemptIndex == index)
  {
    hide Eval;
    BlockTracks(env, Attempt(index, body), s, (seen: Context) => seen.attemptIndex == index);
  }

  /** and the chain with its operation, for the four operations there are; any other
      is refused, and so is an id that is no version 4 UUID. */
  lemma ChainNames(env: Settings, id: string, isV4: bool, op: string, body: Program, s: State)
    ensures isV4 && op in {"start", "continue", "end", "auto"} && Without(body, OfChain) ==>
              EachTracked(Eval(env, Chain(id, isV4, op, body), s).state.log, s.log,
                          (seen: Context) => seen.chainId == Some(id) && seen.chainOp == op)
    ensures !isV4 || op !in {"start", "continue", "end", "auto"} ==>
              Eval(env, Chain(id, isV4, op, body), s) == Result(s, Some(ValueError))
  {
    BlockMeans(env, Chain(id, isV4, op, body), s);
    hide Eval;
    if isV4 && op in CHAIN_OPS && Without(body, OfChain) {
      BlockTracks(env, Chain(id, isV4, op, body), s,
                  (seen: Context) => seen.chainId == Some(id) && seen.chainOp == op);
    }
  }

  /** Outside all blocks nothing is set. */
  lemma OutsideBlocks(env: Settings, p: Program)
    requires Without(p, OfWorkflow) && Without(p, OfAgent) && Without(p, OfAttempt) && Without(p, OfChain)
    ensures EachTracked(Eval(env, p, START).state.log, Silence,
                        (seen: Context) => seen.workflowId == None && seen.agentId == None && seen.attemptIndex == 0
                                           && seen.chainId == None && seen.chainOp == "auto")
  {
    hide Eval;
    EventsCarry(env, p, START);
    CarriesEach(Eval(env, p, START).state.log, Silence, START.context, p,
                (seen: Context) => seen.workflowId == None && seen.agentId == None && seen.attemptIndex == 0
                                   && seen.chainId == None && seen.chainOp == "auto");
  }

  // ----------------------------------------------------------------- the stash

  /** A callback raises nothing but an interrupt: a kill, a pause and a budget
      decision are stashed last, and any other exception is dropped. */
  lemma CallbackStashes(env: Settings, answer: GateAnswer, s: State)
    ensures var asked := CheckBudget(env, s.(next := s.next + 1), s.next, answer);
            var r := Eval(env, LlmStart(answer), s);
            match asked.raised
            case Some(Killed) => r.raised.None? && r.state.stash == s.stash + [Killed]
            case Some(Paused) => r.raised.None? && r.state.stash == s.stash + [Paused]
            case Some(Budget) => r.raised.None? && r.state.stash == s.stash + [Budget]
            case Some(Interrupt(tag)) => r.raised == Some(Interrupt(tag)) && r.state.stash == s.stash
            case _ => r.raised.None? && r.state.stash == s.stash
  {
    hide CheckBudget;
    BudgetKeepsStash(env, s.(next := s.next + 1), s.next, answer);
  }

  lemma BudgetKeepsStash(env: Settings, s: State, k: nat, answer: GateAnswer)
    ensures CheckBudget(env, s, k, answer).state.stash == s.stash
  {
    hide IdentityOf;
    if answer.GateAnswers? {
      forall t ensures GateDecision(t, answer.verdict).state == t { DecisionPermits(t, answer.verdict); }
    }
  }

  /** The next protected call that every gate permits raises the oldest of them in
      place of running its body, and leaves the others. */
  lemma NextCallRaises(env: Settings, c: Call, body: Program, s: State)
    requires s.stash != []
    requires ControlPermits(HasWorkflow(env, s.context), c.control)
    requires BudgetPermits(HasWorkflow(env, s.context), c.gate)
    requires PolicyPermits(env.failOpen, c.policy)
    ensures var r := Eval(env, Protect(c, body), s);
            && r.state.stash == s.stash[1..]
            && r.raised == Some(if c.sync && s.stash[0] == Killed then Refusal("NR-W002")
                                else if c.sync && s.stash[0] == Paused then Refusal("NR-W003")
                                else s.stash[0])
  {
    hide Eval, CheckControl, CheckBudget, CheckPolicy, ControlPermits, BudgetPermits, PolicyPermits, CallImpact;
    ProtectMeans(env, c, body, s);
    var entered := Enter(s, c);
    assert entered.stash == s.stash && HasWorkflow(env, entered.context) == HasWorkflow(env, s.context);
    hide Enter, NextSpan;
    var k, span := s.next, NextSpan(s);
    var control := CheckControl(env, entered, k, c.control);
    ControlPermitted(env, entered, k, c.control);
    GatesKeep(env, entered, k, c);
    var budget := CheckBudget(env, control.state, k, c.gate);
    BudgetPermitted(env, control.state, k, c.gate);
    GatesKeep(env, control.state, k, c);
    var started := Log(budget.state, SpanStarted(k, span));
    PolicyPermitted(env, started, k, c.policy);
    GatesKeep(env, started, k, c);
    var policy := CheckPolicy(env, started, k, c.policy);
    assert Gates(env, entered, k, c, span) == Drain(policy.state, k);
  }

  // ------------------------------------------------------------ after the body

  /** What the body of a call makes of the state its gates leave. */
  function BodyOf(env: Settings, c: Call, body: Program, s: State): Result {
    Eval(env, body, Log(Gates(env, Enter(s, c), s.next, c, NextSpan(s)).state, BodyBegan(s.next)))
  }

  /** Once its body has returned, a call raises what recording it raises, if anything. */
  lemma RecordingRaises(env: Settings, c: Call, body: Program, s: State)
    requires Gates(env, Enter(s, c), s.next, c, NextSpan(s)).raised.None? && BodyOf(env, c, body, s).raised.None?
    requires c.trackFails != Some(Killed) && c.trackFails != Some(Paused)
    ensures Eval(env, Protect(c, body), s).raised == c.trackFails
  {
    hide Eval, Gates, Enter, NextSpan;
    ProtectMeans(env, c, body, s);
  }

  /** And what its body raises goes to the caller as it is, but for a kill and a pause. */
  lemma BodyRaises(env: Settings, c: Call, body: Program, s: State, e: Exn)
    requires Gates(env, Enter(s, c), s.next, c, NextSpan(s)).raised.None? && BodyOf(env, c, body, s).raised == Some(e)
    requires e != Killed && e != Paused
    ensures Eval(env, Protect(c, body), s).raised == Some(e)
  {
    hide Eval, Gates, Enter, NextSpan;
    ProtectMeans(env, c, body, s);
  }

  // ------------------------------------------------------- what a refusal raises

  /** What an answer to /gate raises: a malformed one a refusal, one made up for want
      of a gateway nothing, and a decision what it says. */
  lemma GateRaises(s: State, v: Verdict)
    ensures GateDecision(s, v).raised ==
            if !(v.source in {"gateway", "cached", "fallback", "local", "edge_lease"}
                 && v.decision in {"allow", "block", "soft_pass", "require_approval", "deny"})
            then Some(Refusal("malformed"))
            else if v.source == "fallback" then None
            else match v.decision
                 case "block" => Some(v.error)
                 case "deny" => Some(Refusal("NR-B006"))
                 case "require_approval" =>
                   if v.approvalId.None? || v.approvalId.value == "" then Some(Refusal("approval_id missing"))
                   else (match v.wait
                         case WaitApproved => None
                         case WaitDenied => Some(Refusal("NR-A011"))
                         case WaitTimeout => Some(Refusal("NR-A012"))
                         case WaitUnclear => Some(Refusal("NR-A012")))
                 case _ => None
  {
  }

  /** A production environment that asks to skip the pre-flight is refused. */
  lemma SkipRefused(env: Settings, s: State, k: nat)
    ensures CheckBudget(env, s, k, Bypassed(true)).raised == Some(Refusal("NR-S001"))
    ensures CheckBudget(env, s, k, Bypassed(false)).raised == None
  {
  }

  /** What the policy gate raises without the opt-out: the exception of a block unless
      it is taken for an outage, a refusal for an outage, for an approval without an
      id, not given, or asked for twice. */
  lemma PolicyRaises(env: Settings, s: State, k: nat, policy: Policy)
    requires !env.failOpen && policy.first.ExecuteAnswers? && policy.first.verdict.source == "gateway"
    ensures var v := policy.first.verdict;
            CheckPolicy(env, s, k, policy).raised ==
            match v.decision
            case "block" => Some(if TakenForOutage(v.error) then Refusal("policy engine unavailable") else v.error)
            case "require_approval" =>
              if v.approvalId.None? || v.approvalId.value == "" then Some(Refusal("NR-A004"))
              else if v.wait != WaitApproved then Some(Refusal("approval not granted"))
              else (match policy.second
                    case ExecuteFails(e) => Some(if TakenForOutage(e) then Refusal("policy engine unavailable") else e)
                    case ExecuteAnswers(w) =>
                      if w.decision == "require_approval" then Some(Refusal("NR-A015"))
                      else if w.decision == "block" then
                        Some(if TakenForOutage(w.error) then Refusal("policy engine unavailable") else w.error)
                      else if w.source in {"fallback", "NETWORK_ERROR", "GATEWAY_ERROR", "BREAKER_OPEN"} then
                        Some(Refusal("policy engine unavailable"))
                      else None)
            case _ => None
  {
    hide IdentityOf;
  }

  // ------------------------------------------------------------ user handlers

  /** A bare handler catches everything and any other all but interrupts; what it does
      not catch, and what was not raised, it leaves alone. */
  lemma HandlerCatches(env: Settings, body: Program, bare: bool, handler: Program, s: State)
    ensures var r := Eval(env, body, s);
            Eval(env, Try(body, bare, handler), s) ==
            match r.raised
            case None => r
            case Some(Interrupt(_)) => if bare then Eval(env, handler, r.state) else r
            case _ => Eval(env, handler, r.state)
  {
  }
}
