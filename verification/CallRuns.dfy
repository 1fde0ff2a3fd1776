/** What happens to each protected call over a whole run: the order of its gates,
    its body, its span and its cancellation, and the identity it sends. */
module CallRuns {
  import opened BusinessImpacts
  import opened Options
  import opened Programs

  // -------------------------------------------------- what lets a call through

  predicate ControlPermits(hasWorkflow: bool, state: ControlState) {
    hasWorkflow ==> state == Normal
  }

  /** The pre-flight lets a call proceed: skipped by the environment, nothing to
      ask about, unreachable, or a body that says so. */
  predicate BudgetPermits(hasWorkflow: bool, answer: GateAnswer) {
    match answer
    case Bypassed(refused) => !refused
    case GateFails(_) => !hasWorkflow
    case GateUnreachable => true
    case GateAnswers(_, v) =>
      !hasWorkflow ||
      (v.source in {"gateway", "cached", "fallback", "local", "edge_lease"} &&
       v.decision in {"allow", "block", "soft_pass", "require_approval", "deny"} &&
       (v.source == "fallback" || v.decision == "allow" || v.decision == "soft_pass" ||
        (v.decision == "require_approval" && v.approvalId.Some? && v.approvalId.value != "" && v.wait == WaitApproved)))
  }

  /** A transport error, a kill, and whatever is not of the SDK. */
  predicate TakenForOutage(e: Exn) {
    e.Transport? || e.Killed? || e.ValueError? || e.TypeError? || e.UserError?
  }

  predicate Accepts(failOpen: bool, answer: ExecuteAnswer) {
    match answer
    case ExecuteFails(e) => failOpen && TakenForOutage(e)
    case ExecuteAnswers(v) =>
      if v.decision == "block" then failOpen && TakenForOutage(v.error)
      else
        && v.decision != "require_approval"
        && (v.source in {"fallback", "NETWORK_ERROR", "GATEWAY_ERROR", "BREAKER_OPEN"} ==> failOpen)
  }

  /** The policy gate lets a call proceed: accepted at once, or approved and
      accepted on the second request. */
  predicate PolicyPermits(failOpen: bool, policy: Policy) {
    || Accepts(failOpen, policy.first)
    || (policy.first.ExecuteAnswers? && policy.first.verdict.decision == "require_approval"
        && policy.first.verdict.approvalId.Some? && policy.first.verdict.approvalId.value != ""
        && policy.first.verdict.wait == WaitApproved && Accepts(failOpen, policy.second))
  }

  // --------------------------------------------------------- one call's events

  datatype Stage =
    | Unseen
    | Bare                // a pre-flight of a callback, outside any protected call
    | Inside
    | ControlOk
    | BudgetOk
    | SpanOpen
    | PolicyOk
    | Clear
    | Stopped             // a gate said no
    | Body
    | Done                // the body returned
    | Ended
    | Cancelled
    | Broken              // an event out of order

  /** What one call's events amount to. */
  datatype Account = Account(
    stage: Stage,
    completed: bool,
    ends: nat,                                  // span_end events
    captured: Option<Option<Execution>>,        // what the last answer left
    cancelled: Option<Execution>,
    gated: Option<Identity>,                    // what /gate was told
    named: Option<Identity>,                    // what /execute was told first
    envelope: Option<Impact>,                   // the envelope of the call that entered
    agrees: bool                                // every request told the same
  )

  const NOTHING := Account(Unseen, false, 0, None, None, None, None, None, true)

  function NextStage(failOpen: bool, stage: Stage, e: Event): Stage {
    match e
    case Entered(_, _) => if stage == Unseen then Inside else Broken
    case ControlAsked(_, has, state) =>
      if stage != Inside then Broken else if ControlPermits(has, state) then ControlOk else Stopped
    case BudgetAsked(_, has, answer) =>
      if stage == Unseen then Bare
      else if stage != ControlOk then Broken
      else if BudgetPermits(has, answer) then BudgetOk else Stopped
    case SpanStarted(_, _) => if stage == BudgetOk then SpanOpen else Broken
    case PolicyAsked(_, policy) =>
      if stage != SpanOpen then Broken else if PolicyPermits(failOpen, policy) then PolicyOk else Stopped
    case Drained(_, found) =>
      if stage != PolicyOk then Broken else if found.None? then Clear else Stopped
    case BodyBegan(_) => if stage == Clear then Body else Broken
    case BodyCompleted(_) => if stage == Body then Done else Broken
    case SpanEnded(_, _, failed) =>
      if stage == Stopped || stage == Body then (if failed then Ended else Broken)
      else if stage == Done then Ended else Broken
    case CancelSent(_, _) => if stage == Ended then Cancelled else Broken
    case GateSent(_, _) => if stage == Bare || stage == BudgetOk || stage == Stopped then stage else Broken
    case Captured(_, _) => if stage == Unseen || stage == Body || stage == Ended then Broken else stage
    case ExecuteSent(_, _, _) => if stage == PolicyOk || stage == Stopped then stage else Broken
    case _ => stage
  }

  /** Whether a request tells the backend what the requests before it told, and
      the envelope of the call itself. */
  predicate Agrees(a: Account, identity: Identity) {
    && (a.gated.Some? ==> identity == a.gated.value)
    && (a.named.Some? ==> identity == a.named.value)
    && (a.envelope.Some? ==> identity.impact == a.envelope)
  }

  function Advance(failOpen: bool, a: Account, e: Event): Account {
    var b := a.(stage := NextStage(failOpen, a.stage, e));
    match e
    case Entered(_, what) => b.(envelope := Some(CallImpact(what)))
    case BodyCompleted(_) => b.(completed := true)
    case SpanEnded(_, _, _) => b.(ends := a.ends + 1)
    case Captured(_, reservation) => b.(captured := Some(reservation))
    case CancelSent(_, execution) => if a.completed then b.(stage := Broken) else b.(cancelled := Some(execution))
    case GateSent(_, identity) =>
      b.(gated := Some(identity), agrees := a.agrees && Agrees(a, identity) && WellBound(identity))
    case ExecuteSent(_, identity, _) =>
      b.(named := Some(identity), agrees := a.agrees && Agrees(a, identity) && WellBound(identity))
    case _ => b
  }

  /** The digest is taken over the very envelope sent with it. */
  predicate WellBound(identity: Identity) {
    identity.hashed == HashedBytes(if identity.impact.Some? then identity.impact.value else NoImpact)
  }

  function CallOf(e: Event): Option<nat> {
    if e.Tracked? || e.Opened? || e.Stashed? then None else Some(e.call)
  }

  function AccountOf(failOpen: bool, log: Trace, k: nat): Account {
    match log
    case Silence => NOTHING
    case On(past, e) =>
      if CallOf(e) == Some(k) then Advance(failOpen, AccountOf(failOpen, past, k), e) else AccountOf(failOpen, past, k)
  }

  // ------------------------------------------------------------- conservation

  /** Operation ids told to /gate. */
  ghost function GateOps(log: Trace): set<Id> {
    match log
    case Silence => {}
    case On(past, e) => GateOps(past) + if e.GateSent? then {e.identity.operationId} else {}
  }

  ghost predicate DistinctOps(log: Trace) {
    log.On? ==>
      && DistinctOps(log.past)
      && (log.event.GateSent? ==> log.event.identity.operationId !in GateOps(log.past))
  }

  /** Stashed decisions raised at a protected call, oldest first. */
  ghost function RaisedFrom(log: Trace): seq<Exn> {
    match log
    case Silence => []
    case On(past, e) => RaisedFrom(past) + if e.Drained? && e.found.Some? then [e.found.value] else []
  }

  ghost function StashedIn(log: Trace): seq<Exn> {
    match log
    case Silence => []
    case On(past, e) => StashedIn(past) + if e.Stashed? then [e.error] else []
  }

  /** What was stashed has been raised, in that order, or waits. */
  ghost predicate Balanced(log: Trace, stash: seq<Exn>) {
    RaisedFrom(log) + stash == StashedIn(log)
  }

  ghost predicate FreshOps(log: Trace, next: nat) {
    DistinctOps(log) && forall op :: op in GateOps(log) ==> op.Minted? && op.n < next
  }

  // --------------------------------------------------------------- the gates

  ghost predicate Unused(failOpen: bool, log: Trace, next: nat) {
    forall k: nat :: k >= next ==> AccountOf(failOpen, log, k) == NOTHING
  }

  ghost predicate Ready(failOpen: bool, s: State) {
    Unused(failOpen, s.log, s.next) && FreshOps(s.log, s.next) && Balanced(s.log, s.stash)
  }

  /** Nothing but call `k` has moved on. */
  ghost predicate OnlyCall(failOpen: bool, k: nat, t: State, s: State) {
    && Ready(failOpen, t) && t.next >= s.next
    && forall j: nat :: j != k ==> AccountOf(failOpen, t.log, j) == AccountOf(failOpen, s.log, j)
  }

  /** One more event, of call `k` or of none, advances the account of that call. */
  lemma Moves(failOpen: bool, log: Trace, e: Event)
    ensures forall j: nat :: CallOf(e) != Some(j) ==> AccountOf(failOpen, On(log, e), j) == AccountOf(failOpen, log, j)
    ensures CallOf(e).Some? ==>
              AccountOf(failOpen, On(log, e), CallOf(e).value)
              == Advance(failOpen, AccountOf(failOpen, log, CallOf(e).value), e)
  {
    hide HashedBytes, Advance;
  }

  lemma BalanceKeeps(log: Trace, stash: seq<Exn>, e: Event)
    requires Balanced(log, stash) && !e.Stashed? && !(e.Drained? && e.found.Some?)
    ensures Balanced(On(log, e), stash)
  {
    assert RaisedFrom(log) + [] == RaisedFrom(log) && StashedIn(log) + [] == StashedIn(log);
  }

  lemma Keeps(failOpen: bool, s: State, e: Event)
    requires Ready(failOpen, s) && !e.GateSent? && !e.Stashed? && !(e.Drained? && e.found.Some?)
    requires CallOf(e).Some? ==> CallOf(e).value < s.next
    ensures Ready(failOpen, Log(s, e))
    ensures forall j: nat :: CallOf(e) != Some(j) ==>
              AccountOf(failOpen, On(s.log, e), j) == AccountOf(failOpen, s.log, j)
    ensures CallOf(e).Some? ==>
              AccountOf(failOpen, On(s.log, e), CallOf(e).value)
              == Advance(failOpen, AccountOf(failOpen, s.log, CallOf(e).value), e)
  {
    hide HashedBytes, Advance, Balanced;
    Moves(failOpen, s.log, e);
    BalanceKeeps(s.log, s.stash, e);
    assert GateOps(On(s.log, e)) == GateOps(s.log);
  }

  lemma Sends(failOpen: bool, s: State, k: nat, identity: Identity)
    requires Ready(failOpen, s) && k < s.next && identity.operationId == Minted(s.next)
    ensures Ready(failOpen, Log(s.(next := s.next + 1), GateSent(k, identity)))
    ensures forall j: nat :: k != j ==>
              AccountOf(failOpen, On(s.log, GateSent(k, identity)), j) == AccountOf(failOpen, s.log, j)
    ensures AccountOf(failOpen, On(s.log, GateSent(k, identity)), k)
            == Advance(failOpen, AccountOf(failOpen, s.log, k), GateSent(k, identity))
  {
    hide HashedBytes, Advance, Balanced;
    Moves(failOpen, s.log, GateSent(k, identity));
    BalanceKeeps(s.log, s.stash, GateSent(k, identity));
  }

  /** Minting an id or restoring a variable is no event. */
  lemma Unmoved(failOpen: bool, s: State, t: State)
    requires Ready(failOpen, s) && t.log == s.log && t.stash == s.stash && t.next >= s.next
    ensures Ready(failOpen, t)
  {
    hide AccountOf, Balanced;
  }

  lemma ControlStep(env: Settings, s: State, k: nat, state: ControlState)
    requires Ready(env.failOpen, s) && k < s.next && AccountOf(env.failOpen, s.log, k).stage == Inside
    ensures var r, a := CheckControl(env, s, k, state), AccountOf(env.failOpen, s.log, k);
            && OnlyCall(env.failOpen, k, r.state, s) && r.state == s.(log := r.state.log)
            && AccountOf(env.failOpen, r.state.log, k) == a.(stage := if r.raised.None? then ControlOk else Stopped)
            && (r.raised.None? <==> ControlPermits(HasWorkflow(env, s.context), state))
  {
    hide Ready, AccountOf;
    Keeps(env.failOpen, s, ControlAsked(k, HasWorkflow(env, s.context), state));
  }

  /** What call `k` has captured is what the variable holds; before it captured
      anything the variable holds what it held. */
  predicate HoldsLast(a: Account, minted: Option<Execution>, before: Option<Execution>) {
    minted == if a.captured.Some? then a.captured.value else before
  }

  /** The identity told to /gate is the one the context still holds. */
  predicate Told(a: Account, s: State) {
    && a.agrees && a.named.None?
    && (a.gated.Some? ==> s.operationId.Some? && a.gated.value == IdentityOf(s.operationId.value, s.context.callImpact))
  }

  lemma DecisionPermits(s: State, v: Verdict)
    ensures GateDecision(s, v).raised.None? <==> BudgetPermits(true, GateAnswers(false, v))
    ensures GateDecision(s, v).state == s
  {
  }

  lemma BudgetPermitted(env: Settings, s: State, k: nat, answer: GateAnswer)
    ensures CheckBudget(env, s, k, answer).raised.None? <==> BudgetPermits(HasWorkflow(env, s.context), answer)
  {
    hide IdentityOf;
    if answer.GateAnswers? { DecisionPermits(s, answer.verdict); }
  }

  /** The account of a call that has told and captured nothing so far. */
  predicate Blank(a: Account) {
    a == NOTHING.(stage := a.stage, envelope := a.envelope)
  }

  /** The context still holds the envelope of the call. */
  predicate Enveloped(a: Account, s: State) {
    a.envelope.Some? ==> a.envelope == s.context.callImpact
  }

  /** What the pre-flight leaves: told at most once, with the context's envelope. */
  ghost predicate AfterPreflight(a: Account, s: State, before: Option<Execution>) {
    Told(a, s) && HoldsLast(a, s.minted, before) && !a.completed && a.ends == 0 && a.cancelled.None?
  }

  lemma AsksFirst(env: Settings, s: State, k: nat, answer: GateAnswer)
    requires Ready(env.failOpen, s) && k < s.next && Blank(AccountOf(env.failOpen, s.log, k))
    requires var stage := AccountOf(env.failOpen, s.log, k).stage; stage == ControlOk || stage == Unseen
    ensures var permits := BudgetPermits(HasWorkflow(env, s.context), answer);
            var asked := Log(s, BudgetAsked(k, HasWorkflow(env, s.context), answer));
            var stage := AccountOf(env.failOpen, s.log, k).stage;
            && OnlyCall(env.failOpen, k, asked, s)
            && AccountOf(env.failOpen, asked.log, k)
               == AccountOf(env.failOpen, s.log, k).(
                    stage := if stage == Unseen then Bare else if permits then BudgetOk else Stopped)
  {
    hide Ready, AccountOf;
    Keeps(env.failOpen, s, BudgetAsked(k, HasWorkflow(env, s.context), answer));
  }

  lemma TellsGate(failOpen: bool, s: State, k: nat)
    requires Ready(failOpen, s) && k < s.next && Blank(AccountOf(failOpen, s.log, k))
    requires Enveloped(AccountOf(failOpen, s.log, k), s)
    requires var stage := AccountOf(failOpen, s.log, k).stage; stage == BudgetOk || stage == Bare || stage == Stopped
    ensures var identity := IdentityOf(Minted(s.next), s.context.callImpact);
            var sent := Log(s.(operationId := Some(Minted(s.next)), next := s.next + 1), GateSent(k, identity));
            && OnlyCall(failOpen, k, sent, s)
            && AccountOf(failOpen, sent.log, k) == AccountOf(failOpen, s.log, k).(gated := Some(identity))
  {
    hide Ready, AccountOf, HashedBytes;
    var identity := IdentityOf(Minted(s.next), s.context.callImpact);
    Sends(failOpen, s, k, identity);
    var sent := Log(s.(next := s.next + 1), GateSent(k, identity));
    Unmoved(failOpen, sent, sent.(operationId := Some(Minted(s.next))));
  }

  lemma Captures(failOpen: bool, s: State, k: nat, reservation: Option<Execution>)
    requires Ready(failOpen, s) && k < s.next
    requires var stage := AccountOf(failOpen, s.log, k).stage; stage != Unseen && stage != Body && stage != Ended
    ensures var t := Log(s.(minted := reservation), Captured(k, reservation));
            && OnlyCall(failOpen, k, t, s)
            && AccountOf(failOpen, t.log, k) == AccountOf(failOpen, s.log, k).(captured := Some(reservation))
  {
    hide Ready, AccountOf, HashedBytes;
    Unmoved(failOpen, s, s.(minted := reservation));
    Keeps(failOpen, s.(minted := reservation), Captured(k, reservation));
  }

  lemma AskStep(failOpen: bool, s: State, k: nat, answer: GateAnswer)
    requires !answer.Bypassed? && Ready(failOpen, s) && k < s.next && Blank(AccountOf(failOpen, s.log, k))
    requires Enveloped(AccountOf(failOpen, s.log, k), s)
    requires var stage := AccountOf(failOpen, s.log, k).stage; stage == BudgetOk || stage == Bare || stage == Stopped
    ensures var r, before := AskGate(s, k, answer), AccountOf(failOpen, s.log, k);
            var after := AccountOf(failOpen, r.state.log, k);
            && OnlyCall(failOpen, k, r.state, s)
            && r.state.context == s.context && r.state.stash == s.stash
            && AfterPreflight(after, r.state, s.minted)
            && after.envelope == before.envelope && after.stage == before.stage
  {
    hide Ready, AccountOf, HashedBytes, GateDecision;
    TellsGate(failOpen, s, k);
    Unmoved(failOpen, s, MintOperation(s));
    if answer.GateAnswers? {
      var v := answer.verdict;
      var sent := Log(MintOperation(s), GateSent(k, IdentityOf(Minted(s.next), s.context.callImpact)));
      var from := if answer.cached && s.context.chainId.Some? then MintOperation(s) else sent;
      Captures(failOpen, from, k, v.reservation);
      DecisionPermits(Log(from.(minted := v.reservation), Captured(k, v.reservation)), v);
    }
  }

  lemma BudgetStep(env: Settings, s: State, k: nat, answer: GateAnswer)
    requires Ready(env.failOpen, s) && k < s.next && Blank(AccountOf(env.failOpen, s.log, k))
    requires Enveloped(AccountOf(env.failOpen, s.log, k), s)
    requires var stage := AccountOf(env.failOpen, s.log, k).stage; stage == ControlOk || stage == Unseen
    ensures var r, before := CheckBudget(env, s, k, answer), AccountOf(env.failOpen, s.log, k);
            var after := AccountOf(env.failOpen, r.state.log, k);
            && OnlyCall(env.failOpen, k, r.state, s)
            && r.state.context == s.context && r.state.stash == s.stash
            && AfterPreflight(after, r.state, s.minted) && after.envelope == before.envelope
            && after.stage == if before.stage == Unseen then Bare else if r.raised.None? then BudgetOk else Stopped
  {
    hide Ready, AccountOf, HashedBytes, BudgetPermits, AskGate;
    BudgetPermitted(env, s, k, answer);
    AsksFirst(env, s, k, answer);
    var asked := Log(s, BudgetAsked(k, HasWorkflow(env, s.context), answer));
    if !answer.Bypassed? {
      Unmoved(env.failOpen, asked, MintOperation(asked));
      if HasWorkflow(env, s.context) { AskStep(env.failOpen, asked, k, answer); }
    }
  }

  lemma PolicyPermitted(env: Settings, s: State, k: nat, policy: Policy)
    ensures CheckPolicy(env, s, k, policy).raised.None? <==> PolicyPermits(env.failOpen, policy)
  {
    hide IdentityOf;
  }

  /** Every request of the policy gate tells what /gate was told. */
  lemma TellsExecute(failOpen: bool, s: State, k: nat, identity: Identity, request: Request)
    requires Ready(failOpen, s) && k < s.next && WellBound(identity)
    requires var a := AccountOf(failOpen, s.log, k);
             (a.stage == PolicyOk || a.stage == Stopped) && a.agrees && Agrees(a, identity)
    ensures var t := Log(s, ExecuteSent(k, identity, request));
            && OnlyCall(failOpen, k, t, s)
            && AccountOf(failOpen, t.log, k) == AccountOf(failOpen, s.log, k).(named := Some(identity))
  {
    hide Ready, AccountOf, HashedBytes;
    Keeps(failOpen, s, ExecuteSent(k, identity, request));
  }

  /** What is fixed while one call passes its gates. */
  ghost predicate Passing(a: Account, s: State, before: Option<Execution>) {
    a.agrees && HoldsLast(a, s.minted, before) && !a.completed && a.ends == 0 && a.cancelled.None?
  }

  lemma AnyAnswerKeepsState(env: Settings, policy: Policy)
    ensures forall s, v :: Settle(env, s, v).state == s
    ensures forall s :: Recheck(env, s, policy.second).state == s
    ensures forall s, e :: Caught(env, s, e).state == s
  {
  }

  lemma PolicyStep(env: Settings, s: State, k: nat, policy: Policy, before: Option<Execution>)
    requires Ready(env.failOpen, s) && k < s.next && s.context.callImpact.Some?
    requires var a := AccountOf(env.failOpen, s.log, k);
             a.stage == SpanOpen && AfterPreflight(a, s, before) && Enveloped(a, s)
    ensures var r := CheckPolicy(env, s, k, policy);
            var after := AccountOf(env.failOpen, r.state.log, k);
            && OnlyCall(env.failOpen, k, r.state, s)
            && r.state.context == s.context && r.state.stash == s.stash
            && Passing(after, r.state, before)
            && after.stage == if r.raised.None? then PolicyOk else Stopped
  {
    hide Ready, AccountOf, HashedBytes, PolicyPermits, Settle, Recheck, Caught;
    AnyAnswerKeepsState(env, policy);
    PolicyPermitted(env, s, k, policy);
    Keeps(env.failOpen, s, PolicyAsked(k, policy));
    var asked := Log(s, PolicyAsked(k, policy));
    var identity := ExecuteIdentity(asked);
    var named := Naming(asked);
    Unmoved(env.failOpen, asked, named);
    TellsExecute(env.failOpen, named, k, identity, FirstRequest(s));
    var sent := Log(named, ExecuteSent(k, identity, FirstRequest(s)));
    if policy.first.ExecuteAnswers? {
      var v := policy.first.verdict;
      Captures(env.failOpen, sent, k, v.reservation);
      var answered := Log(sent.(minted := v.reservation), Captured(k, v.reservation));
      TellsExecute(env.failOpen, answered, k, identity, Again(FirstRequest(s), v));
    }
  }

  lemma DrainBalances(log: Trace, stash: seq<Exn>, k: nat)
    requires Balanced(log, stash) && stash != []
    ensures Balanced(On(log, Drained(k, Some(stash[0]))), stash[1..])
  {
    assert RaisedFrom(log) + [stash[0]] + stash[1..] == RaisedFrom(log) + stash;
    assert StashedIn(log) + [] == StashedIn(log);
  }

  lemma Regrouped<T>(a: seq<T>, b: seq<T>, e: T)
    ensures (a + []) + (b + [e]) == (a + b) + [e]
  {
  }

  lemma StashBalances(log: Trace, stash: seq<Exn>, e: Exn)
    requires Balanced(log, stash)
    ensures Balanced(On(log, Stashed(e)), stash + [e])
  {
    Regrouped(RaisedFrom(log), stash, e);
  }

  lemma DrainStep(failOpen: bool, s: State, k: nat)
    requires Ready(failOpen, s) && k < s.next && AccountOf(failOpen, s.log, k).stage == PolicyOk
    ensures var r := Drain(s, k);
            && OnlyCall(failOpen, k, r.state, s) && r.state.minted == s.minted && r.state.context == s.context
            && AccountOf(failOpen, r.state.log, k)
               == AccountOf(failOpen, s.log, k).(stage := if r.raised.None? then Clear else Stopped)
  {
    hide HashedBytes, Balanced, AccountOf;
    if s.stash == [] {
      Keeps(failOpen, s, Drained(k, None));
    } else {
      Moves(failOpen, s.log, Drained(k, Some(s.stash[0])));
      DrainBalances(s.log, s.stash, k);
      assert GateOps(On(s.log, Drained(k, Some(s.stash[0])))) == GateOps(s.log);
    }
  }

  lemma StartStep(failOpen: bool, s: State, k: nat, span: SpanContext)
    requires Ready(failOpen, s) && k < s.next && AccountOf(failOpen, s.log, k).stage == BudgetOk
    ensures var t := Log(s, SpanStarted(k, span));
            && OnlyCall(failOpen, k, t, s)
            && AccountOf(failOpen, t.log, k) == AccountOf(failOpen, s.log, k).(stage := SpanOpen)
  {
    hide Ready, AccountOf, HashedBytes;
    Keeps(failOpen, s, SpanStarted(k, span));
  }

  lemma ControlPermitted(env: Settings, s: State, k: nat, state: ControlState)
    ensures CheckControl(env, s, k, state).raised.None? <==> ControlPermits(HasWorkflow(env, s.context), state)
  {
  }

  /** None of the gates touches the context variables or the stash but the last. */
  lemma GatesKeep(env: Settings, s: State, k: nat, c: Call)
    ensures var t := CheckControl(env, s, k, c.control).state; t.context == s.context && t.stash == s.stash
    ensures var t := CheckBudget(env, s, k, c.gate).state; t.context == s.context && t.stash == s.stash
    ensures var t := CheckPolicy(env, s, k, c.policy).state; t.context == s.context && t.stash == s.stash
  {
    hide IdentityOf, Settle, Recheck, Caught, GateDecision;
    AnyAnswerKeepsState(env, c.policy);
    if c.gate.GateAnswers? {
      assert forall t :: GateDecision(t, c.gate.verdict).state == t by {
        forall t ensures GateDecision(t, c.gate.verdict).state == t { DecisionPermits(t, c.gate.verdict); }
      }
    }
  }

  /** A call comes through its gates exactly when each of them permits it and no
      stashed decision waits. */
  lemma GatesPermitted(env: Settings, s: State, k: nat, c: Call, span: SpanContext)
    ensures Gates(env, s, k, c, span).raised.None?
            <==> && ControlPermits(HasWorkflow(env, s.context), c.control)
                 && BudgetPermits(HasWorkflow(env, s.context), c.gate)
                 && PolicyPermits(env.failOpen, c.policy)
                 && s.stash == []
  {
    hide CheckControl, CheckBudget, CheckPolicy, ControlPermits, BudgetPermits, PolicyPermits;
    var control := CheckControl(env, s, k, c.control);
    var budget := CheckBudget(env, control.state, k, c.gate);
    var started := Log(budget.state, SpanStarted(k, span));
    ControlPermitted(env, s, k, c.control);
    GatesKeep(env, s, k, c);
    BudgetPermitted(env, control.state, k, c.gate);
    GatesKeep(env, control.state, k, c);
    PolicyPermitted(env, started, k, c.policy);
    GatesKeep(env, started, k, c);
  }

  /** What passing or failing the gates leaves of the call's account. */
  lemma GatesStep(env: Settings, s: State, k: nat, c: Call, span: SpanContext)
    requires Ready(env.failOpen, s) && k < s.next && s.context.callImpact.Some?
    requires AccountOf(env.failOpen, s.log, k) == NOTHING.(stage := Inside, envelope := s.context.callImpact)
    ensures var r := Gates(env, s, k, c, span);
            var after := AccountOf(env.failOpen, r.state.log, k);
            && OnlyCall(env.failOpen, k, r.state, s)
            && Passing(after, r.state, s.minted)
            && after.stage == if r.raised.None? then Clear else Stopped
  {
    hide Ready, AccountOf, HashedBytes, CheckBudget, CheckPolicy, CheckControl, Drain, Told;
    ControlStep(env, s, k, c.control);
    var control := CheckControl(env, s, k, c.control);
    if control.raised.None? {
      BudgetStep(env, control.state, k, c.gate);
      var budget := CheckBudget(env, control.state, k, c.gate);
      ToldPassing(AccountOf(env.failOpen, budget.state.log, k), budget.state, s.minted);
      if budget.raised.None? {
        GatesTail(env, budget.state, k, c, span, s.minted);
      }
    }
  }

  lemma ToldPassing(a: Account, s: State, before: Option<Execution>)
    requires AfterPreflight(a, s, before)
    ensures Passing(a, s, before)
  {
  }

  lemma GatesTail(env: Settings, s: State, k: nat, c: Call, span: SpanContext, before: Option<Execution>)
    requires Ready(env.failOpen, s) && k < s.next && s.context.callImpact.Some?
    requires var a := AccountOf(env.failOpen, s.log, k);
             a.stage == BudgetOk && AfterPreflight(a, s, before) && Enveloped(a, s)
    ensures var policy := CheckPolicy(env, Log(s, SpanStarted(k, span)), k, c.policy);
            var r := if policy.raised.Some? then policy else Drain(policy.state, k);
            var after := AccountOf(env.failOpen, r.state.log, k);
            && OnlyCall(env.failOpen, k, r.state, s)
            && Passing(after, r.state, before)
            && after.stage == if r.raised.None? then Clear else Stopped
  {
    hide Ready, AccountOf, HashedBytes, CheckPolicy, Drain;
    StartStep(env.failOpen, s, k, span);
    var started := Log(s, SpanStarted(k, span));
    PolicyStep(env, started, k, c.policy, before);
    var policy := CheckPolicy(env, started, k, c.policy);
    if policy.raised.None? { DrainStep(env.failOpen, policy.state, k); }
  }

  // ----------------------------------------------------------------- the exit

  predicate Cancels(c: Call, completed: bool, raised: Option<Exn>) {
    !completed && raised.Some? && (c.sync || IsException(raised.value))
  }

  lemma FinishStep(failOpen: bool, r: Result, k: nat, c: Call, outer: Context, span: SpanContext, completed: bool)
    requires Ready(failOpen, r.state) && k < r.state.next
    requires var a := AccountOf(failOpen, r.state.log, k);
             && a.completed == completed && a.ends == 0 && a.cancelled.None?
             && (if completed then a.stage == Done else r.raised.Some? && (a.stage == Stopped || a.stage == Body))
    ensures var t := Finish(r, k, c, outer, span, completed).state;
            var cancels := Cancels(c, completed, r.raised) && r.state.minted.Some?;
            && OnlyCall(failOpen, k, t, r.state)
            && AccountOf(failOpen, t.log, k) == AccountOf(failOpen, r.state.log, k).(
                 ends := 1,
                 stage := if cancels then Cancelled else Ended,
                 cancelled := if cancels then r.state.minted else None)
  {
    hide Ready, AccountOf, HashedBytes;
    var left := Leave(r.state, k, outer, span, r.raised.Some?);
    Unmoved(failOpen, r.state, r.state.(context := left.context));
    Keeps(failOpen, r.state.(context := left.context), SpanEnded(k, span, r.raised.Some?));
    if r.state.minted.Some? && Cancels(c, completed, r.raised) {
      Keeps(failOpen, left, CancelSent(k, r.state.minted.value));
    }
  }

  // --------------------------------------------------------------- whole runs

  /** No event out of order, one span_end for a call that entered, one identity
      told throughout, and no cancellation of a call whose body returned. */
  predicate Settled(a: Account) {
    && a.agrees
    && match a.stage
       case Unseen => a == NOTHING
       case Bare => a.ends == 0 && a.cancelled.None? && a.named.None?
       case Ended => a.ends == 1 && a.cancelled.None?
       case Cancelled => a.ends == 1 && a.cancelled.Some? && !a.completed
       case _ => false
  }

  ghost predicate SameBefore(failOpen: bool, t: State, s: State) {
    forall k: nat :: k < s.next ==> AccountOf(failOpen, t.log, k) == AccountOf(failOpen, s.log, k)
  }

  ghost predicate SettledSince(failOpen: bool, t: State, s: State) {
    forall k: nat :: s.next <= k < t.next ==> Settled(AccountOf(failOpen, t.log, k))
  }

  /** A run from `s` to `t` leaves the calls of before alone and settles its own. */
  ghost predicate Orderly(failOpen: bool, t: State, s: State) {
    Ready(failOpen, t) && t.next >= s.next && SameBefore(failOpen, t, s) && SettledSince(failOpen, t, s)
  }

  lemma OrderlyThen(failOpen: bool, u: State, t: State, s: State)
    requires Orderly(failOpen, t, s) && Orderly(failOpen, u, t)
    ensures Orderly(failOpen, u, s)
  {
    hide Ready, AccountOf, Settled;
  }

  lemma Stands(failOpen: bool, s: State)
    requires Ready(failOpen, s)
    ensures Orderly(failOpen, s, s)
  {
    hide Ready, AccountOf;
  }

  /** Ids set aside and variables set, without an event, settle nothing new. */
  lemma Takes(failOpen: bool, t: State, s: State)
    requires Ready(failOpen, s) && t.log == s.log && t.stash == s.stash && t.next >= s.next
    ensures Orderly(failOpen, t, s)
  {
    hide AccountOf, Balanced;
    Unmoved(failOpen, s, t);
    ReadyMeans(failOpen, s);
    Settles();
  }

  lemma Notes(failOpen: bool, s: State, e: Event)
    requires Ready(failOpen, s) && (e.Tracked? || e.Opened?)
    ensures Orderly(failOpen, Log(s, e), s)
  {
    hide Ready, AccountOf;
    Keeps(failOpen, s, e);
  }

  lemma Stashes(failOpen: bool, s: State, e: Exn)
    requires Ready(failOpen, s)
    ensures Orderly(failOpen, Log(s.(stash := s.stash + [e]), Stashed(e)), s)
  {
    hide AccountOf, Balanced, HashedBytes;
    Moves(failOpen, s.log, Stashed(e));
    StashBalances(s.log, s.stash, e);
    ReadyMeans(failOpen, s);
    assert GateOps(On(s.log, Stashed(e))) == GateOps(s.log);
  }

  lemma ReadyMeans(failOpen: bool, s: State)
    requires Ready(failOpen, s)
    ensures forall k: nat :: k >= s.next ==> AccountOf(failOpen, s.log, k) == NOTHING
  {
    hide AccountOf;
  }

  lemma Settles()
    ensures Settled(NOTHING)
  {
  }

  // ----------------------------------------------------------- one open call

  /** From `s` on, call `s.next` is under way, and everything else is in order. */
  ghost predicate Around(failOpen: bool, t: State, s: State) {
    && Ready(failOpen, t) && t.next > s.next && SameBefore(failOpen, t, s)
    && forall j: nat :: s.next < j < t.next ==> Settled(AccountOf(failOpen, t.log, j))
  }

  lemma AroundMoves(failOpen: bool, u: State, t: State, s: State)
    requires Around(failOpen, t, s) && OnlyCall(failOpen, s.next, u, t)
    ensures Around(failOpen, u, s)
  {
    hide Ready, AccountOf, Settled;
    ReadyMeans(failOpen, t);
    Settles();
  }

  lemma AroundRuns(failOpen: bool, u: State, t: State, s: State)
    requires Around(failOpen, t, s) && Orderly(failOpen, u, t)
    ensures Around(failOpen, u, s) && AccountOf(failOpen, u.log, s.next) == AccountOf(failOpen, t.log, s.next)
  {
    hide Ready, AccountOf, Settled;
  }

  lemma AroundCloses(failOpen: bool, t: State, s: State)
    requires Around(failOpen, t, s) && Settled(AccountOf(failOpen, t.log, s.next))
    ensures Orderly(failOpen, t, s)
  {
    hide Ready, AccountOf, Settled;
  }

  /** A pre-flight from a callback is no protected call. */
  lemma CallbackStep(env: Settings, s: State, answer: GateAnswer)
    requires Ready(env.failOpen, s)
    ensures Orderly(env.failOpen, CheckBudget(env, s.(next := s.next + 1), s.next, answer).state, s)
  {
    hide Ready, AccountOf, CheckBudget, HashedBytes;
    var t := s.(next := s.next + 1);
    Takes(env.failOpen, t, s);
    ReadyMeans(env.failOpen, s);
    BudgetStep(env, t, s.next, answer);
    var u := CheckBudget(env, t, s.next, answer).state;
    assert Around(env.failOpen, t, s);
    AroundMoves(env.failOpen, u, t, s);
    AroundCloses(env.failOpen, u, s);
  }

  lemma EnterStep(failOpen: bool, s: State, c: Call)
    requires Ready(failOpen, s)
    ensures var t := Enter(s, c);
            && Around(failOpen, t, s) && t.minted == s.minted && t.context.callImpact.Some?
            && AccountOf(failOpen, t.log, s.next) == NOTHING.(stage := Inside, envelope := t.context.callImpact)
  {
    hide Ready, AccountOf, HashedBytes, CallImpact, NextSpan;
    var t := Enter(s, c);
    var taken := s.(context := t.context, next := s.next + 3);
    Takes(failOpen, taken, s);
    ReadyMeans(failOpen, s);
    assert Around(failOpen, taken, s);
    var marked := Log(taken, Opened(NextSpan(s)));
    Notes(failOpen, taken, Opened(NextSpan(s)));
    AroundRuns(failOpen, marked, taken, s);
    Keeps(failOpen, marked, Entered(s.next, c));
    AroundMoves(failOpen, t, marked, s);
  }

  /** Past the gates the call is open, and its body about to begin. */
  lemma BodyStep(env: Settings, s: State, c: Call)
    requires Ready(env.failOpen, s)
    ensures var gates := Gates(env, Enter(s, c), s.next, c, NextSpan(s));
            var a := AccountOf(env.failOpen, gates.state.log, s.next);
            && Around(env.failOpen, gates.state, s) && Passing(a, gates.state, s.minted)
            && a.stage == (if gates.raised.None? then Clear else Stopped)
            && (gates.raised.None? ==>
                  && Around(env.failOpen, Log(gates.state, BodyBegan(s.next)), s)
                  && AccountOf(env.failOpen, On(gates.state.log, BodyBegan(s.next)), s.next) == a.(stage := Body))
  {
    hide Ready, AccountOf, HashedBytes, Gates, Enter, NextSpan;
    EnterStep(env.failOpen, s, c);
    var entered := Enter(s, c);
    GatesStep(env, entered, s.next, c, NextSpan(s));
    var gates := Gates(env, entered, s.next, c, NextSpan(s));
    AroundMoves(env.failOpen, gates.state, entered, s);
    if gates.raised.None? {
      Keeps(env.failOpen, gates.state, BodyBegan(s.next));
      AroundMoves(env.failOpen, Log(gates.state, BodyBegan(s.next)), gates.state, s);
    }
  }

  /** A call that ends before its body returned. */
  lemma StopStep(failOpen: bool, r: Result, s: State, c: Call, span: SpanContext)
    requires Around(failOpen, r.state, s) && r.raised.Some?
    requires var a := AccountOf(failOpen, r.state.log, s.next);
             a.agrees && !a.completed && a.ends == 0 && a.cancelled.None? && (a.stage == Stopped || a.stage == Body)
    ensures Orderly(failOpen, Finish(r, s.next, c, s.context, span, false).state, s)
  {
    hide Ready, AccountOf, HashedBytes, Finish;
    FinishStep(failOpen, r, s.next, c, s.context, span, false);
    var t := Finish(r, s.next, c, s.context, span, false).state;
    AroundMoves(failOpen, t, r.state, s);
    AroundCloses(failOpen, t, s);
  }

  lemma CloseStep(failOpen: bool, ran: Result, s: State, c: Call, span: SpanContext)
    requires Around(failOpen, ran.state, s)
    requires var a := AccountOf(failOpen, ran.state.log, s.next);
             a.agrees && !a.completed && a.ends == 0 && a.cancelled.None? && a.stage == Body
    ensures Orderly(failOpen, Close(ran, s.next, c, s.context, span).state, s)
  {
    hide Ready, AccountOf, HashedBytes, Finish;
    if ran.raised.Some? {
      StopStep(failOpen, ran, s, c, span);
    } else {
      var done := AfterBody(ran.state, s.next, c);
      Keeps(failOpen, ran.state, BodyCompleted(s.next));
      AroundMoves(failOpen, done.state, ran.state, s);
      FinishStep(failOpen, done, s.next, c, s.context, span, true);
      var t := Finish(done, s.next, c, s.context, span, true).state;
      AroundMoves(failOpen, t, done.state, s);
      AroundCloses(failOpen, t, s);
    }
  }

  lemma ProtectOrderly(env: Settings, c: Call, body: Program, s: State)
    requires Ready(env.failOpen, s)
    ensures Orderly(env.failOpen, Eval(env, Protect(c, body), s).state, s)
    decreases Protect(c, body), 0
  {
    hide Ready, AccountOf, HashedBytes, Gates, Enter, NextSpan, Finish, Close, Eval;
    ProtectMeans(env, c, body, s);
    BodyStep(env, s, c);
    var gates := Gates(env, Enter(s, c), s.next, c, NextSpan(s));
    if gates.raised.Some? {
      StopStep(env.failOpen, gates, s, c, NextSpan(s));
    } else {
      var began := Log(gates.state, BodyBegan(s.next));
      EverOrderly(env, body, began);
      AroundRuns(env.failOpen, Eval(env, body, began).state, began, s);
      CloseStep(env.failOpen, Eval(env, body, began), s, c, NextSpan(s));
    }
  }

  /** Every program leaves the calls of before as they were and every call of its
      own settled: its gates passed in order and each of them saying yes before
      the body began, one span_end, one identity told to the backend. */
  lemma {:induction false} EverOrderly(env: Settings, p: Program, s: State)
    requires Ready(env.failOpen, s)
    ensures Orderly(env.failOpen, Eval(env, p, s).state, s)
    decreases p, 1
  {
    hide Ready, AccountOf, HashedBytes, Gates, Finish, Close, CheckBudget, Enter, SameBefore, SettledSince;
    Stands(env.failOpen, s);
    match p
    case Skip =>
    case Raise(_) =>
    case Track => Notes(env.failOpen, s, Tracked(s.context));
    case Both(first, second) =>
      EverOrderly(env, first, s);
      EverOrderly(env, second, Eval(env, first, s).state);
      OrderlyThen(env.failOpen, Eval(env, second, Eval(env, first, s).state).state, Eval(env, first, s).state, s);
    case Try(body, bare, handler) =>
      EverOrderly(env, body, s);
      EverOrderly(env, handler, Eval(env, body, s).state);
      OrderlyThen(env.failOpen, Eval(env, handler, Eval(env, body, s).state).state, Eval(env, body, s).state, s);
    case LlmStart(answer) =>
      CallbackStep(env, s, answer);
      var r := CheckBudget(env, s.(next := s.next + 1), s.next, answer);
      if r.raised.Some? && IsEnforcement(r.raised.value) {
        Stashes(env.failOpen, r.state, r.raised.value);
        OrderlyThen(env.failOpen, Eval(env, p, s).state, r.state, s);
      }
    case Workflow(name, body) =>
      OpensOrderly(env.failOpen, s, name);
      Inner(env, body, InWorkflow(s, name), s, Eval(env, p, s).state);
    case Span(name, body) =>
      OpensOrderly(env.failOpen, s, name);
      Inner(env, body, InSpan(s, name), s, Eval(env, p, s).state);
    case Agent(name, body) =>
      Takes(env.failOpen, InAgent(s, name), s);
      Inner(env, body, InAgent(s, name), s, Eval(env, p, s).state);
    case Attempt(index, body) =>
      Takes(env.failOpen, InAttempt(s, index), s);
      Inner(env, body, InAttempt(s, index), s, Eval(env, p, s).state);
    case Chain(id, isV4, op, body) =>
      Takes(env.failOpen, InChain(s, id, op), s);
      if op in CHAIN_OPS && isV4 {
        Inner(env, body, InChain(s, id, op), s, Eval(env, p, s).state);
      }
    case Protect(c, body) =>
      ProtectOrderly(env, c, body, s);
  }

  lemma OpensOrderly(failOpen: bool, s: State, name: Option<string>)
    requires Ready(failOpen, s)
    ensures Orderly(failOpen, InWorkflow(s, name), s) && Orderly(failOpen, InSpan(s, name), s)
  {
    hide Ready, AccountOf, SameBefore, SettledSince;
    var flow, span := InWorkflow(s, name), InSpan(s, name);
    Takes(failOpen, flow.(log := s.log), s);
    Notes(failOpen, flow.(log := s.log), flow.log.event);
    OrderlyThen(failOpen, flow, flow.(log := s.log), s);
    Takes(failOpen, span.(log := s.log), s);
    if s.context.current.Some? {
      Notes(failOpen, span.(log := s.log), span.log.event);
      OrderlyThen(failOpen, span, span.(log := s.log), s);
    }
  }

  /** A block: variables set, its body run, variables restored. */
  lemma Inner(env: Settings, body: Program, from: State, s: State, t: State)
    requires Ready(env.failOpen, s) && Orderly(env.failOpen, from, s)
    requires var u := Eval(env, body, from).state; t == u.(context := t.context)
    ensures Orderly(env.failOpen, t, s)
    decreases body, 2
  {
    hide Ready, AccountOf, Eval, SameBefore, SettledSince;
    EverOrderly(env, body, from);
    var u := Eval(env, body, from).state;
    OrderlyThen(env.failOpen, u, from, s);
    Takes(env.failOpen, t, u);
    OrderlyThen(env.failOpen, t, u, s);
  }

  // ------------------------------------------------------------ cancellation

  /** A body that makes no pre-flight of its own. */
  predicate Quiet(p: Program) {
    match p
    case Both(first, second) => Quiet(first) && Quiet(second)
    case Try(body, _, handler) => Quiet(body) && Quiet(handler)
    case LlmStart(_) => false
    case Protect(_, _) => false
    case Workflow(_, body) => Quiet(body)
    case Span(_, body) => Quiet(body)
    case Agent(_, body) => Quiet(body)
    case Attempt(_, body) => Quiet(body)
    case Chain(_, _, _, body) => Quiet(body)
    case _ => true
  }

  lemma {:induction false} QuietKeeps(env: Settings, p: Program, s: State)
    requires Quiet(p)
    ensures Eval(env, p, s).state.minted == s.minted
    decreases p
  {
    match p
    case Both(first, second) =>
      QuietKeeps(env, first, s);
      QuietKeeps(env, second, Eval(env, first, s).state);
    case Try(body, bare, handler) =>
      QuietKeeps(env, body, s);
      QuietKeeps(env, handler, Eval(env, body, s).state);
    case Workflow(name, body) => QuietKeeps(env, body, InWorkflow(s, name));
    case Span(name, body) => QuietKeeps(env, body, InSpan(s, name));
    case Agent(name, body) => QuietKeeps(env, body, InAgent(s, name));
    case Attempt(index, body) => QuietKeeps(env, body, InAttempt(s, index));
    case Chain(id, isV4, op, body) => QuietKeeps(env, body, InChain(s, id, op));
    case _ =>
  }

  /** What a call cancels: nothing once its body returned, nor when an async call
      is interrupted; otherwise the execution its own last answer left or, if no
      answer came, whatever an earlier call left behind. */
  function CancelledBy(c: Call, a: Account, raised: Option<Exn>, before: Option<Execution>): Option<Execution> {
    if !Cancels(c, a.completed, raised) then None
    else if a.captured.Some? then a.captured.value
    else before
  }

  lemma FinishRaises(r: Result, k: nat, c: Call, outer: Context, span: SpanContext, completed: bool)
    ensures var raised := Finish(r, k, c, outer, span, completed).raised;
            Cancels(c, completed, raised) == Cancels(c, completed, r.raised)
  {
  }

  lemma StopCancels(failOpen: bool, r: Result, s: State, c: Call, span: SpanContext)
    requires Around(failOpen, r.state, s) && r.raised.Some?
    requires var a := AccountOf(failOpen, r.state.log, s.next);
             Passing(a, r.state, s.minted) && (a.stage == Stopped || a.stage == Body)
    ensures var t := Finish(r, s.next, c, s.context, span, false);
            var a := AccountOf(failOpen, t.state.log, s.next);
            a.cancelled == CancelledBy(c, a, t.raised, s.minted)
  {
    hide Ready, AccountOf, HashedBytes, Finish;
    FinishStep(failOpen, r, s.next, c, s.context, span, false);
    FinishRaises(r, s.next, c, s.context, span, false);
  }

  lemma CloseCancels(failOpen: bool, ran: Result, s: State, c: Call, span: SpanContext)
    requires Around(failOpen, ran.state, s)
    requires var a := AccountOf(failOpen, ran.state.log, s.next);
             Passing(a, ran.state, s.minted) && a.stage == Body
    ensures var t := Close(ran, s.next, c, s.context, span);
            var a := AccountOf(failOpen, t.state.log, s.next);
            a.cancelled == CancelledBy(c, a, t.raised, s.minted) && (ran.raised.None? <==> a.completed)
  {
    hide Ready, AccountOf, HashedBytes, Finish;
    if ran.raised.Some? {
      StopCancels(failOpen, ran, s, c, span);
      FinishStep(failOpen, ran, s.next, c, s.context, span, false);
    } else {
      var done := AfterBody(ran.state, s.next, c);
      Keeps(failOpen, ran.state, BodyCompleted(s.next));
      FinishStep(failOpen, done, s.next, c, s.context, span, true);
    }
  }

  lemma FinishHolds(r: Result, k: nat, c: Call, outer: Context, span: SpanContext, completed: bool)
    ensures Finish(r, k, c, outer, span, completed).state.minted == r.state.minted
  {
  }

  /** The cancellation of any call, whatever its gates are answered and whatever its
      body does, nested calls and interruptions included: what the variable holds
      at the exit, exactly when the body has not returned and, for an async call,
      was not interrupted. */
  lemma CancelsHeld(env: Settings, c: Call, body: Program, s: State)
    requires Ready(env.failOpen, s)
    ensures var r := Eval(env, Protect(c, body), s);
            var a := AccountOf(env.failOpen, r.state.log, s.next);
            a.cancelled == if Cancels(c, a.completed, r.raised) then r.state.minted else None
  {
    hide Ready, AccountOf, HashedBytes, Gates, Enter, NextSpan, Finish, Close, Eval;
    ProtectMeans(env, c, body, s);
    BodyStep(env, s, c);
    var gates := Gates(env, Enter(s, c), s.next, c, NextSpan(s));
    if gates.raised.Some? {
      StopHolds(env.failOpen, gates, s, c, NextSpan(s));
    } else {
      var began := Log(gates.state, BodyBegan(s.next));
      EverOrderly(env, body, began);
      AroundRuns(env.failOpen, Eval(env, body, began).state, began, s);
      CloseHolds(env.failOpen, Eval(env, body, began), s, c, NextSpan(s));
    }
  }

  lemma StopHolds(failOpen: bool, r: Result, s: State, c: Call, span: SpanContext)
    requires Around(failOpen, r.state, s) && r.raised.Some?
    requires var a := AccountOf(failOpen, r.state.log, s.next);
             !a.completed && a.ends == 0 && a.cancelled.None? && (a.stage == Stopped || a.stage == Body)
    ensures var t := Finish(r, s.next, c, s.context, span, false);
            var a := AccountOf(failOpen, t.state.log, s.next);
            a.cancelled == if Cancels(c, a.completed, t.raised) then t.state.minted else None
  {
    hide Ready, AccountOf, HashedBytes, Finish;
    FinishStep(failOpen, r, s.next, c, s.context, span, false);
    FinishRaises(r, s.next, c, s.context, span, false);
    FinishHolds(r, s.next, c, s.context, span, false);
  }

  lemma CloseHolds(failOpen: bool, ran: Result, s: State, c: Call, span: SpanContext)
    requires Around(failOpen, ran.state, s)
    requires var a := AccountOf(failOpen, ran.state.log, s.next);
             !a.completed && a.ends == 0 && a.cancelled.None? && a.stage == Body
    ensures var t := Close(ran, s.next, c, s.context, span);
            var a := AccountOf(failOpen, t.state.log, s.next);
            a.cancelled == if Cancels(c, a.completed, t.raised) then t.state.minted else None
  {
    hide Ready, AccountOf, HashedBytes, Finish;
    if ran.raised.Some? {
      StopHolds(failOpen, ran, s, c, span);
    } else {
      var done := AfterBody(ran.state, s.next, c);
      Keeps(failOpen, ran.state, BodyCompleted(s.next));
      FinishStep(failOpen, done, s.next, c, s.context, span, true);
    }
  }

  /** The cancellation of an un-nested call, for every answer its gates get and
      every way its body ends. */
  lemma CancelExactly(env: Settings, c: Call, body: Program, s: State)
    requires Ready(env.failOpen, s)
    requires Quiet(body) || Gates(env, Enter(s, c), s.next, c, NextSpan(s)).raised.Some?
    ensures var r := Eval(env, Protect(c, body), s);
            var a := AccountOf(env.failOpen, r.state.log, s.next);
            a.cancelled == CancelledBy(c, a, r.raised, s.minted)
  {
    hide Ready, AccountOf, HashedBytes, Gates, Enter, NextSpan, Finish, Close, Eval, CancelledBy;
    ProtectMeans(env, c, body, s);
    BodyStep(env, s, c);
    var gates := Gates(env, Enter(s, c), s.next, c, NextSpan(s));
    if gates.raised.Some? {
      StopCancels(env.failOpen, gates, s, c, NextSpan(s));
    } else {
      var began := Log(gates.state, BodyBegan(s.next));
      EverOrderly(env, body, began);
      QuietKeeps(env, body, began);
      AroundRuns(env.failOpen, Eval(env, body, began).state, began, s);
      CloseCancels(env.failOpen, Eval(env, body, began), s, c, NextSpan(s));
    }
  }
}
