/** The exception that a body with decision "block" becomes, and what the policy
    gate makes of it. */
module BlockErrors {
  import opened BusinessImpacts
  import opened CallClaims
  import opened CallRuns
  import opened Options
  import opened Programs
  import opened Scopes

  /** Where a body carries its code: in its details, at its top, or as its text. */
  datatype Wire = Wire(inDetails: string, onTop: string, explanation: string)

  function Code(w: Wire): string {
    if w.inDetails != "" then w.inDetails else if w.onTop != "" then w.onTop else w.explanation
  }

  /** Codes whose class is `NullRunBackendError`. */
  predicate Backend(code: string) {
    code in {"BUDGET_DATA_UNAVAILABLE", "EXECUTION_ID_MALFORMED", "EXECUTION_ID_REQUIRED", "INVALID_EXECUTION_ID",
             "INVALID_FIELD", "INVALID_JSON", "IDEMPOTENCY_REDIS_UNAVAILABLE", "INVOKE_PERSIST_FAILED",
             "CIRCUIT_BREAKER_STATE_LOOKUP_FAILED", "WORKFLOW_INACTIVE_LOOKUP_FAILED", "WORKFLOW_ID_BODY_MISMATCH",
             "REDIS_UNAVAILABLE", "INTERNAL_ERROR"}
  }

  /** Codes whose class takes a message, and not the keywords a block is built with. */
  predicate Misfit(code: string) {
    code in {"CHAIN_MAX_DURATION_EXCEEDED", "CHAIN_CROSS_ORG", "CHAIN_ORG_MISMATCH", "PARENT_EXECUTION_NOT_FOUND",
             "PARENT_EXECUTION_ORG_MISMATCH", "PARENT_EXECUTION_KEY_MISMATCH", "CHAIN_ID_INVALID",
             "WORKFLOW_CYCLE_DETECTED", "WORKFLOW_DEPTH_EXCEEDED", "WORKFLOW_PARENT_BINDING_EXPIRED",
             "WORKFLOW_DEPTH_LOOKUP_FAILED", "SUBWORKFLOW_INVOKE_DISABLED", "WORKFLOW_INACTIVE",
             "CONSUME_OVERBUDGET", "BUDGET_RECHECK_FAILED"}
  }

  /** Codes whose class is `NullRunBudgetError`. */
  predicate OverBudget(code: string) {
    code in {"BUDGET_HARD_BLOCKED", "BUDGET_SOFT_BLOCKED", "BUDGET_OVERDRAFT_EXCEEDED", "BUDGET_PERIOD_NOT_STARTED",
             "BUDGET_WORKFLOW_BLOCKED", "BUDGET_CACHE_EXCEEDED", "BUDGET_ANTI_DOS_RESERVED_CAP",
             "BUDGET_REDIS_UNAVAILABLE", "BUDGET_ORG_CEILING_BLOCKED"}
  }

  /** `_build_block_exception`. A code of any other class, of none, and a text
      without a code all become refusals that the policy gate raises again. */
  function Build(w: Wire): Exn {
    var code := Code(w);
    if Backend(code) then Transport("NR-B002")
    else if Misfit(code) then TypeError
    else if OverBudget(code) then Budget
    else Refusal(code)
  }

  /** A block that does not come out of the policy gate as it went in. */
  predicate Slips(w: Wire) {
    Backend(Code(w)) || Misfit(Code(w))
  }

  /** An answer of decision "block" is honoured exactly unless the opt-out is on and
      its code is of a class that is unavailability to the policy gate. */
  lemma BlockAccepted(failOpen: bool, v: Verdict, w: Wire)
    requires v.decision == "block" && v.error == Build(w)
    ensures Accepts(failOpen, ExecuteAnswers(v)) <==> failOpen && Slips(w)
  {
    hide Backend, Misfit, OverBudget;
  }

  /** So a call that /execute blocks comes through its gates, and its body begins,
      exactly when the other gates permit it, the opt-out is on and the block's code
      is of such a class. The opt-out is documented to honour every block. */
  lemma BlockedBodyBegins(env: Settings, c: Call, s: State, v: Verdict, w: Wire)
    requires v.decision == "block" && v.error == Build(w) && c.policy.first == ExecuteAnswers(v)
    ensures Gates(env, Enter(s, c), s.next, c, NextSpan(s)).raised.None?
            <==> && ControlPermits(HasWorkflow(env, s.context), c.control)
                 && BudgetPermits(HasWorkflow(env, s.context), c.gate)
                 && s.stash == [] && env.failOpen && Slips(w)
  {
    hide Slips, Gates, ControlPermits, BudgetPermits, Accepts, Build, CallImpact, NextSpan;
    BlockAccepted(env.failOpen, v, w);
    GatesPermitted(env, Enter(s, c), s.next, c, NextSpan(s));
  }

  function Blocked(w: Wire): Verdict {
    Verdict("block", "gateway", None, None, WaitUnclear, Build(w))
  }

  /** A call that the gate allows and /execute blocks. */
  function BlockedCall(x: Execution, w: Wire): Call {
    Plain(Normal, x).(policy := Policy(ExecuteAnswers(Blocked(w)), ExecuteFails(TypeError)))
  }

  lemma SlipsThrough(env: Settings, x: Execution, w: Wire)
    requires env.failOpen && Slips(w)
    ensures var r := Eval(env, Protect(BlockedCall(x, w), Skip), START);
            r.raised.None? && AccountOf(env.failOpen, r.state.log, 0).completed
  {
    hide AccountOf, Eval, Close, Ready, Gates, Enter, NextSpan, SameBefore, Settled, Slips, Build;
    var c, span := BlockedCall(x, w), NextSpan(START);
    var gates := Gates(env, Enter(START, c), 0, c, span);
    assert ControlPermits(HasWorkflow(env, NO_CONTEXT), Normal) && BudgetPermits(HasWorkflow(env, NO_CONTEXT), c.gate);
    BlockedBodyBegins(env, c, START, Blocked(w), w);
    Starts(env.failOpen);
    BodyStep(env, START, c);
    ProtectMeans(env, c, Skip, START);
    SkipMeans(env, Log(gates.state, BodyBegan(0)));
    CloseReturns(env.failOpen, Fine(Log(gates.state, BodyBegan(0))), START, c, span);
  }

  /** The codes that slip, wherever the body carries them: an inactive workflow and
      the others whose exception cannot be built, */
  lemma MisfitsSlip(code: string, top: string, text: string)
    requires code in {"WORKFLOW_INACTIVE", "CONSUME_OVERBUDGET", "BUDGET_RECHECK_FAILED", "CHAIN_MAX_DURATION_EXCEEDED",
                      "CHAIN_CROSS_ORG", "CHAIN_ORG_MISMATCH", "CHAIN_ID_INVALID", "PARENT_EXECUTION_NOT_FOUND",
                      "PARENT_EXECUTION_ORG_MISMATCH", "PARENT_EXECUTION_KEY_MISMATCH", "WORKFLOW_CYCLE_DETECTED",
                      "WORKFLOW_DEPTH_EXCEEDED", "WORKFLOW_PARENT_BINDING_EXPIRED", "WORKFLOW_DEPTH_LOOKUP_FAILED",
                      "SUBWORKFLOW_INVOKE_DISABLED"}
    ensures Slips(Wire(code, top, text)) && Slips(Wire("", code, text)) && Slips(Wire("", "", code))
  {
    hide Backend, Slips, Code, Build;
    SlipsAnywhere(code, top, text);
  }

  lemma SlipsAnywhere(code: string, top: string, text: string)
    requires Misfit(code) || Backend(code)
    ensures Slips(Wire(code, top, text)) && Slips(Wire("", code, text)) && Slips(Wire("", "", code))
  {
    NotEmpty(code);
    hide Backend, Misfit;
  }

  lemma NotEmpty(code: string)
    requires Misfit(code) || Backend(code)
    ensures code != ""
  {
    assert !Misfit("") && !Backend("");
    hide Misfit, Backend;
  }

  /** a budget that could not be read and the other broken services. */
  lemma OutagesSlip(code: string, top: string, text: string)
    requires code in {"BUDGET_DATA_UNAVAILABLE", "EXECUTION_ID_MALFORMED", "EXECUTION_ID_REQUIRED",
                      "INVALID_EXECUTION_ID", "INVALID_FIELD", "INVALID_JSON", "IDEMPOTENCY_REDIS_UNAVAILABLE",
                      "INVOKE_PERSIST_FAILED", "CIRCUIT_BREAKER_STATE_LOOKUP_FAILED",
                      "WORKFLOW_INACTIVE_LOOKUP_FAILED", "WORKFLOW_ID_BODY_MISMATCH", "REDIS_UNAVAILABLE",
                      "INTERNAL_ERROR"}
    ensures Slips(Wire(code, top, text)) && Slips(Wire("", code, text)) && Slips(Wire("", "", code))
  {
    hide Misfit, Slips, Code, Build;
    SlipsAnywhere(code, top, text);
  }

  /** So the body of a call blocked with such a code runs, from the start state on. */
  lemma BlockedYetRuns(env: Settings, x: Execution, code: string)
    requires env.failOpen && (code == "WORKFLOW_INACTIVE" || code == "BUDGET_DATA_UNAVAILABLE")
    ensures var r := Eval(env, Protect(BlockedCall(x, Wire(code, "", "")), Skip), START);
            r.raised.None? && AccountOf(env.failOpen, r.state.log, 0).completed
  {
    hide AccountOf, Eval, Slips;
    if code == "WORKFLOW_INACTIVE" { MisfitsSlip(code, "", ""); } else { OutagesSlip(code, "", ""); }
    SlipsThrough(env, x, Wire(code, "", ""));
  }

  /** Blocked tools, rate limits, lost executions and texts without a code are
      honoured, with an exception of their own; the first place that carries a code
      decides which. */
  lemma OthersHonoured(code: string, top: string, text: string)
    requires code in {"TOOL_BLOCKED", "LOOP_DETECTED", "RATE_LIMIT_EXCEEDED", "EXECUTION_NOT_FOUND", "WORKFLOW_PAUSED",
                      "APPROVAL_DENIED", "API_KEY_REVOKED", "PROTOCOL_TOO_OLD", "RATE_LIMIT_REDIS_UNAVAILABLE",
                      "policy violation"}
    ensures Build(Wire(code, top, text)) == Build(Wire("", code, text)) == Build(Wire("", "", code)) == Refusal(code)
    ensures !Slips(Wire(code, top, text)) && !Slips(Wire("", code, text)) && !Slips(Wire("", "", code))
  {
    OfNoFamily(code);
    hide Backend, Misfit, OverBudget;
  }

  lemma OfNoFamily(code: string)
    requires code in {"TOOL_BLOCKED", "LOOP_DETECTED", "RATE_LIMIT_EXCEEDED", "EXECUTION_NOT_FOUND", "WORKFLOW_PAUSED",
                      "APPROVAL_DENIED", "API_KEY_REVOKED", "PROTOCOL_TOO_OLD", "RATE_LIMIT_REDIS_UNAVAILABLE",
                      "policy violation"}
    ensures code != "" && !Backend(code) && !Misfit(code) && !OverBudget(code)
  {
  }

  /** A budget that is spent is honoured as a budget decision. */
  lemma SpentBudgetHonoured(code: string, top: string, text: string)
    requires code in {"BUDGET_HARD_BLOCKED", "BUDGET_SOFT_BLOCKED", "BUDGET_OVERDRAFT_EXCEEDED",
                      "BUDGET_PERIOD_NOT_STARTED", "BUDGET_WORKFLOW_BLOCKED", "BUDGET_CACHE_EXCEEDED",
                      "BUDGET_ANTI_DOS_RESERVED_CAP", "BUDGET_REDIS_UNAVAILABLE", "BUDGET_ORG_CEILING_BLOCKED"}
    ensures Build(Wire(code, top, text)) == Build(Wire("", code, text)) == Build(Wire("", "", code)) == Budget
    ensures !Slips(Wire(code, top, text))
  {
    assert code != "" && !Backend(code) && !Misfit(code) && OverBudget(code);
    hide Backend, Misfit, OverBudget;
  }
}
