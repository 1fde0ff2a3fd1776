/** The three-state circuit breaker: its lock-protected blocks, one caller alone,
    and any number of callers interleaved at the points where they hold no lock. */
module CircuitBreakers {
  import opened Options

  datatype CbState = CLOSED | OPEN | HALF_OPEN

  datatype Config = Config(threshold: int, recoveryTimeout: real, halfOpenMaxCalls: int)

  /** The fields the lock protects. */
  datatype Breaker = Breaker(
    state: CbState,
    failureCount: int,
    lastFailure: Option<real>,
    openedAt: Option<real>,
    halfOpenCalls: int,
    totalFailures: int,
    totalOpens: int,
    totalSuccesses: int
  )

  const FRESH := Breaker(CLOSED, 0, None, None, 0, 0, 0, 0)

  // ------------------------------------------------------ the locked blocks

  predicate RecoveryDue(c: Config, b: Breaker, now: real) {
    b.state == OPEN && b.lastFailure.Some? && now - b.lastFailure.value >= c.recoveryTimeout
  }

  /** Reading the `state` property moves an open breaker to half-open once the
      recovery time has passed. */
  function AfterRead(c: Config, b: Breaker, now: real): Breaker {
    if RecoveryDue(c, b, now) then b.(state := HALF_OPEN, halfOpenCalls := 0) else b
  }

  predicate SlotsTaken(c: Config, b: Breaker) {
    b.halfOpenCalls >= c.halfOpenMaxCalls
  }

  function AfterAdmit(b: Breaker): Breaker {
    b.(halfOpenCalls := b.halfOpenCalls + 1)
  }

  function AfterSync(b: Breaker): Breaker {
    b.(state := CLOSED, failureCount := 0)
  }

  function AfterSuccess(b: Breaker): Breaker {
    b.(state := CLOSED, failureCount := 0, totalSuccesses := b.totalSuccesses + 1)
  }

  /** `seen` is the state read before the lock was taken. */
  function AfterFailure(c: Config, b: Breaker, seen: CbState, now: real): Breaker {
    var counted := b.(failureCount := b.failureCount + 1,
                      lastFailure := Some(now),
                      totalFailures := b.totalFailures + 1);
    if counted.failureCount >= c.threshold then
      counted.(state := OPEN,
               openedAt := Some(now),
               totalOpens := b.totalOpens + if seen != OPEN then 1 else 0)
    else counted
  }

  /** What the shared Redis cell answered. */
  datatype Global = Absent | Present(value: string)

  /** Any value other than the two names below counts as recovered elsewhere. */
  predicate GlobalAllows(c: Config, b: Breaker, global: Global) {
    global.Present? ==> global.value != "OPEN" && (global.value == "HALF_OPEN" ==> !SlotsTaken(c, b))
  }

  function AfterGlobal(b: Breaker, global: Global): Breaker {
    if global.Present? && global.value != "OPEN" && global.value != "HALF_OPEN" then AfterSync(b) else b
  }

  ghost predicate Consistent(c: Config, b: Breaker) {
    b.state == CLOSED <==> b.failureCount < c.threshold
  }

  datatype Outcome = Returns | Raises | Escapes
  datatype CallResult = Refused | Ran

  datatype Called = Called(result: CallResult, b: Breaker)

  /** One call with no other caller about. */
  function CallAlone(c: Config, b: Breaker, global: Global, outcome: Outcome, readAt: real, endedAt: real): Called {
    var read := AfterRead(c, AfterGlobal(b, global), readAt);
    var started := if read.state == HALF_OPEN then AfterAdmit(read) else read;
    if !GlobalAllows(c, b, global) then Called(Refused, b)
    else if read.state == OPEN || (read.state == HALF_OPEN && SlotsTaken(c, read)) then Called(Refused, read)
    else
      Called(Ran, match outcome
                  case Returns => AfterSuccess(started)
                  case Raises => AfterFailure(c, started, started.state, endedAt)
                  case Escapes => started)
  }

  class CircuitBreaker {
    const config: Config
    var state: CbState
    var failureCount: int
    var lastFailure: Option<real>
    var openedAt: Option<real>
    var halfOpenCalls: int
    var totalFailures: int
    var totalOpens: int
    var totalSuccesses: int

    ghost function View(): Breaker
      reads this
    {
      Breaker(state, failureCount, lastFailure, openedAt, halfOpenCalls, totalFailures, totalOpens, totalSuccesses)
    }

    ghost predicate Valid()
      reads this
    {
      Consistent(config, View())
    }

    constructor (config: Config)
      requires config.threshold >= 1
      ensures Valid() && this.config == config && View() == FRESH
    {
      this.config := config;
      state, failureCount, lastFailure, openedAt, halfOpenCalls := CLOSED, 0, None, None, 0;
      totalFailures, totalOpens, totalSuccesses := 0, 0, 0;
    }

    method ReadState(now: real) returns (s: CbState)
      requires Valid()
      modifies this
      ensures Valid() && View() == AfterRead(config, old(View()), now) && s == state
      ensures old(state) == OPEN && old(lastFailure).Some? && now - old(lastFailure).value >= config.recoveryTimeout
              <==> old(state) == OPEN && s == HALF_OPEN
    {
      if state == OPEN {
        if lastFailure.Some? && now - lastFailure.value >= config.recoveryTimeout {
          state := HALF_OPEN;
          halfOpenCalls := 0;
        }
      }
      return state;
    }

    method TryAdmit() returns (admitted: bool)
      requires Valid()
      modifies this
      ensures Valid()
      ensures admitted == !SlotsTaken(config, old(View()))
      ensures View() == if admitted then AfterAdmit(old(View())) else old(View())
    {
      if halfOpenCalls >= config.halfOpenMaxCalls { return false; }
      halfOpenCalls := halfOpenCalls + 1;
      return true;
    }

    method OnSuccess()
      requires Valid() && config.threshold >= 1
      modifies this
      ensures Valid() && View() == AfterSuccess(old(View()))
    {
      state := CLOSED;
      failureCount := 0;
      totalSuccesses := totalSuccesses + 1;
    }

    method OnFailure(seen: CbState, now: real)
      requires Valid()
      modifies this
      ensures Valid() && View() == AfterFailure(config, old(View()), seen, now)
    {
      failureCount := failureCount + 1;
      lastFailure := Some(now);
      totalFailures := totalFailures + 1;
      if failureCount >= config.threshold {
        if seen != OPEN { totalOpens := totalOpens + 1; }
        state := OPEN;
        openedAt := Some(now);
      }
    }

    method GlobalStateAllowsCall(global: Global) returns (allowed: bool)
      requires Valid() && config.threshold >= 1
      modifies this
      ensures Valid()
      ensures allowed == GlobalAllows(config, old(View()), global)
      ensures View() == AfterGlobal(old(View()), global)
      ensures global == Present("OPEN") ==> !allowed && View() == old(View())
    {
      match global {
        case Absent => return true;
        case Present(value) =>
          if value == "OPEN" { return false; }
          if value == "HALF_OPEN" { return halfOpenCalls < config.halfOpenMaxCalls; }
          state := CLOSED;
          failureCount := 0;
          return true;
      }
    }

    /** One call with no other caller about. Alone, `totalOpens` counts exactly
        the failures that leave the breaker OPEN. */
    method Call(global: Global, outcome: Outcome, readAt: real, endedAt: real) returns (r: CallResult)
      requires Valid() && config.threshold >= 1
      modifies this
      ensures Valid()
      ensures Called(r, View()) == CallAlone(config, old(View()), global, outcome, readAt, endedAt)
      ensures global == Present("OPEN") ==> r == Refused && View() == old(View())
      ensures totalOpens == old(totalOpens) + if r == Ran && outcome == Raises && state == OPEN then 1 else 0
    {
      var allowed := GlobalStateAllowsCall(global);
      if !allowed { return Refused; }
      var s := ReadState(readAt);
      if s == OPEN { return Refused; }
      if s == HALF_OPEN {
        var admitted := TryAdmit();
        if !admitted { return Refused; }
      }
      match outcome {
        case Returns => OnSuccess();
        case Raises => OnFailure(state, endedAt);
        case Escapes =>
      }
      return Ran;
    }
  }

  // ---------------------------------------------------- interleaved callers

  /** Where one call is between two lock-protected blocks. */
  datatype Pc =
    | GlobalPending(value: string)       // read the shared cell, lock not taken yet
    | Allowed
    | Admitting                          // saw HALF_OPEN
    | Running(via: CbState)              // through the state it read
    | Recording(ok: bool, seen: CbState) // function over, state read without the lock
    | Gone

  datatype Event =
    | Entered(at: real)                  // OPEN became HALF_OPEN
    | Saw(id: nat, state: CbState)
    | Started(id: nat, via: CbState)     // allowed to run its function
    | Failed(id: nat, at: real)
    | Succeeded(id: nat)
    | Synced
    | TurnedAway(id: nat)

  datatype History = Nothing | Then(past: History, event: Event)

  datatype System = System(b: Breaker, now: real, calls: map<nat, Pc>, history: History)

  datatype Action =
    | GlobalCheck(id: nat, global: Global)
    | GlobalApply(id: nat)
    | Read(id: nat)
    | Admit(id: nat)
    | Finish(id: nat, outcome: Outcome)
    | Record(id: nat)
    | Tick(dt: real)

  const INITIAL := System(FRESH, 0.0, map[], Nothing)

  function Goto(s: System, id: nat, pc: Pc): System {
    s.(calls := s.calls[id := pc])
  }

  function Log(s: System, e: Event): System {
    s.(history := Then(s.history, e))
  }

  predicate At(s: System, id: nat, pc: Pc) {
    id in s.calls && s.calls[id] == pc
  }

  /** One step of one call. An action whose call is elsewhere changes nothing, so
      every sequence of actions is a run. */
  function Step(c: Config, s: System, a: Action): System {
    match a
    case Tick(dt) => if dt >= 0.0 then s.(now := s.now + dt) else s
    case GlobalCheck(id, global) =>
      if id in s.calls then s
      else if global.Absent? then Goto(s, id, Allowed)
      else if global.value == "OPEN" then Log(Goto(s, id, Gone), TurnedAway(id))
      else Goto(s, id, GlobalPending(global.value))
    case GlobalApply(id) =>
      if id !in s.calls || !s.calls[id].GlobalPending? then s
      else if s.calls[id].value != "HALF_OPEN" then
        Log(Goto(s.(b := AfterSync(s.b)), id, Allowed), Synced)
      else if SlotsTaken(c, s.b) then Log(Goto(s, id, Gone), TurnedAway(id))
      else Goto(s, id, Allowed)
    case Read(id) =>
      if !At(s, id, Allowed) then s
      else
        var entered := if RecoveryDue(c, s.b, s.now) then Log(s, Entered(s.now)) else s;
        var b := AfterRead(c, s.b, s.now);
        var saw := Log(entered.(b := b), Saw(id, b.state));
        if b.state == OPEN then Log(Goto(saw, id, Gone), TurnedAway(id))
        else if b.state == HALF_OPEN then Goto(saw, id, Admitting)
        else Log(Goto(saw, id, Running(CLOSED)), Started(id, CLOSED))
    case Admit(id) =>
      if !At(s, id, Admitting) then s
      else if SlotsTaken(c, s.b) then Log(Goto(s, id, Gone), TurnedAway(id))
      else Log(Goto(s.(b := AfterAdmit(s.b)), id, Running(HALF_OPEN)), Started(id, HALF_OPEN))
    case Finish(id, outcome) =>
      if id !in s.calls || !s.calls[id].Running? then s
      else if outcome == Escapes then Goto(s, id, Gone)
      else Goto(s, id, Recording(outcome == Returns, s.b.state))
    case Record(id) =>
      if id !in s.calls || !s.calls[id].Recording? then s
      else if s.calls[id].ok then
        Log(Goto(s.(b := AfterSuccess(s.b)), id, Gone), Succeeded(id))
      else
        Log(Goto(s.(b := AfterFailure(c, s.b, s.calls[id].seen, s.now)), id, Gone), Failed(id, s.now))
  }

  function Run(c: Config, s: System, actions: seq<Action>): System
    decreases |actions|
  {
    if actions == [] then s else Run(c, Step(c, s, actions[0]), actions[1..])
  }

  // ----------------------------------------------- what a history amounts to

  /** Failures recorded since the last success or recovery elsewhere. */
  ghost function FailuresSince(h: History): nat {
    match h
    case Nothing => 0
    case Then(past, e) =>
      if e.Succeeded? || e.Synced? then 0
      else FailuresSince(past) + if e.Failed? then 1 else 0
  }

  ghost function LastFailureIn(h: History): Option<real> {
    match h
    case Nothing => None
    case Then(past, e) => if e.Failed? then Some(e.at) else LastFailureIn(past)
  }

  /** Calls let through the half-open branch since the last entry into it. */
  ghost function ProbesSinceEntry(h: History): nat {
    match h
    case Nothing => 0
    case Then(past, e) =>
      if e.Entered? then 0
      else ProbesSinceEntry(past) + if e.Started? && e.via == HALF_OPEN then 1 else 0
  }

  ghost predicate Happened(h: History, e: Event) {
    h.Then? && (h.event == e || Happened(h.past, e))
  }

  ghost predicate ReadOnce(h: History, id: nat) {
    h.Then? ==> !(h.event.Saw? && h.event.id == id) && ReadOnce(h.past, id)
  }

  function Cap(c: Config): nat {
    if c.halfOpenMaxCalls < 0 then 0 else c.halfOpenMaxCalls
  }

  /** At every moment of the history, the half-open branch has let through no
      more than the cap since its last entry. */
  ghost predicate ProbesCapped(c: Config, h: History) {
    h.Then? ==> ProbesSinceEntry(h) <= Cap(c) && ProbesCapped(c, h.past)
  }

  /** Every entry into HALF_OPEN came the recovery time after the failure that
      was the last one then. */
  ghost predicate EntriesDue(c: Config, h: History) {
    h.Then? ==>
      && EntriesDue(c, h.past)
      && (h.event.Entered? ==>
            && LastFailureIn(h.past).Some?
            && h.event.at - LastFailureIn(h.past).value >= c.recoveryTimeout)
  }

  /** A call reads the state once, and runs its function only through the state
      it read, never through OPEN. */
  ghost predicate StartsWarranted(h: History) {
    h.Then? ==>
      && StartsWarranted(h.past)
      && (h.event.Saw? ==> ReadOnce(h.past, h.event.id))
      && (h.event.Started? ==> h.event.via != OPEN && Happened(h.past, Saw(h.event.id, h.event.via)))
  }

  ghost predicate PcMatches(h: History, id: nat, pc: Pc) {
    && (pc.GlobalPending? || pc.Allowed? ==> ReadOnce(h, id))
    && (pc.Admitting? ==> Happened(h, Saw(id, HALF_OPEN)))
  }

  ghost predicate Invariant(c: Config, s: System) {
    && Consistent(c, s.b)
    && s.b.failureCount == FailuresSince(s.history)
    && s.b.lastFailure == LastFailureIn(s.history)
    && s.b.halfOpenCalls == ProbesSinceEntry(s.history) <= Cap(c)
    && ProbesCapped(c, s.history)
    && EntriesDue(c, s.history)
    && StartsWarranted(s.history)
    && (forall id :: id !in s.calls ==> ReadOnce(s.history, id))
    && (forall id :: id in s.calls ==> PcMatches(s.history, id, s.calls[id]))
  }

  lemma Remembers(h: History, e: Event)
    ensures forall id, pc :: PcMatches(h, id, pc) && !(e.Saw? && e.id == id) ==> PcMatches(Then(h, e), id, pc)
    ensures forall id :: ReadOnce(h, id) && !(e.Saw? && e.id == id) ==> ReadOnce(Then(h, e), id)
  {
  }

  lemma ReadKeeps(c: Config, s: System, id: nat)
    requires Invariant(c, s)
    ensures Invariant(c, Step(c, s, Read(id)))
  {
    if At(s, id, Allowed) {
      var h1 := if RecoveryDue(c, s.b, s.now) then Then(s.history, Entered(s.now)) else s.history;
      var state := AfterRead(c, s.b, s.now).state;
      Remembers(s.history, Entered(s.now));
      assert forall i :: i in s.calls ==> PcMatches(h1, i, s.calls[i]);
      var h2 := Then(h1, Saw(id, state));
      Remembers(h1, Saw(id, state));
      Remembers(h2, TurnedAway(id));
      Remembers(h2, Started(id, CLOSED));
    }
  }

  lemma RecordKeeps(c: Config, s: System, id: nat)
    requires c.threshold >= 1 && Invariant(c, s)
    ensures Invariant(c, Step(c, s, Record(id)))
  {
    Remembers(s.history, Succeeded(id));
    Remembers(s.history, Failed(id, s.now));
  }

  lemma StepKeeps(c: Config, s: System, a: Action)
    requires c.threshold >= 1 && Invariant(c, s)
    ensures Invariant(c, Step(c, s, a))
  {
    if a.Read? {
      ReadKeeps(c, s, a.id);
    } else if a.Record? {
      RecordKeeps(c, s, a.id);
    } else {
      var t := Step(c, s, a);
      if t.history != s.history {
        Remembers(s.history, t.history.event);
      }
    }
  }

  lemma {:induction false} RunKeeps(c: Config, s: System, actions: seq<Action>)
    requires c.threshold >= 1 && Invariant(c, s)
    ensures Invariant(c, Run(c, s, actions))
    decreases |actions|
  {
    if actions != [] {
      StepKeeps(c, s, actions[0]);
      RunKeeps(c, Step(c, s, actions[0]), actions[1..]);
    }
  }

  lemma EveryRun(c: Config, actions: seq<Action>)
    requires c.threshold >= 1
    ensures Invariant(c, Run(c, INITIAL, actions))
  {
    RunKeeps(c, INITIAL, actions);
  }

  // ------------------------------------------------------------ the theorems

  /** Whenever the lock is free, the breaker is closed exactly when fewer than
      `threshold` failures were recorded since the last success or recovery
      elsewhere. */
  lemma ClosedExactly(c: Config, actions: seq<Action>)
    requires c.threshold >= 1
    ensures var s := Run(c, INITIAL, actions);
            && s.b.failureCount == FailuresSince(s.history)
            && (s.b.state == CLOSED <==> FailuresSince(s.history) < c.threshold)
  {
    EveryRun(c, actions);
  }

  /** A failure recorded while the breaker is half-open reopens it, whatever the
      caller saw before it took the lock. */
  lemma ProbeFailureReopens(c: Config, actions: seq<Action>, id: nat)
    requires c.threshold >= 1
    requires var s := Run(c, INITIAL, actions);
             s.b.state == HALF_OPEN && id in s.calls && s.calls[id].Recording? && !s.calls[id].ok
    ensures Step(c, Run(c, INITIAL, actions), Record(id)).b.state == OPEN
  {
    EveryRun(c, actions);
  }

  /** Between two entries into HALF_OPEN at most `halfOpenMaxCalls` calls are let
      through that branch, also counting calls that read HALF_OPEN in an earlier
      episode; and no entry comes before the recovery time is over. */
  lemma HalfOpenBounded(c: Config, actions: seq<Action>)
    requires c.threshold >= 1
    ensures ProbesCapped(c, Run(c, INITIAL, actions).history)
    ensures ProbesSinceEntry(Run(c, INITIAL, actions).history)
            <= if c.halfOpenMaxCalls < 0 then 0 else c.halfOpenMaxCalls
    ensures EntriesDue(c, Run(c, INITIAL, actions).history)
  {
    EveryRun(c, actions);
  }

  /** An open breaker is found half-open exactly when the recovery time has passed
      since the last failure recorded, in every run. */
  lemma RecoversExactly(c: Config, actions: seq<Action>, id: nat)
    requires c.threshold >= 1
    requires var s := Run(c, INITIAL, actions); At(s, id, Allowed) && s.b.state == OPEN
    ensures var s := Run(c, INITIAL, actions);
            var t := Step(c, s, Read(id));
            && (t.b.state == HALF_OPEN <==> LastFailureIn(s.history).Some?
                                            && s.now - LastFailureIn(s.history).value >= c.recoveryTimeout)
            && (t.b.state == HALF_OPEN ==> t.b.halfOpenCalls == 0)
            && (t.b.state == HALF_OPEN || t.b.state == OPEN)
  {
    EveryRun(c, actions);
  }

  ghost function FailuresIn(h: History): nat {
    if h.Nothing? then 0 else FailuresIn(h.past) + if h.event.Failed? then 1 else 0
  }

  ghost function SuccessesIn(h: History): nat {
    if h.Nothing? then 0 else SuccessesIn(h.past) + if h.event.Succeeded? then 1 else 0
  }

  ghost predicate Counts(s: System) {
    s.b.totalFailures == FailuresIn(s.history) && s.b.totalSuccesses == SuccessesIn(s.history)
  }

  lemma CountsStep(c: Config, s: System, a: Action)
    requires Counts(s)
    ensures Counts(Step(c, s, a))
  {
    if a.Read? && At(s, a.id, Allowed) {
      var entered := if RecoveryDue(c, s.b, s.now) then Then(s.history, Entered(s.now)) else s.history;
      assert FailuresIn(entered) == FailuresIn(s.history) && SuccessesIn(entered) == SuccessesIn(s.history);
      var saw := Then(entered, Saw(a.id, AfterRead(c, s.b, s.now).state));
      assert FailuresIn(saw) == FailuresIn(entered) && SuccessesIn(saw) == SuccessesIn(entered);
    }
  }

  lemma {:induction false} RunCounts(c: Config, s: System, actions: seq<Action>)
    requires Counts(s)
    ensures Counts(Run(c, s, actions))
    decreases |actions|
  {
    if actions != [] {
      CountsStep(c, s, actions[0]);
      RunCounts(c, Step(c, s, actions[0]), actions[1..]);
    }
  }

  /** The totals count every failure and every success recorded, over every run. */
  lemma TotalsExact(c: Config, actions: seq<Action>)
    ensures var s := Run(c, INITIAL, actions);
            s.b.totalFailures == FailuresIn(s.history) && s.b.totalSuccesses == SuccessesIn(s.history)
  {
    RunCounts(c, INITIAL, actions);
  }

  lemma {:induction false} StartedSawIt(h: History, id: nat, via: CbState)
    requires StartsWarranted(h) && Happened(h, Started(id, via))
    ensures via != OPEN && Happened(h, Saw(id, via))
  {
    if h.event != Started(id, via) {
      StartedSawIt(h.past, id, via);
    }
  }

  lemma {:induction false} NotReadOnceMore(h: History, id: nat, x: CbState)
    requires ReadOnce(h, id)
    ensures !Happened(h, Saw(id, x))
  {
    if h.Then? {
      NotReadOnceMore(h.past, id, x);
    }
  }

  lemma {:induction false} SawOneState(h: History, id: nat, x: CbState, y: CbState)
    requires StartsWarranted(h) && Happened(h, Saw(id, x)) && Happened(h, Saw(id, y))
    ensures x == y
  {
    if h.event == Saw(id, x) || h.event == Saw(id, y) {
      if x != y {
        NotReadOnceMore(h.past, id, if h.event == Saw(id, x) then y else x);
        assert false;
      }
    } else {
      SawOneState(h.past, id, x, y);
    }
  }

  /** A call that sees OPEN never runs its function. */
  lemma OpenNeverRuns(c: Config, actions: seq<Action>, id: nat, via: CbState)
    requires c.threshold >= 1
    requires Happened(Run(c, INITIAL, actions).history, Saw(id, OPEN))
    ensures !Happened(Run(c, INITIAL, actions).history, Started(id, via))
  {
    EveryRun(c, actions);
    var h := Run(c, INITIAL, actions).history;
    if Happened(h, Started(id, via)) {
      StartedSawIt(h, id, via);
      SawOneState(h, id, OPEN, via);
      assert false;
    }
  }

  // ------------------------------------------------------ the shared cell

  /** A call goes past the shared cell exactly if the cell is empty, half-open with a
      local slot left, or says anything else but "OPEN"; and in that last case alone
      the local breaker closes. */
  lemma SharedCell(c: Config, b: Breaker, value: string)
    ensures GlobalAllows(c, b, Absent) && AfterGlobal(b, Absent) == b
    ensures !GlobalAllows(c, b, Present("OPEN")) && AfterGlobal(b, Present("OPEN")) == b
    ensures GlobalAllows(c, b, Present("HALF_OPEN")) <==> b.halfOpenCalls < c.halfOpenMaxCalls
    ensures AfterGlobal(b, Present("HALF_OPEN")) == b
    ensures value != "OPEN" && value != "HALF_OPEN" ==>
              && GlobalAllows(c, b, Present(value))
              && AfterGlobal(b, Present(value)) == b.(state := CLOSED, failureCount := 0)
  {
  }

  lemma RunOne(c: Config, s: System, a: Action, rest: seq<Action>)
    ensures Run(c, s, [a] + rest) == Run(c, Step(c, s, a), rest)
  {
    assert ([a] + rest)[1..] == rest;
  }

  /** The check of the shared cell and what is done about it, run together, are
      `_global_state_allows_call`. */
  lemma UninterruptedCheck(c: Config, s: System, id: nat, global: Global)
    requires id !in s.calls
    ensures var t := Step(c, Step(c, s, GlobalCheck(id, global)), GlobalApply(id));
            && t.b == AfterGlobal(s.b, global) && t.now == s.now
            && At(t, id, if GlobalAllows(c, s.b, global) then Allowed else Gone)
            && EverStarted(t.history, id) == EverStarted(s.history, id)
  {
  }

  ghost predicate EverStarted(h: History, id: nat) {
    h.Then? && ((h.event.Started? && h.event.id == id) || EverStarted(h.past, id))
  }

  lemma ReadStarts(c: Config, s: System, id: nat)
    requires At(s, id, Allowed)
    ensures var t, b := Step(c, s, Read(id)), AfterRead(c, s.b, s.now);
            && t.b == b && t.now == s.now
            && At(t, id, if b.state == OPEN then Gone else if b.state == HALF_OPEN then Admitting else Running(CLOSED))
            && (EverStarted(t.history, id) <==> EverStarted(s.history, id) || b.state == CLOSED)
  {
    var entered := if RecoveryDue(c, s.b, s.now) then Then(s.history, Entered(s.now)) else s.history;
    assert EverStarted(entered, id) == EverStarted(s.history, id);
    var saw := Then(entered, Saw(id, AfterRead(c, s.b, s.now).state));
    assert EverStarted(saw, id) == EverStarted(entered, id);
  }

  /** Past the shared cell, the read, the admission, the function and the record,
      run together, are the rest of the call. */
  lemma UninterruptedRest(c: Config, s: System, id: nat, outcome: Outcome)
    requires At(s, id, Allowed)
    ensures var t := Step(c, Step(c, Step(c, Step(c, s, Read(id)), Admit(id)), Finish(id, outcome)), Record(id));
            && t.b == CallAlone(c, s.b, Absent, outcome, s.now, s.now).b
            && (EverStarted(t.history, id)
                <==> EverStarted(s.history, id) || CallAlone(c, s.b, Absent, outcome, s.now, s.now).result == Ran)
  {
    var read := Step(c, s, Read(id));
    ReadStarts(c, s, id);
    var admitted := Step(c, read, Admit(id));
    assert admitted.b == if read.b.state == HALF_OPEN && !SlotsTaken(c, read.b) then AfterAdmit(read.b) else read.b;
    assert EverStarted(admitted.history, id)
           <==> EverStarted(read.history, id) || (read.b.state == HALF_OPEN && !SlotsTaken(c, read.b));
    var ended := Step(c, Step(c, admitted, Finish(id, outcome)), Record(id));
    assert EverStarted(ended.history, id) == EverStarted(admitted.history, id);
  }

  /** The steps of one call, with no step of another between them, are the method:
      the same breaker, and the function run exactly when the method says so. */
  lemma UninterruptedCall(c: Config, s: System, id: nat, global: Global, outcome: Outcome)
    requires id !in s.calls && !EverStarted(s.history, id)
    ensures var t := Run(c, s, [GlobalCheck(id, global), GlobalApply(id), Read(id), Admit(id),
                                Finish(id, outcome), Record(id)]);
            && t.b == CallAlone(c, s.b, global, outcome, s.now, s.now).b
            && (EverStarted(t.history, id) <==> CallAlone(c, s.b, global, outcome, s.now, s.now).result == Ran)
  {
    var checked := Step(c, Step(c, s, GlobalCheck(id, global)), GlobalApply(id));
    RunSix(c, s, GlobalCheck(id, global), GlobalApply(id), Read(id), Admit(id), Finish(id, outcome), Record(id));
    UninterruptedCheck(c, s, id, global);
    if GlobalAllows(c, s.b, global) {
      UninterruptedRest(c, checked, id, outcome);
    } else {
      GoneStays(c, checked, id, outcome);
      hide Step;
    }
  }

  lemma GoneStays(c: Config, s: System, id: nat, outcome: Outcome)
    requires At(s, id, Gone)
    ensures Step(c, Step(c, Step(c, Step(c, s, Read(id)), Admit(id)), Finish(id, outcome)), Record(id)) == s
  {
  }

  lemma RunSix(c: Config, s: System, a: Action, b: Action, d: Action, e: Action, f: Action, g: Action)
    ensures Run(c, s, [a, b, d, e, f, g])
            == Step(c, Step(c, Step(c, Step(c, Step(c, Step(c, s, a), b), d), e), f), g)
  {
    hide Step;
    assert [a, b, d, e, f, g] == [a] + ([b] + ([d] + ([e] + ([f] + ([g] + [])))));
    RunOne(c, s, a, [b] + ([d] + ([e] + ([f] + ([g] + [])))));
    var t := Step(c, s, a);
    RunOne(c, t, b, [d] + ([e] + ([f] + ([g] + []))));
    RunOne(c, Step(c, t, b), d, [e] + ([f] + ([g] + [])));
    RunOne(c, Step(c, Step(c, t, b), d), e, [f] + ([g] + []));
    RunOne(c, Step(c, Step(c, Step(c, t, b), d), e), f, [g] + []);
    RunOne(c, Step(c, Step(c, Step(c, Step(c, t, b), d), e), f), g, []);
  }

  ghost predicate StartedKnown(s: System) {
    forall id :: EverStarted(s.history, id) ==> id in s.calls
  }

  lemma {:induction false} KnownRun(c: Config, s: System, actions: seq<Action>)
    requires StartedKnown(s)
    ensures StartedKnown(Run(c, s, actions))
    decreases |actions|
  {
    if actions != [] {
      assert StartedKnown(Step(c, s, actions[0]));
      KnownRun(c, Step(c, s, actions[0]), actions[1..]);
    }
  }

  lemma {:induction false} GoneNeverStarts(c: Config, s: System, id: nat, actions: seq<Action>)
    requires At(s, id, Gone) && !EverStarted(s.history, id)
    ensures !EverStarted(Run(c, s, actions).history, id)
    decreases |actions|
  {
    if actions != [] {
      assert At(Step(c, s, actions[0]), id, Gone) && !EverStarted(Step(c, s, actions[0]).history, id);
      GoneNeverStarts(c, Step(c, s, actions[0]), id, actions[1..]);
    }
  }

  /** In no run does a call start that was told the breaker is open elsewhere. */
  lemma ToldOpenNeverStarts(c: Config, before: seq<Action>, id: nat, later: seq<Action>)
    requires id !in Run(c, INITIAL, before).calls
    ensures !EverStarted(Run(c, INITIAL, before + ([GlobalCheck(id, Present("OPEN"))] + later)).history, id)
  {
    var s := Run(c, INITIAL, before);
    KnownRun(c, INITIAL, before);
    RunSplits(c, INITIAL, before, [GlobalCheck(id, Present("OPEN"))] + later);
    RunOne(c, s, GlobalCheck(id, Present("OPEN")), later);
    GoneNeverStarts(c, Step(c, s, GlobalCheck(id, Present("OPEN"))), id, later);
  }

  // --------------------------------------------- what the cap does not give

  ghost predicate Reachable(c: Config, s: System) {
    exists actions :: s == Run(c, INITIAL, actions)
  }

  lemma {:induction false} RunSplits(c: Config, s: System, xs: seq<Action>, ys: seq<Action>)
    ensures Run(c, s, xs + ys) == Run(c, Run(c, s, xs), ys)
    decreases |xs|
  {
    hide Step;
    if xs == [] {
      assert [] + ys == ys;
    } else {
      assert (xs + ys)[1..] == xs[1..] + ys;
      RunSplits(c, Step(c, s, xs[0]), xs[1..], ys);
    }
  }

  lemma Next(c: Config, s: System, a: Action) returns (t: System)
    requires Reachable(c, s)
    ensures t == Step(c, s, a) && Reachable(c, t)
  {
    var actions :| s == Run(c, INITIAL, actions);
    RunSplits(c, INITIAL, actions, [a]);
    t := Step(c, s, a);
    assert [a][1..] == [] && Run(c, s, [a]) == Run(c, t, []);
  }

  lemma Begin(c: Config) returns (s: System)
    ensures s == INITIAL && Reachable(c, s)
  {
    assert Run(c, INITIAL, []) == INITIAL;
    s := INITIAL;
  }

  /** Every probe slot is taken and no call is left that could free one. */
  ghost predicate Wedged(c: Config, s: System) {
    && s.b.state == HALF_OPEN && SlotsTaken(c, s.b)
    && forall id :: id in s.calls ==>
         && !s.calls[id].Running? && !s.calls[id].Recording?
         && (s.calls[id].GlobalPending? ==> s.calls[id].value == "HALF_OPEN")
  }

  /** The shared cell never reports a recovery. */
  ghost predicate NoRescue(actions: seq<Action>) {
    forall i :: 0 <= i < |actions| && actions[i].GlobalCheck? && actions[i].global.Present? ==>
      actions[i].global.value == "OPEN" || actions[i].global.value == "HALF_OPEN"
  }

  ghost function Starts(h: History): nat {
    match h
    case Nothing => 0
    case Then(past, e) => Starts(past) + if e.Started? then 1 else 0
  }

  lemma WedgedStep(c: Config, s: System, a: Action)
    requires Wedged(c, s) && NoRescue([a])
    ensures Wedged(c, Step(c, s, a)) && Starts(Step(c, s, a).history) == Starts(s.history)
  {
    assert [a][0] == a;
  }

  /** A wedged breaker stays wedged for ever: no later call runs, however long
      the clock advances. */
  lemma {:induction false} WedgedForever(c: Config, s: System, actions: seq<Action>)
    requires Wedged(c, s) && NoRescue(actions)
    ensures Wedged(c, Run(c, s, actions))
    ensures Starts(Run(c, s, actions).history) == Starts(s.history)
    decreases |actions|
  {
    if actions != [] {
      assert [actions[0]][0] == actions[0];
      WedgedStep(c, s, actions[0]);
      WedgedForever(c, Step(c, s, actions[0]), actions[1..]);
    }
  }

  // ----------------------------------------- exactly when a breaker is wedged

  /** Without a recovery elsewhere, some later call runs. */
  ghost predicate CanStart(c: Config, s: System) {
    exists actions :: NoRescue(actions) && Starts(Run(c, s, actions).history) > Starts(s.history)
  }

  lemma StartsGrow(c: Config, s: System, a: Action)
    ensures Starts(Step(c, s, a).history) >= Starts(s.history)
  {
  }

  lemma StartsNow(c: Config, s: System, a: Action)
    requires NoRescue([a]) && Starts(Step(c, s, a).history) > Starts(s.history)
    ensures CanStart(c, s)
  {
    assert [a][1..] == [];
    assert Run(c, s, [a]) == Run(c, Step(c, s, a), []);
  }

  lemma StartsLater(c: Config, s: System, a: Action)
    requires NoRescue([a]) && CanStart(c, Step(c, s, a))
    ensures CanStart(c, s)
  {
    hide Step, Starts;
    StartsGrow(c, s, a);
    var t := Step(c, s, a);
    var rest :| NoRescue(rest) && Starts(Run(c, t, rest).history) > Starts(t.history);
    var actions := [a] + rest;
    assert [a][0] == a && actions[1..] == rest;
    assert forall i :: 1 <= i < |actions| ==> actions[i] == rest[i - 1];
    assert Run(c, s, actions) == Run(c, t, rest);
  }

  lemma {:induction false} SomeFresh(used: set<nat>) returns (n: nat)
    ensures forall id :: id in used ==> id < n
  {
    if used == {} {
      n := 0;
    } else {
      var id :| id in used;
      var m := SomeFresh(used - {id});
      n := if id < m then m else id + 1;
      assert forall x :: x in used ==> x == id || x in used - {id};
    }
  }

  lemma ClosedCanStart(c: Config, s: System)
    requires s.b.state == CLOSED
    ensures CanStart(c, s)
  {
    var n := SomeFresh(s.calls.Keys);
    assert n !in s.calls;
    var t := Step(c, s, GlobalCheck(n, Absent));
    StartsNow(c, t, Read(n));
    StartsLater(c, s, GlobalCheck(n, Absent));
  }

  lemma OpenCanStart(c: Config, s: System)
    requires c.halfOpenMaxCalls >= 1 && s.b.state == OPEN && s.b.lastFailure.Some?
    ensures CanStart(c, s)
  {
    hide CanStart, Run;
    var n := SomeFresh(s.calls.Keys);
    assert n !in s.calls;
    var due := c.recoveryTimeout - (s.now - s.b.lastFailure.value);
    var dt := if due > 0.0 then due else 0.0;
    var waited := Step(c, s, Tick(dt));
    var called := Step(c, waited, GlobalCheck(n, Absent));
    assert At(called, n, Allowed) && RecoveryDue(c, called.b, called.now);
    var read := Step(c, called, Read(n));
    assert At(read, n, Admitting) && read.b.halfOpenCalls == 0;
    StartsNow(c, read, Admit(n));
    hide Step, NoRescue;
    assert NoRescue([Read(n)]) && NoRescue([GlobalCheck(n, Absent)]) && NoRescue([Tick(dt)]) by { Harmless(n, dt); }
    StartsLater(c, called, Read(n));
    StartsLater(c, waited, GlobalCheck(n, Absent));
    StartsLater(c, s, Tick(dt));
  }

  lemma Harmless(n: nat, dt: real)
    ensures NoRescue([Read(n)]) && NoRescue([GlobalCheck(n, Absent)]) && NoRescue([Tick(dt)])
  {
  }

  lemma RecordingCanStart(c: Config, s: System, id: nat)
    requires c.halfOpenMaxCalls >= 1 && Consistent(c, s.b) && s.b.state == HALF_OPEN
    requires id in s.calls && s.calls[id].Recording?
    ensures CanStart(c, s)
  {
    hide CanStart, Run;
    var t := Step(c, s, Record(id));
    if s.calls[id].ok { ClosedCanStart(c, t); } else { OpenCanStart(c, t); }
    StartsLater(c, s, Record(id));
  }

  lemma UnwedgedCanStart(c: Config, s: System, id: nat)
    requires c.threshold >= 1 && c.halfOpenMaxCalls >= 1 && Consistent(c, s.b) && s.b.state == HALF_OPEN
    requires id in s.calls
    requires || s.calls[id].Running? || s.calls[id].Recording?
             || (s.calls[id].GlobalPending? && s.calls[id].value != "HALF_OPEN")
    ensures CanStart(c, s)
  {
    hide CanStart, Run;
    if s.calls[id].Recording? {
      RecordingCanStart(c, s, id);
    } else if s.calls[id].Running? {
      RecordingCanStart(c, Step(c, s, Finish(id, Returns)), id);
      StartsLater(c, s, Finish(id, Returns));
    } else {
      ClosedCanStart(c, Step(c, s, GlobalApply(id)));
      StartsLater(c, s, GlobalApply(id));
    }
  }

  /** In any run that has come to HALF_OPEN with every slot taken, another call can
      ever run, without a recovery elsewhere, exactly when the breaker is not
      wedged. */
  lemma WedgedExactly(c: Config, actions: seq<Action>)
    requires c.threshold >= 1 && c.halfOpenMaxCalls >= 1
    requires var s := Run(c, INITIAL, actions); s.b.state == HALF_OPEN && SlotsTaken(c, s.b)
    ensures var s := Run(c, INITIAL, actions); CanStart(c, s) <==> !Wedged(c, s)
  {
    hide CanStart, Run, INITIAL;
    var s := Run(c, INITIAL, actions);
    if Wedged(c, s) {
      WedgedCannot(c, s);
    } else {
      var id :| id in s.calls && (s.calls[id].Running? || s.calls[id].Recording?
                                  || (s.calls[id].GlobalPending? && s.calls[id].value != "HALF_OPEN"));
      EveryRun(c, actions);
      UnwedgedCanStart(c, s, id);
    }
  }

  lemma WedgedCannot(c: Config, s: System)
    requires Wedged(c, s)
    ensures !CanStart(c, s)
  {
    forall actions | NoRescue(actions)
      ensures Starts(Run(c, s, actions).history) == Starts(s.history)
    {
      WedgedForever(c, s, actions);
    }
  }

  /** The last call that could free a slot wedges the breaker exactly when it ends
      in a `BaseException`, at any configuration. */
  lemma LastEscapeWedges(c: Config, s: System, id: nat, outcome: Outcome)
    requires s.b.state == HALF_OPEN && SlotsTaken(c, s.b) && id in s.calls && s.calls[id].Running?
    requires Wedged(c, s.(calls := s.calls - {id}))
    ensures Wedged(c, Step(c, s, Finish(id, outcome))) <==> outcome == Escapes
  {
    var rest, t := s.calls - {id}, Step(c, s, Finish(id, outcome));
    assert forall k :: k in t.calls && k != id ==> k in rest && t.calls[k] == rest[k];
    assert id in t.calls && (t.calls[id].Recording? <==> outcome != Escapes);
  }

  // ---------------------------------------------- exactly when probes overlap

  /** Calls that run through the half-open branch now. */
  ghost function Probes(s: System): set<nat> {
    set id | id in s.calls && s.calls[id] == Running(HALF_OPEN)
  }

  predicate Enters(c: Config, s: System, a: Action) {
    a.Read? && At(s, a.id, Allowed) && RecoveryDue(c, s.b, s.now)
  }

  /** Somewhere in the run a new half-open episode starts while a probe runs. */
  ghost predicate EntersDuringProbe(c: Config, s: System, actions: seq<Action>)
    decreases |actions|
  {
    actions != [] &&
    ((Enters(c, s, actions[0]) && Probes(s) != {}) || EntersDuringProbe(c, Step(c, s, actions[0]), actions[1..]))
  }

  lemma ProbesStep(c: Config, s: System, a: Action)
    requires |Probes(s)| <= s.b.halfOpenCalls && (Enters(c, s, a) ==> Probes(s) == {})
    ensures |Probes(Step(c, s, a))| <= Step(c, s, a).b.halfOpenCalls
  {
    var t := Step(c, s, a);
    if a.Tick? {
      assert Probes(t) == Probes(s);
    } else {
      assert Probes(t) <= Probes(s) + {a.id};
      if a.Admit? && At(s, a.id, Admitting) && !SlotsTaken(c, s.b) {
        assert Probes(t) == Probes(s) + {a.id};
      } else {
        assert Probes(t) <= Probes(s);
        Fewer(Probes(t), Probes(s));
      }
    }
  }

  lemma Fewer(a: set<nat>, b: set<nat>)
    requires a <= b
    ensures |a| <= |b|
  {
    assert b == a + (b - a);
  }

  lemma {:induction false} ProbesRun(c: Config, s: System, actions: seq<Action>)
    requires |Probes(s)| <= s.b.halfOpenCalls && !EntersDuringProbe(c, s, actions)
    ensures |Probes(Run(c, s, actions))| <= Run(c, s, actions).b.halfOpenCalls
    decreases |actions|
  {
    if actions != [] {
      ProbesStep(c, s, actions[0]);
      ProbesRun(c, Step(c, s, actions[0]), actions[1..]);
    }
  }

  /** In every run, more probes than the cap run at once only if a half-open episode
      has started while a probe of an earlier one ran. */
  lemma OverlapNeedsEntry(c: Config, actions: seq<Action>)
    requires c.threshold >= 1 && |Probes(Run(c, INITIAL, actions))| > Cap(c)
    ensures EntersDuringProbe(c, INITIAL, actions)
  {
    EveryRun(c, actions);
    if !EntersDuringProbe(c, INITIAL, actions) {
      assert Probes(INITIAL) == {};
      ProbesRun(c, INITIAL, actions);
    }
  }

  /** One more call is admitted. */
  lemma AdmitOne(c: Config, s: System) returns (n: nat, t: System)
    requires s.b.state == HALF_OPEN && s.b.halfOpenCalls < c.halfOpenMaxCalls
    ensures n !in s.calls && t == Run(c, s, [GlobalCheck(n, Absent), Read(n), Admit(n)])
    ensures t.b == AfterAdmit(s.b) && Probes(t) == Probes(s) + {n} && n !in Probes(s)
  {
    n := SomeFresh(s.calls.Keys);
    assert n !in s.calls;
    var called := Step(c, s, GlobalCheck(n, Absent));
    var read := Step(c, called, Read(n));
    assert At(read, n, Admitting) && read.b == s.b && read.calls == s.calls[n := Admitting];
    t := Step(c, read, Admit(n));
    assert t.calls == s.calls[n := Running(HALF_OPEN)];
    RunThree(c, s, GlobalCheck(n, Absent), Read(n), Admit(n));
  }

  lemma RunThree(c: Config, s: System, x: Action, y: Action, z: Action)
    ensures Run(c, s, [x, y, z]) == Step(c, Step(c, Step(c, s, x), y), z)
  {
    hide Step;
    assert [x, y, z][1..] == [y, z] && [y, z][1..] == [z] && [z][1..] == [];
    assert Run(c, Step(c, Step(c, s, x), y), [z]) == Run(c, Step(c, Step(c, Step(c, s, x), y), z), []);
    assert Run(c, Step(c, s, x), [y, z]) == Run(c, Step(c, Step(c, s, x), y), [z]);
  }

  lemma {:induction false} FillSlots(c: Config, s: System) returns (actions: seq<Action>)
    requires s.b.state == HALF_OPEN && 0 <= s.b.halfOpenCalls <= c.halfOpenMaxCalls && |Probes(s)| > s.b.halfOpenCalls
    ensures NoRescue(actions) && |Probes(Run(c, s, actions))| > Cap(c)
    decreases c.halfOpenMaxCalls - s.b.halfOpenCalls
  {
    if s.b.halfOpenCalls == c.halfOpenMaxCalls {
      actions := [];
    } else {
      var n, t := AdmitOne(c, s);
      hide Probes;
      var rest := FillSlots(c, t);
      var first := [GlobalCheck(n, Absent), Read(n), Admit(n)];
      actions := first + rest;
      RunSplits(c, s, first, rest);
      assert forall i :: |first| <= i < |actions| ==> actions[i] == rest[i - |first|];
    }
  }

  /** And such a start is enough: from it the cap can be exceeded. */
  lemma EntryLetsOverlap(c: Config, s: System, a: Action) returns (actions: seq<Action>)
    requires c.halfOpenMaxCalls >= 0 && Enters(c, s, a) && Probes(s) != {}
    ensures NoRescue(actions) && |Probes(Run(c, Step(c, s, a), actions))| > Cap(c)
  {
    var t := Step(c, s, a);
    assert Probes(t) == Probes(s);
    actions := FillSlots(c, t);
  }

  const ONE_SLOT := Config(1, 30.0, 1)

  /** Two calls run; one of them has failed and opened the breaker. */
  lemma OpenedWithOneRunning() returns (s: System)
    ensures Reachable(ONE_SLOT, s) && s.now == 0.0
    ensures s.b.state == OPEN && s.b.lastFailure == Some(0.0) && s.b.failureCount == 1
    ensures s.calls == map[0 := Gone, 1 := Running(CLOSED)]
  {
    hide Reachable, Run;
    s := Begin(ONE_SLOT);
    s := Next(ONE_SLOT, s, GlobalCheck(0, Absent));
    s := Next(ONE_SLOT, s, GlobalCheck(1, Absent));
    s := Next(ONE_SLOT, s, Read(0));
    s := Next(ONE_SLOT, s, Read(1));
    assert s.calls == map[0 := Running(CLOSED), 1 := Running(CLOSED)] && s.b == FRESH && s.now == 0.0;
    s := Next(ONE_SLOT, s, Finish(0, Raises));
    s := Next(ONE_SLOT, s, Record(0));
  }

  /** 30 seconds later call 2 is let through as the probe. */
  lemma ProbeRunning() returns (s: System)
    ensures Reachable(ONE_SLOT, s)
    ensures s.b.state == HALF_OPEN && s.b.halfOpenCalls == 1 && s.b.failureCount == 1 && s.now == 30.0
    ensures s.calls == map[0 := Gone, 1 := Running(CLOSED), 2 := Running(HALF_OPEN)]
    ensures Happened(s.history, Started(2, HALF_OPEN))
  {
    s := OpenedWithOneRunning();
    hide Reachable, Run;
    s := Next(ONE_SLOT, s, Tick(30.0));
    s := Next(ONE_SLOT, s, GlobalCheck(2, Absent));
    s := Next(ONE_SLOT, s, Read(2));
    assert s.calls == map[0 := Gone, 1 := Running(CLOSED), 2 := Admitting];
    s := Next(ONE_SLOT, s, Admit(2));
  }

  /** A probe that ends in a `BaseException` wedges the breaker, once the calls
      from before have ended the same way. */
  lemma EscapedProbeWedges() returns (s: System)
    ensures Reachable(ONE_SLOT, s) && Wedged(ONE_SLOT, s)
  {
    s := ProbeRunning();
    hide Reachable, Run;
    s := Next(ONE_SLOT, s, Finish(1, Escapes));
    s := Next(ONE_SLOT, s, Finish(2, Escapes));
    assert s.calls == map[0 := Gone, 1 := Gone, 2 := Gone];
  }

  /** A late failure from before reopens the breaker while the probe still runs,
      and 30 seconds pass. */
  lemma ReopenedWithProbe() returns (s: System)
    ensures Reachable(ONE_SLOT, s)
    ensures s.b.state == OPEN && s.b.lastFailure == Some(30.0) && s.now == 60.0
    ensures s.calls == map[0 := Gone, 1 := Gone, 2 := Running(HALF_OPEN)]
    ensures Happened(s.history, Started(2, HALF_OPEN))
  {
    s := ProbeRunning();
    hide Reachable, Run;
    ghost var before := s.history;
    s := Next(ONE_SLOT, s, Finish(1, Raises));
    s := Next(ONE_SLOT, s, Record(1));
    s := Next(ONE_SLOT, s, Tick(30.0));
    assert s.history.past == before;
  }

  /** The cap bounds admissions per episode, not probes under way: the next episode
      starts with a probe of the last one still running. */
  lemma ProbesOverlap() returns (s: System)
    ensures Reachable(ONE_SLOT, s)
    ensures At(s, 2, Running(HALF_OPEN)) && At(s, 3, Running(HALF_OPEN))
    ensures Happened(s.history, Started(2, HALF_OPEN)) && Happened(s.history, Started(3, HALF_OPEN))
  {
    s := ReopenedWithProbe();
    hide Reachable, Run;
    ghost var before := s.history;
    s := Next(ONE_SLOT, s, GlobalCheck(3, Absent));
    s := Next(ONE_SLOT, s, Read(3));
    assert s.calls[3] == Admitting && s.calls[2] == Running(HALF_OPEN);
    assert s.history.past.past == before;
    s := Next(ONE_SLOT, s, Admit(3));
    assert s.history.past.past.past == before;
    assert Happened(s.history.past.past, Started(2, HALF_OPEN));
  }
}
