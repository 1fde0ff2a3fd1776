# Verification of the NullRun SDK's state machines and encodings

This project models the parts of the NullRun Python SDK that hold real state,
interleavings or encodings, and proves what they promise over every input,
every program and every run.

- `Utf8`, `JsonValues`, `JsonText`, `BusinessImpacts`, `CanonicalTexts`: the impact
  envelope and the bytes its digest is taken over. A parser that reads the compact text back
  (sections 6 and 7 of RFC 8259 for numbers and string escapes) shows that two
  envelopes have the same bytes exactly when they are the same action.
- `Redaction`, `Payloads`: the scanner that hides `details={...}` payloads in
  telemetry.
- `CircuitBreakers`: the CLOSED/OPEN/HALF_OPEN machine, its lock-protected
  blocks, one caller alone, and any number of callers interleaved at the points
  where they hold no lock.
- `Approvals`: waiters, time-outs and pushes of the approval handshake,
  interleaved between lock-protected blocks, with the window between setting the
  event and writing the outcome.
- `Programs`, `Scopes`, `SpanIds`, `Workflows`, `CallRuns`, `OperationIds`,
  `CallClaims`, `SdkTasks`:
  programs over nested `workflow`/`span`/`agent`/`attempt`/`chain`/`protect` blocks
  with exceptions. `Programs` says what running one means, `SdkTasks` runs it with
  mutable variables and tokens, and the other six prove what every program keeps.
- `CallMasks`, `BlockErrors`: what a call's arguments become before they are hashed,
  and what a block becomes before the policy gate sees it.
- `ControlPlanes`: version dedup of control-plane pushes, and the reconnect loop.
- `GateCaches`: the cache of /gate answers with its invalidations.
- `RunTables`, `DlqReplays`, `Edges`, `Uuid7s`: the capped run table, dead-letter
  replay, the edge retry with one event id, and UUID v7 packing.

A step that the source takes under a lock is one step here; what it does outside a
lock is a step of its own. An action that does not apply changes nothing, so every
sequence of actions is a run. The backend, the clock, Redis and fresh UUIDs are
inputs: an answer is part of the program or of the action, and a fresh id is a
number not used before (`Minted`), never equal to a name the user gives (`Named`).

## Where the code and its documentation differ

The model follows the code. Each point has an input that shows it and, where the
code does meet the promise on some inputs, the condition under which it does.

- `_safe_cancel_active_execution` is documented as a no-op for a call that failed
  before /gate. The captured execution id is in a variable that nothing restores,
  so such a call cancels the execution of an earlier call, even of one that
  returned (`KilledCancelsEarlier`, `CompletedCallCancelled`, `NestedCancelled`).
  What is cancelled, always: `CancelsHeld`.
- A waiter woken before the handler has written the outcome is refused although
  the operator approved (`ApprovedYetRefused`). A call resumes exactly when the
  write came first (`ResumesExactly`).
- `NULLRUN_SENSITIVE_FAIL_OPEN` is documented to honour every block. A block whose
  code is of an infrastructure class, or of a class that cannot be built as a block,
  reaches the policy gate as an outage, and under the opt-out the body runs
  (`BlockedYetRuns`; exactly when: `BlockAccepted`, `BlockedBodyBegins`).
- `execute` returns on every second answer that is neither `block` nor
  `require_approval`, a `deny` included (`GoesOnExactly`, `PolicyPermitted`).
- A protected call whose pre-flight is skipped by the environment mints no
  operation id and sends the one of an earlier call (`BypassedCallReuses`), and no
  other call does (`OperationIdExactly`, `SharedOnlyIfSkipped`). A call whose gate
  gave no answer also names an earlier call's execution to /execute, and a nested
  one the tools of the call around it (`FirstRequestExactly`).
- `resync_required` closes the channel instead of reconnecting
  (`ResyncNeverReconnects`), and after a cache clear an old push delivered again
  replaces a newer one (`ClearLetsOldBack`; exactly when not: `ClearKeepsExactly`).
- `chain_end` invalidates under the workflow the API key is bound to, so answers
  cached under a `with workflow` block survive it (`EndedChainServed`; exactly when:
  `ChainEndClears`).
- A half-open probe that ends in a `BaseException` keeps its slot; the breaker can
  be wedged for ever (`EscapedProbeWedges`; exactly when: `WedgedExactly`,
  `LastEscapeWedges`). The cap bounds admissions per episode, not probes under way
  (`ProbesOverlap`; only when: `OverlapNeedsEntry`).
- `--limit` promises at most N rows; 0 means all of them and a negative number all
  but the last (`LimitHonoured`). A selected row without an event crashes the
  replay after the other events were sent (`CrashesExactly`).
- The refusal for an unreachable edge box says that nothing was charged; a charge
  whose reply was lost is followed by that refusal (`RefusedYetCharged`; exactly
  when it is right: `RefusedUncharged`).
- A bare `details=foo` span is copied up to the next `,`, `)` or newline, and a
  payload that starts in it stays (`BareSpanLeaks`). A payload that starts inside
  another one can close it early, and its rest stays (`PayloadSurvives`). Exactly
  when one goes: `PayloadGoesExactly`, `BareExactly`.

## Model

| member | source | states |
|---|---|---|
| `Utf8.EncodedCharDecodes` | src/nullrun/business_impact.py:249-254 | the UTF-8 bytes of a character say how many they are and give its code point back |
| `Utf8.ShortestBytes` | src/nullrun/business_impact.py:249-254 | a character takes as few bytes as its code point needs, and only continuation bytes follow the first |
| `Utf8.EncodeInjective` | src/nullrun/business_impact.py:249-254 | two texts with the same UTF-8 bytes are the same text |
| `JsonValues.SortKeeps` | src/nullrun/business_impact.py:218-221 | sorting a dictionary's items by key leaves them in strictly increasing key order and loses or adds none |
| `JsonValues.BeforeTotal` | src/nullrun/business_impact.py:220 | any two different keys are ordered one way and not both |
| `JsonValues.SortedDetermined` | src/nullrun/business_impact.py:218-221 | a sorted list of items is determined by the mapping it stands for, so insertion order leaves no trace |
| `JsonValues.CanonicalizeKeepsMeaning` | src/nullrun/business_impact.py:212-224 | the recursive key sort changes no value: read as JSON with unordered objects, the result is the input |
| `JsonValues.SameMeaningSameForm` | src/nullrun/business_impact.py:212-224 | two values that are the same JSON, at any depth and in any insertion order, have one canonical form |
| `JsonValues.CanonicalizeIdempotent` | src/nullrun/business_impact.py:212-224 | sorting a sorted value changes nothing |
| `JsonText.ReadsBack` | src/nullrun/business_impact.py:249-254 | the reader takes the compact text of any supported value, followed by anything, back to the value and what follows |
| `JsonText.WriteInjective` | src/nullrun/business_impact.py:249-254 | two supported values with the same compact text are the same value |
| `CanonicalTexts.BeforeExactly` | src/nullrun/business_impact.py:220 | one key is before another exactly when the code point at the first difference is smaller, or it is a proper prefix |
| `CanonicalTexts.EnvelopeRead` | src/nullrun/business_impact.py:119-126 | the text that is hashed for an accepted envelope, behind the literal prefix, reads as exactly five fields "kind", "tool_name", "params", "extractor_id" and "extractor_version", each with its own component, or as {"kind": "none"}; at every depth the keys are in order of code points |
| `CanonicalTexts.ShortestForm` | src/nullrun/business_impact.py:249-254 | a character is written as it is unless it is a quote, a backslash or a control character; those take two characters where JSON has such an escape, else `\u` with lower-case digits |
| `CanonicalTexts.NoLeadingZero` | src/nullrun/business_impact.py:249-254 | no number but zero starts with a zero |
| `CanonicalTexts.SignIfNegative` | src/nullrun/business_impact.py:249-254 | a number has a sign exactly if it is negative |
| `CanonicalTexts.EntryCompact` | src/nullrun/business_impact.py:252 | nothing stands between a key, its colon and its value |
| `CanonicalTexts.ObjectCompact` | src/nullrun/business_impact.py:252 | nor between the entries of an object |
| `CanonicalTexts.ListCompact` | src/nullrun/business_impact.py:252 | nor between the items of a list |
| `BusinessImpacts.RejectValueExact` | src/nullrun/business_impact.py:129-165 | a value is accepted exactly when it holds no float or foreign object and no over-long member name at any depth |
| `BusinessImpacts.ValidateExact` | src/nullrun/business_impact.py:97-117 | an envelope is accepted exactly when its tool name is non-empty, short, printable ASCII and its parameters are supported |
| `BusinessImpacts.RefusalSays` | src/nullrun/business_impact.py:97-165 | each refusal gives a reason that holds; an empty and an over-long tool name are refused as such |
| `BusinessImpacts.WireMeaning` | src/nullrun/business_impact.py:119-126 | two envelopes have the same wire value, as JSON, exactly when they are the same action |
| `BusinessImpacts.CanonicalBytesBindAction` | src/nullrun/business_impact.py:227-254 | for any two validated envelopes the canonical bytes are equal exactly when the actions are the same |
| `BusinessImpacts.HashedBytesBindAction` | src/nullrun/business_impact.py:257-281 | the same for the bytes that are hashed, prefix included |
| `Redaction.StripDetailsBalanced` | src/nullrun/decorators.py:278-322 | the three-loop scanner ends and returns the recursive specification `Strip` of its input |
| `Redaction.Find` | src/nullrun/decorators.py:283-287 | the first place at or after `i` where the needle stands, or none |
| `Redaction.SkipPayload` | src/nullrun/decorators.py:298-316 | the inner loop stops where the brace-and-quote reader first closes, or at the end |
| `Redaction.CopySpan` | src/nullrun/decorators.py:288-322 | one occurrence of the needle is replaced as specified and the scan resumes behind it |
| `Redaction.DropIsShortestBalanced` | src/nullrun/decorators.py:298-316 | what is dropped from a `{` on is the shortest prefix that is balanced outside quotes, or everything if none is |
| `Payloads.BracesMove` | src/nullrun/decorators.py:309-316 | outside quotes an opening brace is one deeper, a closing one less deep, and nothing else but a quote mark matters |
| `Payloads.StringRead` | src/nullrun/decorators.py:302-311 | past a string in either quote mark the reader is where it was, whatever braces, other marks and escaped characters stand in it |
| `Payloads.PiecesMakePayload` | src/nullrun/decorators.py:298-318 | any nesting of text, strings and braces is one payload to the scanner |
| `Payloads.PiecesHidden` | src/nullrun/decorators.py:264-322 | and all of it goes, after spaces and tabs, leaving `<redacted>`; what follows is looked at on its own |
| `Payloads.BraceInString` | src/nullrun/decorators.py:302-311 | such as a double-quoted string that holds the brace that would end the payload |
| `Payloads.SpanEnds` | src/nullrun/decorators.py:290-297 | a span without payload is copied up to a comma, a closing parenthesis or a line end, and the scan goes on behind it |
| `Payloads.NothingToHide` | src/nullrun/decorators.py:283-287 | a text without `details=` comes back as it is |
| `Redaction.StripSettles` | src/nullrun/decorators.py:264-322 | stripping a stripped text changes nothing, neither from its start nor from its first terminator, where a scan may resume |
| `Redaction.StripIdempotent` | src/nullrun/decorators.py:264-322 | stripping twice is stripping once, for every text |
| `Redaction.PayloadFate` | src/nullrun/decorators.py:278-322 | what becomes of `details=`, blanks and a balanced payload after any prefix whatever: between spans it leaves the mark only, in a bare span it is copied up to its next terminator, in an open payload the reader drops on |
| `Redaction.PayloadWithin` | src/nullrun/decorators.py:298-318 | a payload met inside an open payload goes up to the brace that closes the open one; what is left of it is read on as plain text |
| `Redaction.PayloadGoesExactly` | src/nullrun/decorators.py:278-322 | after any prefix, nothing of a balanced payload is left, whatever follows it, if and only if the scanner stands between spans, or in an open payload whose reader closes nowhere in this one but at its end; never in a bare span |
| `Redaction.PayloadMarkedExactly` | src/nullrun/decorators.py:288-318 | outside an open payload it leaves just the mark if and only if the prefix does not end inside a bare span |
| `Redaction.PayloadSurvives` | src/nullrun/decorators.py:298-318 | inputs where it stays: a quote the prefix leaves open is closed by the first quote of the payload, and its quoted brace ends the redaction |
| `Redaction.BareExactly` | src/nullrun/decorators.py:288-297 | a prefix ends inside a bare span if and only if the scanner meets in it, between spans, a `details=` without payload that no `,`, `)` or newline follows |
| `Redaction.PayloadHidden` | src/nullrun/decorators.py:288-318 | the same at the start of a text: a balanced payload leaves nothing but the mark, and what follows is stripped on its own |
| `Redaction.BareSpanShields` | src/nullrun/decorators.py:288-297 | after a bare span without terminator, any further `details=` text is copied up to its next terminator, whatever it holds, and stripped from there on |
| `Redaction.BareSpanLeaks` | src/nullrun/decorators.py:288-297 | if no other `details=` follows, all of it is left, payload included |
| `Redaction.NoBraceUnchanged` | src/nullrun/decorators.py:264-322 | a text without `{` is returned as it is |
| `Redaction.SafeRepr` | src/nullrun/decorators.py:123-157 | the stripped text if it fits the limit, else its first characters and the truncation mark; never longer than limit plus mark |
| `Redaction.SafeReprDefault` | src/nullrun/decorators.py:123-157 | at the default limit the result has at most 64 characters |
| `CircuitBreakers.CircuitBreaker.ReadState` | src/nullrun/breaker/circuit_breaker.py:233-261 | reading the state opens the half-open episode exactly when the recovery time has passed since the last failure |
| `CircuitBreakers.CircuitBreaker.TryAdmit` | src/nullrun/breaker/circuit_breaker.py:322-336 | a half-open slot is taken exactly when one is left |
| `CircuitBreakers.CircuitBreaker.OnSuccess` | src/nullrun/breaker/circuit_breaker.py:368-381 | the new state after a recorded success |
| `CircuitBreakers.CircuitBreaker.OnFailure` | src/nullrun/breaker/circuit_breaker.py:383-399 | the new state after a recorded failure, `seen` being the state read outside the lock |
| `CircuitBreakers.CircuitBreaker.GlobalStateAllowsCall` | src/nullrun/breaker/circuit_breaker.py:176-202 | what each answer of the shared cell allows and does to the local state |
| `CircuitBreakers.CircuitBreaker.Call` | src/nullrun/breaker/circuit_breaker.py:263-297 | one call alone: refused or run, the new state for each outcome, and `totalOpens` counts exactly the failures that leave it open |
| `CircuitBreakers.SharedCell` | src/nullrun/breaker/circuit_breaker.py:176-202 | "OPEN" in the shared cell is never allowed and changes nothing; "HALF_OPEN" is allowed exactly if a slot is left; an empty cell and any other value always, and only the latter closes the breaker |
| `CircuitBreakers.UninterruptedCall` | src/nullrun/breaker/circuit_breaker.py:263-343 | the interleavable steps of one call, with none of another between them, leave the breaker the method leaves and run the function exactly when it does |
| `CircuitBreakers.ToldOpenNeverStarts` | src/nullrun/breaker/circuit_breaker.py:188-189 | in no run does a call start that found "OPEN" in the shared cell |
| `CircuitBreakers.RecoversExactly` | src/nullrun/breaker/circuit_breaker.py:233-261 | in every run, a read finds an open breaker half-open if and only if the recovery time has passed since the last failure recorded |
| `CircuitBreakers.TotalsExact` | src/nullrun/breaker/circuit_breaker.py:368-399 | the totals count every failure and every success recorded, over every run |
| `CircuitBreakers.RunKeeps` | src/nullrun/breaker/circuit_breaker.py:322-451 | the invariant over failures, episodes, slots and reads is kept by every interleaving of any number of callers |
| `CircuitBreakers.ClosedExactly` | src/nullrun/breaker/circuit_breaker.py:368-447 | with the lock free, closed if and only if fewer than `threshold` failures were recorded since the last success or recovery elsewhere |
| `CircuitBreakers.ProbeFailureReopens` | src/nullrun/breaker/circuit_breaker.py:383-399 | a failure recorded in HALF_OPEN reopens, whatever the caller had read |
| `CircuitBreakers.HalfOpenBounded` | src/nullrun/breaker/circuit_breaker.py:244-261 | at most the cap is let through per half-open episode, and no episode starts before the recovery time after the last failure |
| `CircuitBreakers.OpenNeverRuns` | src/nullrun/breaker/circuit_breaker.py:322-359 | a call that reads OPEN never runs its function |
| `CircuitBreakers.WedgedForever` | src/nullrun/breaker/circuit_breaker.py:337-343 | with every slot taken and no call left to free one, no later call runs in any run without a recovery elsewhere |
| `CircuitBreakers.WedgedExactly` | src/nullrun/breaker/circuit_breaker.py:322-347 | in every run that has come to HALF_OPEN with every slot taken, some continuation without a recovery elsewhere runs another call if and only if the breaker is not wedged |
| `CircuitBreakers.LastEscapeWedges` | src/nullrun/breaker/circuit_breaker.py:337-343 | at any configuration, the last call that could free a slot wedges the breaker if and only if it ends in a `BaseException` |
| `CircuitBreakers.EscapedProbeWedges` | src/nullrun/breaker/circuit_breaker.py:337-343 | and such a state is reachable |
| `CircuitBreakers.OverlapNeedsEntry` | src/nullrun/breaker/circuit_breaker.py:244-261 | in every run, more probes than the cap are under way only if a half-open episode has started while a probe was under way |
| `CircuitBreakers.EntryLetsOverlap` | src/nullrun/breaker/circuit_breaker.py:244-261 | and from every such start the cap can be exceeded |
| `CircuitBreakers.ProbesOverlap` | src/nullrun/breaker/circuit_breaker.py:244-261 | a reachable instance: two probes at once with one slot |
| `Approvals.ApprovalDesk.BeginWait` | src/nullrun/runtime.py:1903-1912 | registers the wait under its approval id, displacing what was there |
| `Approvals.ApprovalDesk.AbandonWait` | src/nullrun/runtime.py:1922-1935 | drops whatever is registered under the id |
| `Approvals.ApprovalDesk.HandleApprovalResolved` | src/nullrun/runtime.py:1762-1795 | pops, indexes, signals and writes, in this order; nothing at all for an unknown id |
| `Approvals.IndexedByPush` | src/nullrun/runtime.py:3254-3289 | in every run, whatever the index finds under an execution was put there by a handler that took a push naming that execution and that approval |
| `Approvals.UninterruptedPush` | src/nullrun/runtime.py:1762-1795 | the handler's four interleavable steps, run together, are the method |
| `Approvals.EveryRun` | src/nullrun/runtime.py:1762-1795 | in every run a call gets through only on "approved" read from its own entry and written there by a handler, `execute` only with a second accepted answer for this approval id, and each entry is taken at most once |
| `Approvals.BlankStaysRefused` | src/nullrun/runtime.py:1914-1929 | a call woken before the outcome was written never gets through, whatever comes later |
| `Approvals.ResumesExactly` | src/nullrun/runtime.py:1784-1791 | in every run, a woken call that reads its outcome resumes if and only if the handler's write of "approved" came first, and is refused otherwise |
| `Approvals.GoesOnExactly` | src/nullrun/runtime.py:2987-3007 | in every run, a /gate wait goes on if and only if it read "approved"; an `execute` wait if and only if it read it, asked again under its own approval id and was answered neither "block" nor "require_approval" |
| `Approvals.SecondAnswer` | src/nullrun/runtime.py:4066-4117 | "block" and "require_approval" to the second request refuse the call, any other answer lets it go on |
| `Approvals.ApprovedYetRefused` | src/nullrun/runtime.py:1784-1791 | the window between signal and write is reachable with an approving operator |
| `Approvals.ConsumedAtMostOnce` | src/nullrun/runtime.py:2987-3007 | a grant waited for by one call, under one execution, is consumed at most once across resume, later failure and duplicate pushes, and after the resume the index no longer leads to it |
| `Approvals.ConsumedExactly` | src/nullrun/runtime.py:2987-3007 | in every run, an approval is consumed exactly once for each /gate wait on it that resumed and once for each exception path that found it in the index |
| `Approvals.ConsumedTwice` | src/nullrun/runtime.py:2987-3007 | two calls served one approval id consume it twice, so that part of the premise of `ConsumedAtMostOnce` is needed |
| `Approvals.ConsumedTwiceBySharedExecution` | src/nullrun/decorators.py:523-538 | so do two failing calls that hold one execution |
| `Approvals.ConsumedTwiceByMisnamedPush` | src/nullrun/runtime.py:1762-1783 | and so does a push that names the execution of another call |
| `Scopes.Restored` | src/nullrun/context.py:943-1171 | after any program, whatever is raised inside, every scoped context variable is what it was |
| `Scopes.EverSound` | src/nullrun/decorators.py:652-668 | at every event of every program the current span and the legacy trace and span ids agree, and every span descends from one opened before |
| `Scopes.EveryEvent` | src/nullrun/tracing.py:85-152 | event by event: user events see the two records agree; each span is a root of depth 0 or carries its parent's trace, its parent's id and depth one more |
| `Workflows.EventsCarry` | src/nullrun/context.py:943-1171 | every user event of any program carries the workflow, agent, attempt and chain of the innermost block around it that sets them |
| `Workflows.WorkflowNames` | src/nullrun/context.py:943-1008 | in a `workflow` block with a name every user event, those of calls and nested blocks included, carries that name |
| `Workflows.UnnamedWorkflow` | src/nullrun/context.py:943-1008 | and a fresh id without one |
| `Workflows.AgentNames` | src/nullrun/context.py:1043-1080 | the same for the agent |
| `Workflows.AttemptCounts` | src/nullrun/context.py:1083-1109 | the same for the attempt index |
| `Workflows.ChainNames` | src/nullrun/context.py:1134-1171 | the same for the chain and its operation, of the four there are; any other, and an id that is no version 4 UUID, is refused |
| `Workflows.OutsideBlocks` | src/nullrun/context.py:943-1171 | outside all blocks an event carries no workflow, agent or chain, attempt 0 and "auto" |
| `SpanIds.OpensUnder` | src/nullrun/tracing.py:85-152 | a protected call and a `span` block open a child of the active span, a call without one a root, a `workflow` block always a root |
| `SpanIds.SpansNeverShare` | src/nullrun/tracing.py:85-152 | in every run no two spans have one minted id and no root continues an earlier trace |
| `CallRuns.BudgetPermitted` | src/nullrun/runtime.py:2437-2616 | the pre-flight returns without raising exactly when its answer is one that permits the call |
| `Workflows.WorkflowStops` | src/nullrun/runtime.py:1938-2000 | with a workflow from the block or, failing that, from the key, a killed one raises the kill, a paused one the pause and a normal one nothing; with neither nothing is raised |
| `Workflows.WorkflowAsked` | src/nullrun/runtime.py:2437-2616 | with one, a pre-flight that is not skipped asks /gate unless an answer is cached inside a chain; with none it asks nothing and passes |
| `Workflows.StoppedWorkflow` | src/nullrun/decorators.py:704-718 | a call inside a `workflow` block whose workflow is killed or paused begins no body and sends no request, whatever the key is bound to; a sync caller sees NR-W002 or NR-W003 |
| `Workflows.GateRaises` | src/nullrun/runtime.py:2690-3050 | what each answer to /gate raises: a malformed one a refusal, one made up for want of a gateway nothing, a decision the exception of the block, NR-B006, NR-A011, NR-A012 or nothing |
| `Workflows.SkipRefused` | src/nullrun/runtime.py:2330-2415 | asking to skip the pre-flight is refused in production and otherwise skips it |
| `Workflows.PolicyRaises` | src/nullrun/decorators.py:1013-1160 | what each pair of answers to /execute raises without the opt-out |
| `CallRuns.PolicyPermitted` | src/nullrun/decorators.py:1013-1160 | the policy gate returns without raising exactly when the first or, after an approval, the second answer is accepted; under the opt-out that includes whatever `execute` raises that is not raised again, blocks of such a class among it |
| `CallRuns.GatesPermitted` | src/nullrun/decorators.py:704-750 | a call comes through its gates if and only if the control plane, the pre-flight and the policy gate each permit it and no stashed decision waits |
| `CallRuns.GatesStep` | src/nullrun/decorators.py:704-750 | the gates move only this call, tell one identity, and leave it clear when it came through and stopped when it did not |
| `BlockErrors.BlockAccepted` | src/nullrun/runtime.py:4120-4431 | an answer of decision "block" lets `execute` and the policy gate return if and only if the opt-out is on and its code is one whose class is `NullRunBackendError`, or one whose class cannot be built with the keywords of a block |
| `BlockErrors.BlockedBodyBegins` | src/nullrun/decorators.py:1013-1100 | so the body of a call that /execute blocked begins if and only if the other gates permit it, the opt-out is on and the code is one of these |
| `BlockErrors.MisfitsSlip` | src/nullrun/transport.py:5373-5720 | the codes whose class does not take a block's keywords, wherever the body carries them |
| `BlockErrors.OutagesSlip` | src/nullrun/transport.py:5373-5720 | the codes whose class is `NullRunBackendError`, wherever the body carries them |
| `BlockErrors.BlockedYetRuns` | src/nullrun/decorators.py:1013-1100 | two of them, from the start state: the body runs and returns |
| `BlockErrors.OthersHonoured` | src/nullrun/runtime.py:4190-4235 | blocked tools, rate limits, lost executions and texts without a code are honoured; details, then the top level, then the text decide |
| `BlockErrors.SpentBudgetHonoured` | src/nullrun/runtime.py:4190-4235 | and so is every code of a spent budget |
| `CallRuns.EverOrderly` | src/nullrun/decorators.py:704-807 | every program leaves earlier calls as they were and each of its own settled: events in order, one span_end, one identity, no cancel after a returned body |
| `CallRuns.CancelsHeld` | src/nullrun/decorators.py:865-885 | for every call and every body, nested calls included: what is cancelled is what the variable holds at the exit, exactly when the body did not return and an async call was not interrupted |
| `CallRuns.CancelExactly` | src/nullrun/decorators.py:865-885 | for a call whose gates stop it or whose body makes no pre-flight, that is what its own last answer left or, without one, what an earlier call left |
| `CallRuns.QuietKeeps` | src/nullrun/runtime.py:4956-4990 | only a pre-flight or an /execute answer changes the captured execution |
| `Workflows.RecordingRaises` | src/nullrun/decorators.py:865-885 | a call whose body returned raises what recording it raises, if anything |
| `Workflows.BodyRaises` | src/nullrun/decorators.py:865-885 | what a body raises reaches the caller as it is, but for a kill and a pause |
| `CallClaims.EveryRunLawful` | src/nullrun/decorators.py:634-807 | the log of every program run from the start is lawful: every call settled and no operation id sent to /gate twice; the claims below are about all lawful logs |
| `CallClaims.BodyOnlyIfPermitted` | src/nullrun/decorators.py:704-750 | at any point of any run where a body begins, these came before it in this order: the control plane said neither paused nor killed, the pre-flight permitted the call, the policy gate did, no stashed decision was waiting |
| `CallClaims.OneSpanEnd` | src/nullrun/decorators.py:784-807 | a call that entered the gated region emits exactly one span_end |
| `CallClaims.OneIdentity` | src/nullrun/runtime.py:3852-3921 | every /gate and /execute request of a call carries one operation id, one envelope, that of the call's own name and arguments, and the digest of that envelope |
| `CallClaims.DigestsBindCalls` | src/nullrun/decorators.py:690-702 | two requests of any two calls in any run hash the same bytes if and only if the calls' envelopes are the same action |
| `CallMasks.SafeArgs` | src/nullrun/decorators.py:216-257 | the two loops mask each positional argument by the parameter it is bound to, surplus ones by none |
| `CallMasks.SecretMasked` | src/nullrun/decorators.py:82-120 | an argument named like a secret, in any capitalisation, is shown as `***` |
| `CallMasks.EnvelopeShows` | src/nullrun/decorators.py:160-213 | the parameters of the envelope are the masked positional arguments under "args" and the masked keywords under "kwargs" |
| `CallMasks.SafeExactly` | src/nullrun/decorators.py:123-157 | two texts are shown alike if and only if they are equal once redacted, or both longer than 50 characters and equal up to there |
| `CallMasks.DigestBindsShown` | src/nullrun/decorators.py:160-213 | two calls whose envelopes can be built hash the same bytes if and only if they have one name, the same masked positional arguments and the same masked keywords in any order |
| `CallMasks.RequestsBindShown` | src/nullrun/decorators.py:690-702 | the same for any two requests of any two calls in any run |
| `CallMasks.TailUnbound` | src/nullrun/decorators.py:123-157 | so two calls that differ only past the fiftieth character of an argument are one to the digest |
| `CallClaims.IdentitiesApart` | src/nullrun/runtime.py:2437-2439 | two calls that reach /gate, nested or not, share no operation id |
| `CallClaims.StashConserved` | src/nullrun/instrumentation/langgraph.py:85-117 | stashed decisions are raised at most once and in stash order: those raised followed by those waiting are those stashed |
| `Workflows.CallbackStashes` | src/nullrun/instrumentation/langgraph.py:663-702 | a callback stashes a kill, a pause and a budget decision last, drops any other exception and lets an interrupt through |
| `Workflows.NextCallRaises` | src/nullrun/decorators.py:890-929 | the next protected call that its gates permit raises the oldest stashed decision in place of its body |
| `CallClaims.KilledCancelsEarlier` | src/nullrun/decorators.py:490-541 | a call killed before /gate cancels what the variable holds, in every state |
| `CallClaims.CompletedCallCancelled` | src/nullrun/decorators.py:490-541 | so the execution of a call that returned is cancelled by a later one |
| `CallClaims.NestedCancelled` | src/nullrun/decorators.py:865-885 | so when a nested call returned and the outer body then raises, the outer call cancels the execution of the inner one, which completed, and not its own |
| `OperationIds.EveryRunSound` | src/nullrun/runtime.py:2437-2439 | in every run, no id sent to /gate was sent before by any request, and none sent to /execute was sent by another call unless this one skipped its pre-flight |
| `OperationIds.SharedOnlyIfSkipped` | src/nullrun/runtime.py:3852-3855 | so two requests of different calls carry one operation id only if the later is an /execute of a call that skipped its pre-flight |
| `OperationIds.OperationIdExactly` | src/nullrun/runtime.py:3852-3855 | a call tells /execute the id held from before if and only if it skipped the pre-flight and one was held; otherwise one minted since it entered, with no workflow, a cached answer or an unreachable gate as well |
| `OperationIds.FirstRequestExactly` | src/nullrun/runtime.py:3852-3921 | and that is the id its first /execute carries, whatever is answered; the execution named is what the call's own gate answer left or, without an answer, what an earlier call left; the tools are the call's own name only if none were set around it |
| `OperationIds.SecondRequestExactly` | src/nullrun/runtime.py:3976-4069 | after an approval the same request goes out with the approval id and the execution of the first answer, or of the first request if that had none |
| `CallClaims.BypassedCallReuses` | src/nullrun/runtime.py:3852-3855 | an instance: a bypassed call sends an earlier call's operation id and execution with its own envelope |
| `SdkTasks.Task.CheckControlPlane` | src/nullrun/runtime.py:1938-2000 | raises exactly as specified for the resolved workflow's state |
| `SdkTasks.Task.CheckWorkflowBudget` | src/nullrun/runtime.py:2238-3036 | mints, sends, captures and decides as specified, in the source's order |
| `SdkTasks.Task.RunToolPolicyGate` | src/nullrun/decorators.py:932-1160 | sends, captures, waits and sends again as specified |
| `SdkTasks.Task.RaiseDeferredEnforcement` | src/nullrun/decorators.py:890-929 | raises and removes the oldest stashed decision, if any |
| `SdkTasks.Task.SafeCancelActiveExecution` | src/nullrun/decorators.py:490-541 | cancels the execution the variable holds, if any |
| `SdkTasks.Task.EnterCall` | src/nullrun/decorators.py:652-702 | the setup before the `try`, with a token for every variable it sets |
| `SdkTasks.Task.LeaveCall` | src/nullrun/decorators.py:784-807 | every token reset, then span_end |
| `SdkTasks.Task.Protected` | src/nullrun/decorators.py:865-885 | the whole wrapper means what `Eval` says of a protected call |
| `SdkTasks.Task.OnLlmStart` | src/nullrun/instrumentation/langgraph.py:663-702 | the callback stashes a real decision and swallows every other exception |
| `SdkTasks.Task.WithWorkflow` | src/nullrun/context.py:943-1008 | the block sets, runs and resets as specified |
| `SdkTasks.Task.WithSpan` | src/nullrun/context.py:1011-1040 | the same, with a child span only under an active one |
| `SdkTasks.Task.WithAgent` | src/nullrun/context.py:1043-1080 | the same for the agent id |
| `SdkTasks.Task.WithAttempt` | src/nullrun/context.py:1083-1109 | the same for the attempt index |
| `SdkTasks.Task.WithChain` | src/nullrun/context.py:1134-1171 | refuses bad arguments before it sets anything |
| `SdkTasks.Task.Exec` | src/nullrun/context.py:943-1171 | running any program on the mutable variables ends in the state and the exception that `Eval` gives, so all the theorems above are about it |
| `ControlPlanes.ControlChannel.DispatchState` | src/nullrun/transport_websocket.py:767-794 | drops stale events, remembers the version, calls back |
| `ControlPlanes.ControlChannel.OnStateChange` | src/nullrun/runtime.py:1582-1601 | replaces the workflow's state; ignores a push without a workflow |
| `ControlPlanes.ControlChannel.ReceiveAll` | src/nullrun/transport_websocket.py:274-288 | the states held and the events dispatched after any sequence of pushes |
| `ControlPlanes.ControlChannel.ClearLocalState` | src/nullrun/transport_websocket.py:796-805 | forgets the versions and keeps the states |
| `ControlPlanes.DispatchesIncrease` | src/nullrun/transport_websocket.py:776-787 | the versions dispatched for one workflow strictly increase |
| `ControlPlanes.UnnamedCalledBack` | src/nullrun/transport_websocket.py:767-794 | a push that names no workflow is called back each time and changes nothing |
| `ControlPlanes.HoldsHighest` | src/nullrun/transport_websocket.py:767-794 | between two clears each workflow holds the delivered push with the highest version |
| `ControlPlanes.ConvergesExactly` | src/nullrun/transport_websocket.py:767-794 | every reordering and duplication of the same pushes ends in the same states if and only if the highest version of each workflow says one thing |
| `ControlPlanes.FirstReceiptDispatched` | src/nullrun/transport_websocket.py:767-794 | among any pushes, the first one for a workflow is dispatched if and only if its version is not negative |
| `ControlPlanes.ClearKeepsExactly` | src/nullrun/transport_websocket.py:796-805 | after a clear and any pushes, a workflow is left with nothing older than it held if and only if the pushes say nothing of it, or something as new |
| `ControlPlanes.NeverOlderExactly` | src/nullrun/transport_websocket.py:224-230 | so over two connections a workflow is left no older than the highest push of the first exactly under that condition on the second |
| `ControlPlanes.ClearLetsOldBack` | src/nullrun/transport_websocket.py:224-230 | an instance where it is not: an early push delivered again takes over |
| `ControlPlanes.Reconnector.ReconnectLoop` | src/nullrun/transport_websocket.py:168-239 | the loop's variables, waits and attempts, and the channel it clears and fills, after any turns |
| `ControlPlanes.ReconnectHoldsHighest` | src/nullrun/transport_websocket.py:224-230 | after a reconnect the channel holds what the pushes on the new connection determine |
| `ControlPlanes.WaitsOnSchedule` | src/nullrun/transport_websocket.py:231-239 | since the last connection the waits are 1, 2, 4, ... up to 60 seconds, at most ten of them |
| `ControlPlanes.LossesTried` | src/nullrun/transport_websocket.py:206-239 | from the start each loss is followed by one attempt, the first after a second, up to the tenth |
| `ControlPlanes.BackStartsOver` | src/nullrun/transport_websocket.py:224-239 | a connection that comes back resets the count and the wait |
| `ControlPlanes.GivesUpAfterTen` | src/nullrun/transport_websocket.py:206-216 | the loop ends by itself exactly on a lost connection after ten failures in a row, after 303 seconds of waiting |
| `ControlPlanes.ResyncNeverReconnects` | src/nullrun/transport_websocket.py:544-569 | after a resync request no connection is tried, ever, and the forgotten versions stay forgotten |
| `GateCaches.GateCache.Check` | src/nullrun/runtime.py:2627-2688 | a fresh entry is served without asking; otherwise the server's answer is returned and cached |
| `GateCaches.GateCache.InvalidateForChain` | src/nullrun/runtime.py:170-212 | removes all and only the matching entries, an absent name matching all, and counts them |
| `GateCaches.GateCache.ChainEnd` | src/nullrun/runtime.py:3320-3325 | invalidates the chain under the bound workflow |
| `GateCaches.EveryHitStands` | src/nullrun/runtime.py:2621-2688 | over every run the cache is exactly the answers no invalidation has matched, and every hit is one of them for its very key, less than 5 seconds old |
| `GateCaches.ServedExactly` | src/nullrun/runtime.py:2619-2688 | a cached answer is served if and only if there is a chain, neither caller nor environment forbids it and it is less than five seconds old; otherwise the answer is stored or, outside caching, only passed on |
| `GateCaches.StandingWasGiven` | src/nullrun/runtime.py:2636-2688 | and the server gave that answer for that key then |
| `GateCaches.ChainEndClears` | src/nullrun/runtime.py:3323-3324 | the chain is cleared if and only if all its entries were cached under the bound workflow, or there is none |
| `GateCaches.InvalidationExactly` | src/nullrun/runtime.py:170-212 | an invalidation takes that chain of that workflow, or all of one, or everything, and leaves every other entry as it is |
| `GateCaches.EndedChainServed` | src/nullrun/runtime.py:3323-3324 | otherwise an ended chain is served its old answer |
| `RunTables.RunTable.RegisterActiveRun` | src/nullrun/instrumentation/langgraph.py:557-578 | at the cap the oldest key goes; a known run keeps its place |
| `RunTables.RunTable.EndRun` | src/nullrun/instrumentation/langgraph.py:1055-1078 | removes the run and returns the span to end, if it is still there |
| `RunTables.RoomKeeps` | src/nullrun/instrumentation/langgraph.py:570-577 | eviction takes the key inserted first |
| `RunTables.EveryRun` | src/nullrun/instrumentation/langgraph.py:557-578 | over every run the table stays within its cap, registrations are exactly those ended, active, evicted and overwritten, and each span_end carries the span last registered for its run |
| `RunTables.EndedAtMostOnce` | src/nullrun/instrumentation/langgraph.py:1055-1078 | a registration is ended, evicted or overwritten at most once altogether |
| `RunTables.RewriteEvicts` | src/nullrun/instrumentation/langgraph.py:569-578 | at the cap, registering a known run again still evicts the oldest |
| `DlqReplays.SelectRows` | src/nullrun/wal_admin.py:187-210 | selected and withheld rows match the reason, and no terminal refusal is selected unless asked for |
| `DlqReplays.NothingSkipped` | src/nullrun/wal_admin.py:187-210 | without a limit every matching row is selected or withheld, with its multiplicity |
| `DlqReplays.RowsOfMore` | src/nullrun/wal_admin.py:187-210 | every parseable line gives its row, in the order of the file, and no other line does |
| `DlqReplays.WithReasonMore` | src/nullrun/wal_admin.py:187-210 | every row with the reason is matched, in order, and no other |
| `DlqReplays.ByTerminalMore` | src/nullrun/wal_admin.py:187-210 | "EXECUTION_NOT_BOUND:422" and "EXECUTION_NOT_BOUND:503" are withheld, nothing else is |
| `DlqReplays.LimitTakesFirst` | src/nullrun/wal_admin.py:206-210 | a positive limit keeps the first rows, a negative one all but the last |
| `DlqReplays.LimitHonoured` | src/nullrun/wal_admin.py:206-210 | a limit of n keeps to n rows if and only if n is positive, or 0 with nothing to select |
| `DlqReplays.UnconfirmedEventIds` | src/nullrun/wal_admin.py:213-246 | the ids in the buffer, the overflow, the scratch dead letters and the holdover |
| `DlqReplays.UnconfirmedExactly` | src/nullrun/wal_admin.py:213-246 | an id is unconfirmed if and only if an event with it is in the buffer, or a row with one in the overflow, among the parked or in the holdover |
| `DlqReplays.DlqFile.DropConfirmed` | src/nullrun/wal_admin.py:361-418 | the pass over raw lines leaves the specified file and counts what it removed |
| `DlqReplays.DlqFile.CmdReplay` | src/nullrun/wal_admin.py:249-358 | outcome, events sent and file are those of the specification, crash included |
| `DlqReplays.KeptInOrder` | src/nullrun/wal_admin.py:381-407 | kept lines stay in order and unchanged up to a final newline, and a line goes if and only if it carries a confirmed id |
| `DlqReplays.DropAgain` | src/nullrun/wal_admin.py:361-418 | a second pass with the same ids removes nothing |
| `DlqReplays.NothingUnconfirmedLost` | src/nullrun/wal_admin.py:331-354 | a removed line's id is that of an event sent in this run and accepted, and is nowhere unconfirmed |
| `DlqReplays.SentExactly` | src/nullrun/wal_admin.py:285-330 | nothing is sent without `--execute`, in a dry run or without a key; otherwise the events of the selected rows, all of them in order |
| `DlqReplays.OutcomeExactly` | src/nullrun/wal_admin.py:262-330 | what the run reports in each case, and that it sent nothing in exactly the first four |
| `DlqReplays.RewrittenExactly` | src/nullrun/wal_admin.py:331-354 | a run that comes to the rewrite drops exactly the ids that were sent and are nowhere unconfirmed |
| `DlqReplays.NothingConfirmedMeans` | src/nullrun/wal_admin.py:331-344 | a run that stops before it has every event sent still unconfirmed |
| `DlqReplays.UntouchedIfNothingGoes` | src/nullrun/wal_admin.py:361-418 | a file from which nothing goes is not touched |
| `DlqReplays.FileAccounted` | src/nullrun/wal_admin.py:285-358 | removed plus kept is what there was, and no other run touches the file |
| `DlqReplays.CrashesExactly` | src/nullrun/wal_admin.py:345-349 | a run that sent events crashes if and only if a selected row carries none, with the file unchanged |
| `Edges.EdgeTransport.Post` | src/nullrun/edge.py:247-266 | the retry loop: the same body on every attempt, the first reply, the sleeps |
| `Edges.EdgeTransport.Enforce` | src/nullrun/edge.py:141-245 | the caller's event id or one fresh id for the whole call, what is decided and charged, and the source recorded |
| `Edges.ChargedAtMostOnce` | src/nullrun/edge.py:165-225 | whatever is lost, one call adds at most one charge, to its own id |
| `Edges.AllowMeansCharged` | src/nullrun/edge.py:213-225 | a fresh id that is allowed was charged exactly once, on a reply below 500 whose object says so |
| `Edges.AnswerMeans` | src/nullrun/edge.py:170-225 | only an object in a reply below 500 decides: allowed or refused as it says |
| `Edges.AllowedExactly` | src/nullrun/edge.py:165-225 | if the first reply is what the box sent, the call is allowed exactly if the id was charged before or some attempt up to it was granted |
| `Edges.ChargedExactly` | src/nullrun/edge.py:165-266 | a fresh id is charged, and then once, if and only if some attempt up to the first reply reached the box and was granted |
| `Edges.RefusedUncharged` | src/nullrun/edge.py:283-321 | a call refused as unreachable, without reply, by a 5xx or by a body that is no object, was not charged if and only if none of those attempts was granted |
| `Edges.RefusedYetCharged` | src/nullrun/edge.py:283-321 | an instance that was charged: every reply is lost |
| `Edges.SleepBounded` | src/nullrun/edge.py:247-266 | from any attempt on, the sleeps add up to at most 0.2 * (2^retries - 2^attempt) seconds |
| `Edges.SleptExactly` | src/nullrun/edge.py:247-266 | the sleeps are 0.2, 0.4, 0.8, ... seconds, one after each attempt without reply but the last of all |
| `Uuid7s.StampInPlace` | src/nullrun/uuid7.py:67-71 | version and variant stamped over bytes 6 and 8 |
| `Uuid7s.VersionMask` | src/nullrun/uuid7.py:69 | the source's mask and shift for the version do to a byte's bits what the model does to its value |
| `Uuid7s.VariantMask` | src/nullrun/uuid7.py:71 | the same for the variant |
| `Uuid7s.Layout` | src/nullrun/uuid7.py:58-72 | version 7, variant 10, the time recoverable, the other 74 random bits untouched |
| `Uuid7s.TextGivesBytes` | src/nullrun/uuid7.py:75-77 | the text has 36 characters: hyphens at 8, 13, 18 and 23, and lower-case digits that give every byte back |
| `Uuid7s.EarlierIsSmaller` | src/nullrun/uuid7.py:58-72 | an earlier millisecond gives a smaller UUID, byte by byte |
| `Uuid7s.EarlierReadsSmaller` | src/nullrun/uuid7.py:75-77 | and a smaller lower-case hyphenated text |

## Left out

- SHA-256, HMAC and TLS: digest claims stop at the bytes that are hashed.
- Canonical JSON of lone surrogates (the source raises when it encodes them), of
  integers over the interpreter's digit limit and of `str`/`int` subclasses.
- Random jitter and publishing to Redis in the breaker; the shared cell is an input.
- CircuitBreakers.ClosedExactly: `totalOpens` is claimed for one caller only
  (`Call`), because the source reads the old state outside the lock.
- Approvals.ConsumedAtMostOnce: a call of the model is one wait and what follows
  it; a protected call that waits at /gate and again in `execute` is two of them.
- Approvals.EveryRun: time-out lengths and their clamping are not modelled; a wait
  can give up at any moment.
- CallRuns.CancelExactly: says whose execution it is only where the body makes no
  pre-flight; for a nested call `CancelsHeld` says what is cancelled.
- SdkTasks.Task.CheckControlPlane: the workflow's state is an input of the call;
  the push cache, the remote fetch and its failures are not modelled here (what the
  pushes leave is in `ControlPlanes`).
- SdkTasks.Task.CheckWorkflowBudget: consuming the approval and dropping the index
  are in `Approvals`; the returned reservation id, which no caller modelled here
  reads, is not modelled.
- SdkTasks.Task.RunToolPolicyGate: an /execute event records the operation id, the
  envelope, its digest, the execution, the tools and the approval id; the trace id
  and the tool's input, which the request also carries, are not modelled.
- SdkTasks.Task.SafeCancelActiveExecution: the consume of the approval after the
  cancel is in `Approvals`.
- SdkTasks.Task.OnLlmStart: the span registered for the run is in `RunTables`; a
  callback without a run id returns before the pre-flight and is `Skip`.
- CallClaims.DigestsBindCalls: the parameters are the masked ones, an input here and
  computed in `CallMasks`. A call whose envelope cannot be built sends the empty one,
  which binds no argument.
- CallMasks.DigestBindsShown: the texts `repr` gives for the arguments are inputs.
- BlockErrors.BlockAccepted: a body whose code or explanation is not text. What the
  pre-flight raises for a block stays an input of the call.
- CallRuns.QuietKeeps: a captured reservation that is 295 seconds old is dropped when
  an event is built. The model has no clock here, so this and the claims on
  cancellation and on the execution sent are for reservations younger than that.
- Several tasks at once in `Programs`: each has its own context variables, and the
  stash belongs to a thread; the control plane's state is an input of each call.
- A gate answer served from the cache is an input of the call in `Programs`; when
  that can happen is proved in `GateCaches`.
- Concurrent access to the gate cache, and an application appending to the
  dead-letter file during a replay.
- `_fetch_remote_state`, which writes outside the version check: convergence is
  claimed for WebSocket pushes only.
- File and network errors of the replay command, and its printing.
- Edges: the box is an assumption, a store that charges an event id once; a garbled
  reply does not claim that the call is allowed. `token_split` is a plain mapping.
- Event payloads, metrics, logging, the registry, framework patchers, usage
  extraction, webhooks and the rest of the exception catalogue.
