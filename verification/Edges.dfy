/** Enforcement through an edge box: one event id over every retry, against a box
    that charges an id once. */
module Edges {
  import opened Options

  datatype Payload = NotJson | NotAnObject | Object(allowed: bool)
  datatype Reply = Reply(status: int, payload: Payload)

  /** What happens to one attempt. `grants` is what the box decides about an id it
      has not charged; a reply can come back `garbled`. */
  datatype Fate =
    | RequestLost
    | ReplyLost(grants: bool)
    | Replied(grants: bool, garbled: Option<Reply>)

  datatype Decision = Allow | Deny | Unreachable

  /** A garbled reply does not claim the box allowed the call. */
  predicate Plausible(fate: Fate) {
    fate.Replied? && fate.garbled.Some? ==> fate.garbled.value.payload != Object(true)
  }

  /** The charges of a box that deduplicates on the event id. */
  function Charge(charges: multiset<string>, id: string, grants: bool): multiset<string> {
    if id in charges || !grants then charges else charges + multiset{id}
  }

  function After(charges: multiset<string>, id: string, fate: Fate): multiset<string> {
    if fate.RequestLost? then charges else Charge(charges, id, fate.grants)
  }

  /** What the caller sees of an attempt, if the attempt does not raise. */
  function Seen(charges: multiset<string>, id: string, fate: Fate): Option<Reply> {
    if !fate.Replied? then None
    else if fate.garbled.Some? then fate.garbled
    else Some(Reply(200, Object(id in Charge(charges, id, fate.grants))))
  }

  function Power(n: nat): real {
    if n == 0 then 1.0 else 2.0 * Power(n - 1)
  }

  datatype Posted = Posted(charges: multiset<string>, reply: Option<Reply>, slept: real)

  /** The retry loop from an attempt on. */
  function PostFrom(charges: multiset<string>, id: string, fates: seq<Fate>, attempt: nat): Posted
    requires attempt <= |fates|
    decreases |fates| - attempt
  {
    if attempt == |fates| then Posted(charges, None, 0.0)
    else
      var now, seen := After(charges, id, fates[attempt]), Seen(charges, id, fates[attempt]);
      if seen.Some? then Posted(now, seen, 0.0)
      else
        var rest := PostFrom(now, id, fates, attempt + 1);
        rest.(slept := rest.slept + if attempt + 1 < |fates| then 0.2 * Power(attempt) else 0.0)
  }

  function Read(reply: Option<Reply>): Decision {
    if reply.None? || reply.value.status >= 500 || !reply.value.payload.Object? then Unreachable
    else if reply.value.payload.allowed then Allow
    else Deny
  }

  /** How many attempts are made from one on: up to the first reply. */
  function Attempts(fates: seq<Fate>, attempt: nat): (n: nat)
    requires attempt <= |fates|
    ensures attempt + n <= |fates|
    decreases |fates| - attempt
  {
    if attempt == |fates| then 0
    else if fates[attempt].Replied? then 1
    else 1 + Attempts(fates, attempt + 1)
  }

  datatype Source = NoSource | EdgeLease

  datatype Body = Body(leaseId: string, model: string, inputTokens: int, outputTokens: int, eventId: string)

  function Copies(body: Body, n: nat): (bodies: seq<Body>)
    ensures |bodies| == n && forall b :: b in bodies ==> b == body
  {
    if n == 0 then [] else Copies(body, n - 1) + [body]
  }

  class EdgeTransport {
    const leaseId: string
    const maxRetries: int
    var charges: multiset<string>  // the box, seen from here
    var requests: seq<Body>        // every body posted
    var lastSource: Source

    constructor (leaseId: string, maxRetries: int)
      ensures this.leaseId == leaseId && this.maxRetries == maxRetries
      ensures charges == multiset{} && requests == [] && lastSource == NoSource
    {
      this.leaseId, this.maxRetries := leaseId, maxRetries;
      charges, requests, lastSource := multiset{}, [], NoSource;
    }

    /** `_post`: at most `max_retries + 1` attempts, all with one body, none if the
        number of retries is negative. */
    method Post(body: Body, fates: seq<Fate>) returns (reply: Option<Reply>, slept: real)
      requires |fates| == if maxRetries < 0 then 0 else maxRetries + 1
      modifies this`charges, this`requests
      ensures Posted(charges, reply, slept) == PostFrom(old(charges), body.eventId, fates, 0)
      ensures requests == old(requests) + Copies(body, Attempts(fates, 0))
    {
      hide After, Power;
      slept := 0.0;
      var attempt := 0;
      while attempt < |fates|
        invariant 0 <= attempt <= |fates|
        invariant var rest := PostFrom(charges, body.eventId, fates, attempt);
                  rest.(slept := slept + rest.slept) == PostFrom(old(charges), body.eventId, fates, 0)
        invariant requests == old(requests) + Copies(body, attempt)
        invariant attempt + Attempts(fates, attempt) == Attempts(fates, 0)
      {
        var before := charges;
        assert old(requests) + Copies(body, attempt) + [body] == old(requests) + Copies(body, attempt + 1);
        requests := requests + [body];
        charges := After(charges, body.eventId, fates[attempt]);
        reply := Seen(before, body.eventId, fates[attempt]);
        if reply.Some? { return; }
        if attempt < maxRetries { slept := slept + 0.2 * Power(attempt); }
        attempt := attempt + 1;
      }
      return None, slept;
    }

    /** `event_id or uuid4()`: the caller's id, or a fresh one, for the whole call. */
    method Enforce(model: string, inputTokens: int, outputTokens: int, eventId: Option<string>, minted: string,
                   fates: seq<Fate>)
      returns (decision: Decision, slept: real)
      requires |fates| == if maxRetries < 0 then 0 else maxRetries + 1
      modifies this
      ensures var id := if eventId.Some? && eventId.value != "" then eventId.value else minted;
              var posted := PostFrom(old(charges), id, fates, 0);
              && charges == posted.charges && slept == posted.slept && decision == Read(posted.reply)
              && requests
                 == old(requests) + Copies(Body(leaseId, model, inputTokens, outputTokens, id), Attempts(fates, 0))
      ensures lastSource == if decision == Unreachable then old(lastSource) else EdgeLease
    {
      var id := if eventId.Some? && eventId.value != "" then eventId.value else minted;
      var reply: Option<Reply>;
      reply, slept := Post(Body(leaseId, model, inputTokens, outputTokens, id), fates);
      if reply.None? || reply.value.status >= 500 { return Unreachable, slept; }
      if !reply.value.payload.Object? { return Unreachable, slept; }
      lastSource := EdgeLease;
      return if reply.value.payload.allowed then Allow else Deny, slept;
    }
  }

  /** One call charges its id at most once and no other, whatever is lost; if it is
      allowed it was charged. */
  lemma {:induction false} ChargedAtMostOnce(charges: multiset<string>, id: string, fates: seq<Fate>, attempt: nat)
    requires attempt <= |fates| && forall i :: 0 <= i < |fates| ==> Plausible(fates[i])
    ensures var posted := PostFrom(charges, id, fates, attempt);
            && (posted.charges == charges || (id !in charges && posted.charges == charges + multiset{id}))
            && (Read(posted.reply) == Allow ==> id in posted.charges)
    decreases |fates| - attempt
  {
    if attempt < |fates| {
      ChargedAtMostOnce(After(charges, id, fates[attempt]), id, fates, attempt + 1);
    }
  }

  /** A fresh id that is allowed was charged exactly once, on the word of a reply
      below 500 whose object says so. */
  lemma AllowMeansCharged(charges: multiset<string>, id: string, fates: seq<Fate>)
    requires id !in charges && forall i :: 0 <= i < |fates| ==> Plausible(fates[i])
    requires Read(PostFrom(charges, id, fates, 0).reply) == Allow
    ensures var posted := PostFrom(charges, id, fates, 0);
            posted.charges[id] == 1 && posted.reply.value.status < 500 && posted.reply.value.payload == Object(true)
  {
    ChargedAtMostOnce(charges, id, fates, 0);
  }

  /** An attempt the box received and granted. */
  predicate Granted(fate: Fate) {
    !fate.RequestLost? && fate.grants
  }

  /** A fresh id is charged exactly when some attempt up to the first reply reached
      the box and was granted, whatever came back. */
  lemma {:induction false} ChargedExactly(charges: multiset<string>, id: string, fates: seq<Fate>, attempt: nat)
    requires attempt <= |fates| && id !in charges
    ensures var posted := PostFrom(charges, id, fates, attempt);
            && posted.charges[id] <= 1
            && (posted.charges[id] == 1 <==>
                  exists i :: attempt <= i < attempt + Attempts(fates, attempt) && Granted(fates[i]))
    decreases |fates| - attempt
  {
    if attempt < |fates| {
      if Granted(fates[attempt]) {
        ChargedStays(charges + multiset{id}, id, fates, attempt + 1);
      } else {
        ChargedExactly(charges, id, fates, attempt + 1);
      }
    }
  }

  lemma {:induction false} ChargedStays(charges: multiset<string>, id: string, fates: seq<Fate>, attempt: nat)
    requires attempt <= |fates| && id in charges
    ensures PostFrom(charges, id, fates, attempt).charges == charges
    decreases |fates| - attempt
  {
    if attempt < |fates| { ChargedStays(charges, id, fates, attempt + 1); }
  }

  /** So the refusal that says nothing was charged is right exactly when no attempt
      up to the first reply was granted: without a reply, none at all; with a
      broken one, none up to it. */
  lemma RefusedUncharged(charges: multiset<string>, id: string, fates: seq<Fate>)
    requires id !in charges
    requires Read(PostFrom(charges, id, fates, 0).reply) == Unreachable
    ensures PostFrom(charges, id, fates, 0).charges == charges
            <==> forall i :: 0 <= i < Attempts(fates, 0) ==> !Granted(fates[i])
    ensures PostFrom(charges, id, fates, 0).reply.None? ==> Attempts(fates, 0) == |fates|
  {
    ChargedExactly(charges, id, fates, 0);
    AddsOnlyOwn(charges, id, fates, 0);
    AllTried(charges, id, fates, 0);
  }

  lemma {:induction false} AddsOnlyOwn(charges: multiset<string>, id: string, fates: seq<Fate>, attempt: nat)
    requires attempt <= |fates|
    ensures var after := PostFrom(charges, id, fates, attempt).charges;
            after == charges || (id !in charges && after == charges + multiset{id})
    decreases |fates| - attempt
  {
    if attempt < |fates| { AddsOnlyOwn(After(charges, id, fates[attempt]), id, fates, attempt + 1); }
  }

  lemma {:induction false} AllTried(charges: multiset<string>, id: string, fates: seq<Fate>, attempt: nat)
    requires attempt <= |fates|
    ensures PostFrom(charges, id, fates, attempt).reply.None?
            <==> forall i :: attempt <= i < |fates| ==> !fates[i].Replied?
    ensures PostFrom(charges, id, fates, attempt).reply.None? ==> attempt + Attempts(fates, attempt) == |fates|
    decreases |fates| - attempt
  {
    if attempt < |fates| { AllTried(After(charges, id, fates[attempt]), id, fates, attempt + 1); }
  }

  /** An instance of the failing side: every reply is lost. */
  lemma RefusedYetCharged(charges: multiset<string>, id: string, fates: seq<Fate>)
    requires id !in charges && |fates| > 0 && forall i :: 0 <= i < |fates| ==> fates[i] == ReplyLost(true)
    ensures var posted := PostFrom(charges, id, fates, 0); Read(posted.reply) == Unreachable && posted.charges[id] == 1
  {
    AllTried(charges, id, fates, 0);
    ChargedExactly(charges, id, fates, 0);
    assert Granted(fates[0]);
  }

  /** What an answer means: only an object below 500 decides anything. */
  lemma AnswerMeans(reply: Option<Reply>)
    ensures Read(reply) == Allow <==> reply.Some? && reply.value.status < 500 && reply.value.payload == Object(true)
    ensures Read(reply) == Deny <==> reply.Some? && reply.value.status < 500 && reply.value.payload == Object(false)
  {
  }

  /** A fresh id whose first reply came back as the box sent it is allowed exactly if
      some attempt up to that reply was granted. */
  lemma {:induction false} AllowedExactly(charges: multiset<string>, id: string, fates: seq<Fate>,
                                          attempt: nat, at: nat)
    requires attempt <= at < |fates| && fates[at].Replied? && fates[at].garbled.None?
    requires forall i :: attempt <= i < at ==> !fates[i].Replied?
    ensures Read(PostFrom(charges, id, fates, attempt).reply)
            == if id in charges || exists i :: attempt <= i <= at && Granted(fates[i]) then Allow else Deny
    decreases at - attempt
  {
    if attempt < at {
      AllowedExactly(After(charges, id, fates[attempt]), id, fates, attempt + 1, at);
      assert Granted(fates[attempt]) || After(charges, id, fates[attempt]) == charges;
    }
  }

  /** The sleeps are 0.2, 0.4, 0.8, ... seconds, one after each attempt that got no
      reply but the last of all. */
  lemma {:induction false} SleptExactly(charges: multiset<string>, id: string, fates: seq<Fate>, attempt: nat)
    requires attempt < |fates|
    ensures var tried := attempt + Attempts(fates, attempt);
            PostFrom(charges, id, fates, attempt).slept == 0.2 * (Power(tried - 1) - Power(attempt))
    decreases |fates| - attempt
  {
    SleepsOnce(charges, id, fates, attempt);
    if !fates[attempt].Replied? && attempt + 1 < |fates| {
      SleptExactly(After(charges, id, fates[attempt]), id, fates, attempt + 1);
      assert Power(attempt + 1) == 2.0 * Power(attempt);
    }
    hide PostFrom, After, Power;
  }

  lemma SleepsOnce(charges: multiset<string>, id: string, fates: seq<Fate>, attempt: nat)
    requires attempt < |fates|
    ensures var rest := PostFrom(After(charges, id, fates[attempt]), id, fates, attempt + 1).slept;
            PostFrom(charges, id, fates, attempt).slept
            == if fates[attempt].Replied? || attempt + 1 == |fates| then 0.0 else rest + 0.2 * Power(attempt)
  {
    hide After, Power;
  }

  /** The sleeps of a call add up to at most 0.2 * (2^retries - 1) seconds. */
  lemma {:induction false} SleepBounded(charges: multiset<string>, id: string, fates: seq<Fate>, attempt: nat)
    requires attempt < |fates|
    ensures 0.0 <= PostFrom(charges, id, fates, attempt).slept <= 0.2 * (Power(|fates| - 1) - Power(attempt))
    decreases |fates| - attempt
  {
    PowerMonotonic(attempt, |fates| - 1);
    var now := After(charges, id, fates[attempt]);
    if attempt + 1 < |fates| {
      SleepBounded(now, id, fates, attempt + 1);
    } else {
      assert PostFrom(now, id, fates, attempt + 1).slept == 0.0;
    }
  }

  lemma {:induction false} PowerMonotonic(m: nat, n: nat)
    requires m <= n
    ensures 1.0 <= Power(m) <= Power(n)
    decreases n
  {
    if n > 0 {
      if m == n { PowerMonotonic(m - 1, n - 1); } else { PowerMonotonic(m, n - 1); }
    }
  }
}
