/** The control-plane push channel: per-workflow version dedup over at-least-once,
    reordered delivery, and the reconnect loop with its capped backoff. */
module ControlPlanes {
  import opened Options

  // -------------------------------------------------------------- state pushes

  datatype Remote = Remote(state: string, version: int, reason: Option<string>, updatedAt: int)

  /** A state event; an empty workflow id stands for a missing one. */
  datatype Push = Push(workflow: string, remote: Remote)

  datatype Channel = Channel(lastVersion: map<string, int>, remoteStates: map<string, Remote>)

  function LastVersion(c: Channel, workflow: string): int {
    if workflow in c.lastVersion then c.lastVersion[workflow] else -1
  }

  /** An event the dedup lets through to the callback. */
  predicate Accepted(c: Channel, p: Push) {
    p.workflow != "" ==> p.remote.version > LastVersion(c, p.workflow)
  }

  function Receive(c: Channel, p: Push): Channel {
    if p.workflow == "" || !Accepted(c, p) then c
    else Channel(c.lastVersion[p.workflow := p.remote.version], c.remoteStates[p.workflow := p.remote])
  }

  function Deliver(c: Channel, pushes: seq<Push>): Channel
    decreases |pushes|
  {
    if pushes == [] then c else Deliver(Receive(c, pushes[0]), pushes[1..])
  }

  /** `clear_local_state`: the versions are forgotten, the states are not. */
  function Cleared(c: Channel): Channel {
    c.(lastVersion := map[])
  }

  class ControlChannel {
    var lastVersion: map<string, int>
    var remoteStates: map<string, Remote>
    var dispatched: seq<Push>

    ghost function View(): Channel
      reads this
    {
      Channel(lastVersion, remoteStates)
    }

    constructor ()
      ensures View() == Channel(map[], map[]) && dispatched == []
    {
      lastVersion, remoteStates, dispatched := map[], map[], [];
    }

    /** The callback: a push without a workflow is ignored. */
    method OnStateChange(p: Push)
      modifies this`remoteStates
      ensures remoteStates == if p.workflow == "" then old(remoteStates) else old(remoteStates)[p.workflow := p.remote]
    {
      if p.workflow == "" { return; }
      remoteStates := remoteStates[p.workflow := p.remote];
    }

    method DispatchState(p: Push)
      modifies this
      ensures View() == Receive(old(View()), p)
      ensures dispatched == old(dispatched) + if Accepted(old(View()), p) then [p] else []
    {
      if p.workflow != "" {
        var last := if p.workflow in lastVersion then lastVersion[p.workflow] else -1;
        if p.remote.version <= last { return; }
        lastVersion := lastVersion[p.workflow := p.remote.version];
      }
      dispatched := dispatched + [p];
      OnStateChange(p);
    }

    method ClearLocalState()
      modifies this`lastVersion
      ensures View() == Cleared(old(View()))
    {
      lastVersion := map[];
    }

    /** The receive loop over the state events of one connection. */
    method ReceiveAll(pushes: seq<Push>)
      modifies this
      ensures View() == Deliver(old(View()), pushes)
      ensures dispatched == old(dispatched) + Dispatches(old(View()), pushes)
    {
      var i := 0;
      while i < |pushes|
        invariant 0 <= i <= |pushes|
        invariant Deliver(View(), pushes[i..]) == Deliver(old(View()), pushes)
        invariant dispatched + Dispatches(View(), pushes[i..]) == old(dispatched) + Dispatches(old(View()), pushes)
      {
        DispatchesFirst(View(), pushes[i..], dispatched);
        DispatchState(pushes[i]);
        assert pushes[i..][1..] == pushes[i + 1..];
        i := i + 1;
      }
    }
  }

  /** The events that reach the callback, in order. */
  function Dispatches(c: Channel, pushes: seq<Push>): seq<Push>
    decreases |pushes|
  {
    if pushes == [] then []
    else if Accepted(c, pushes[0]) then [pushes[0]] + Dispatches(Receive(c, pushes[0]), pushes[1..])
    else Dispatches(c, pushes[1..])
  }

  lemma DispatchesHead(c: Channel, pushes: seq<Push>)
    requires pushes != []
    ensures Dispatches(c, pushes)
            == (if Accepted(c, pushes[0]) then [pushes[0]] else []) + Dispatches(Receive(c, pushes[0]), pushes[1..])
    ensures Deliver(c, pushes) == Deliver(Receive(c, pushes[0]), pushes[1..])
  {
  }

  lemma Regroup(a: seq<Push>, b: seq<Push>, c: seq<Push>)
    ensures a + (b + c) == (a + b) + c
  {
  }

  lemma DispatchesFirst(c: Channel, pushes: seq<Push>, before: seq<Push>)
    requires pushes != []
    ensures before + Dispatches(c, pushes)
            == (before + if Accepted(c, pushes[0]) then [pushes[0]] else [])
               + Dispatches(Receive(c, pushes[0]), pushes[1..])
    ensures Deliver(c, pushes) == Deliver(Receive(c, pushes[0]), pushes[1..])
  {
    var rest := Dispatches(Receive(c, pushes[0]), pushes[1..]);
    DispatchesHead(c, pushes);
    hide Accepted, Receive, Dispatches, Deliver;
    Regroup(before, if Accepted(c, pushes[0]) then [pushes[0]] else [], rest);
  }

  /** All above what was last seen, and strictly increasing for each workflow. */
  ghost predicate Increasing(c: Channel, ds: seq<Push>) {
    && (forall i :: 0 <= i < |ds| && ds[i].workflow != "" ==> ds[i].remote.version > LastVersion(c, ds[i].workflow))
    && (forall i, j :: 0 <= i < j < |ds| && ds[i].workflow != "" && ds[i].workflow == ds[j].workflow ==>
          ds[i].remote.version < ds[j].remote.version)
  }

  lemma IncreasingMore(c: Channel, p: Push, tail: seq<Push>)
    requires Accepted(c, p) && Increasing(Receive(c, p), tail)
    ensures Increasing(c, [p] + tail)
  {
    var ds, d := [p] + tail, Receive(c, p);
    assert forall w :: LastVersion(d, w) >= LastVersion(c, w);
    forall i | 0 <= i < |ds| && ds[i].workflow != ""
      ensures ds[i].remote.version > LastVersion(c, ds[i].workflow)
    {
      if i > 0 { assert ds[i] == tail[i - 1]; }
    }
    forall i, j | 0 <= i < j < |ds| && ds[i].workflow != "" && ds[i].workflow == ds[j].workflow
      ensures ds[i].remote.version < ds[j].remote.version
    {
      assert ds[j] == tail[j - 1];
      if i > 0 { assert ds[i] == tail[i - 1]; }
    }
  }

  /** Versions dispatched for one workflow strictly increase. */
  lemma {:induction false} DispatchesIncrease(c: Channel, pushes: seq<Push>)
    ensures Increasing(c, Dispatches(c, pushes))
    decreases |pushes|
  {
    if pushes != [] {
      DispatchesIncrease(Receive(c, pushes[0]), pushes[1..]);
      if Accepted(c, pushes[0]) {
        IncreasingMore(c, pushes[0], Dispatches(Receive(c, pushes[0]), pushes[1..]));
      }
    }
  }

  // --------------------------------------------------------------- convergence

  /** The highest version of a workflow's pushes, none counting below 0. */
  function Highest(pushes: seq<Push>, workflow: string, floor: int): (v: int)
    ensures v >= floor
    decreases |pushes|
  {
    if pushes == [] then floor
    else
      var p := pushes[0];
      var raised := if p.workflow == workflow && p.remote.version > floor then p.remote.version else floor;
      Highest(pushes[1..], workflow, raised)
  }

  lemma {:induction false} HighestIsHighest(pushes: seq<Push>, workflow: string, floor: int)
    ensures var v := Highest(pushes, workflow, floor);
            && (forall p :: p in pushes && p.workflow == workflow ==> p.remote.version <= v)
            && (v == floor || exists p :: p in pushes && p.workflow == workflow && p.remote.version == v)
    decreases |pushes|
  {
    if pushes != [] {
      var p := pushes[0];
      var raised := if p.workflow == workflow && p.remote.version > floor then p.remote.version else floor;
      HighestIsHighest(pushes[1..], workflow, raised);
      assert forall q :: q in pushes ==> q == p || q in pushes[1..];
    }
  }

  predicate SameHeld(c: Channel, d: Channel, workflow: string) {
    && (workflow in d.remoteStates <==> workflow in c.remoteStates)
    && (workflow in c.remoteStates ==> d.remoteStates[workflow] == c.remoteStates[workflow])
  }

  /** What the channel holds for a workflow after any pushes. */
  lemma {:induction false} DeliverKeepsHighest(c: Channel, pushes: seq<Push>, workflow: string)
    requires workflow != ""
    ensures var d, floor := Deliver(c, pushes), LastVersion(c, workflow);
            var v := Highest(pushes, workflow, floor);
            && LastVersion(d, workflow) == v
            && if v == floor then SameHeld(c, d, workflow)
               else
                 && workflow in d.remoteStates
                 && d.remoteStates[workflow].version == v
                 && Push(workflow, d.remoteStates[workflow]) in pushes
    decreases |pushes|
  {
    if pushes != [] { DeliverKeepsHighest(Receive(c, pushes[0]), pushes[1..], workflow); }
  }

  /** The highest push for its workflow, and one that counts. */
  ghost predicate Tops(pushes: seq<Push>, p: Push) {
    && p in pushes && p.workflow != "" && p.remote.version >= 0
    && forall q :: q in pushes && q.workflow == p.workflow ==> q.remote.version <= p.remote.version
  }

  /** The highest version of each workflow says one thing. */
  ghost predicate TopsDetermined(pushes: seq<Push>) {
    forall p, q :: Tops(pushes, p) && Tops(pushes, q) && p.workflow == q.workflow ==> p == q
  }

  ghost predicate SameEvents(xs: seq<Push>, ys: seq<Push>) {
    forall p :: p in xs <==> p in ys
  }

  ghost predicate Holds(c: Channel, p: Push) {
    p.workflow in c.remoteStates && c.remoteStates[p.workflow] == p.remote
  }

  /** Between two cache clears each workflow holds the push with the highest
      version that was delivered. */
  lemma HoldsHighest(c: Channel, pushes: seq<Push>, p: Push)
    requires Tops(pushes, p) && TopsDetermined(pushes)
    ensures Holds(Deliver(Cleared(c), pushes), p)
  {
    DeliverKeepsHighest(Cleared(c), pushes, p.workflow);
    HighestIsHighest(pushes, p.workflow, -1);
    var held := Push(p.workflow, Deliver(Cleared(c), pushes).remoteStates[p.workflow]);
    assert Tops(pushes, held);
  }

  lemma SameHighest(xs: seq<Push>, ys: seq<Push>, workflow: string, floor: int)
    requires SameEvents(xs, ys)
    ensures Highest(xs, workflow, floor) == Highest(ys, workflow, floor)
  {
    HighestIsHighest(xs, workflow, floor);
    HighestIsHighest(ys, workflow, floor);
  }

  lemma Converges(c: Channel, xs: seq<Push>, ys: seq<Push>)
    requires SameEvents(xs, ys) && TopsDetermined(xs)
    ensures Deliver(Cleared(c), xs).remoteStates == Deliver(Cleared(c), ys).remoteStates
  {
    var d, e := Deliver(Cleared(c), xs), Deliver(Cleared(c), ys);
    forall w: string
      ensures SameHeld(d, e, w)
    {
      if w == "" {
        BlankKept(Cleared(c), xs);
        BlankKept(Cleared(c), ys);
      } else {
        DeliverKeepsHighest(Cleared(c), xs, w);
        DeliverKeepsHighest(Cleared(c), ys, w);
        SameHighest(xs, ys, w, -1);
        var v := Highest(xs, w, -1);
        HighestIsHighest(xs, w, -1);
        if v > -1 {
          assert Tops(xs, Push(w, d.remoteStates[w])) && Tops(xs, Push(w, e.remoteStates[w]));
        }
      }
    }
    SameEverywhere(d, e);
  }

  lemma SameEverywhere(d: Channel, e: Channel)
    requires forall w: string :: SameHeld(d, e, w)
    ensures d.remoteStates == e.remoteStates
  {
    forall w: string
      ensures w in d.remoteStates <==> w in e.remoteStates
      ensures w in d.remoteStates ==> d.remoteStates[w] == e.remoteStates[w]
    {
      assert SameHeld(d, e, w);
    }
  }

  /** Whichever of two top pushes comes first stays. */
  lemma FirstTopStays(c: Channel, xs: seq<Push>, p: Push)
    requires Tops(xs, p)
    ensures SameEvents(xs, [p] + xs) && Holds(Deliver(Cleared(c), [p] + xs), p)
  {
    var d := Receive(Cleared(c), p);
    assert ([p] + xs)[1..] == xs;
    DeliverKeepsHighest(d, xs, p.workflow);
    HighestIsHighest(xs, p.workflow, p.remote.version);
  }

  /** Any reordering and any duplication of the same pushes ends in the same
      states. */
  ghost predicate OrderFree(c: Channel, xs: seq<Push>) {
    forall ys :: SameEvents(xs, ys) ==> Deliver(Cleared(c), ys).remoteStates == Deliver(Cleared(c), xs).remoteStates
  }

  lemma OrderFreeFor(c: Channel, xs: seq<Push>, p: Push)
    requires OrderFree(c, xs) && Tops(xs, p)
    ensures Holds(Deliver(Cleared(c), xs), p)
  {
    hide Deliver, Tops;
    FirstTopStays(c, xs, p);
  }

  /** It does so, whatever was held before, exactly when the highest version of
      each workflow says one thing. */
  lemma ConvergesExactly(c: Channel, xs: seq<Push>)
    ensures TopsDetermined(xs) <==> OrderFree(c, xs)
  {
    hide Deliver, Tops;
    if TopsDetermined(xs) {
      forall ys | SameEvents(xs, ys)
        ensures Deliver(Cleared(c), ys).remoteStates == Deliver(Cleared(c), xs).remoteStates
      {
        Converges(c, xs, ys);
      }
    }
    if OrderFree(c, xs) {
      forall p, q | Tops(xs, p) && Tops(xs, q) && p.workflow == q.workflow
        ensures p == q
      {
        OrderFreeFor(c, xs, p);
        OrderFreeFor(c, xs, q);
      }
    }
  }

  lemma {:induction false} BlankKept(c: Channel, pushes: seq<Push>)
    ensures var d := Deliver(c, pushes);
            && ("" in d.remoteStates <==> "" in c.remoteStates)
            && ("" in c.remoteStates ==> d.remoteStates[""] == c.remoteStates[""])
    decreases |pushes|
  {
    if pushes != [] { BlankKept(Receive(c, pushes[0]), pushes[1..]); }
  }

  lemma {:induction false} DispatchesSplit(c: Channel, xs: seq<Push>, ys: seq<Push>)
    ensures Dispatches(c, xs + ys) == Dispatches(c, xs) + Dispatches(Deliver(c, xs), ys)
    decreases |xs|
  {
    if xs == [] {
      assert [] + ys == ys;
    } else {
      assert (xs + ys)[1..] == xs[1..] + ys;
      DispatchesSplit(Receive(c, xs[0]), xs[1..], ys);
    }
  }

  lemma {:induction false} Unheard(c: Channel, pushes: seq<Push>, workflow: string)
    requires workflow !in c.lastVersion && forall q :: q in pushes ==> q.workflow != workflow
    ensures workflow !in Deliver(c, pushes).lastVersion
    decreases |pushes|
  {
    if pushes != [] { Unheard(Receive(c, pushes[0]), pushes[1..], workflow); }
  }

  /** The first push for a workflow after a clear is dispatched exactly when its
      version is not negative, so version 0 counts, wherever it stands among pushes
      for other workflows. */
  lemma FirstReceiptDispatched(c: Channel, before: seq<Push>, p: Push, after: seq<Push>)
    requires p.workflow != "" && forall q :: q in before ==> q.workflow != p.workflow
    ensures var here := Deliver(Cleared(c), before);
            Dispatches(Cleared(c), before + ([p] + after))
            == Dispatches(Cleared(c), before) + (if p.remote.version >= 0 then [p] else [])
               + Dispatches(Receive(here, p), after)
  {
    var here := Deliver(Cleared(c), before);
    DispatchesSplit(Cleared(c), before, [p] + after);
    Unheard(Cleared(c), before, p.workflow);
    assert ([p] + after)[1..] == after;
  }

  /** A push that names no workflow is called back every time and changes nothing. */
  lemma UnnamedCalledBack(c: Channel, p: Push, after: seq<Push>)
    requires p.workflow == ""
    ensures Dispatches(c, [p] + after) == [p] + Dispatches(c, after) && Deliver(c, [p] + after) == Deliver(c, after)
  {
    assert ([p] + after)[1..] == after;
  }

  lemma DeliverOne(c: Channel, p: Push)
    ensures Deliver(c, [p]) == Receive(c, p)
  {
    assert [p][1..] == [];
  }

  /** The pushes after a clear say nothing of the workflow, or something as new. */
  ghost predicate CatchesUp(pushes: seq<Push>, workflow: string, version: int) {
    || (forall q :: q in pushes && q.workflow == workflow ==> q.remote.version < 0)
    || (exists q :: q in pushes && q.workflow == workflow && q.remote.version >= version)
  }

  lemma CatchesUpHighest(pushes: seq<Push>, workflow: string, version: int)
    ensures CatchesUp(pushes, workflow, version)
            <==> Highest(pushes, workflow, -1) == -1 || Highest(pushes, workflow, -1) >= version
  {
    HighestIsHighest(pushes, workflow, -1);
  }

  /** Whatever a channel holds, after a clear and any pushes it holds nothing older
      exactly when those pushes catch up. */
  lemma ClearKeepsExactly(c: Channel, pushes: seq<Push>, workflow: string)
    requires workflow != "" && workflow in c.remoteStates
    ensures var d := Deliver(Cleared(c), pushes);
            && workflow in d.remoteStates
            && (d.remoteStates[workflow].version >= c.remoteStates[workflow].version
                <==> CatchesUp(pushes, workflow, c.remoteStates[workflow].version))
  {
    CatchesUpHighest(pushes, workflow, c.remoteStates[workflow].version);
    DeliverKeepsHighest(Cleared(c), pushes, workflow);
  }

  /** So over two connections with a clear between them, a workflow is left no older
      than the highest push of the first exactly when the second catches up. */
  lemma NeverOlderExactly(c: Channel, xs: seq<Push>, ys: seq<Push>, p: Push)
    requires Tops(xs, p) && TopsDetermined(xs)
    ensures var d := Deliver(Cleared(Deliver(Cleared(c), xs)), ys);
            && p.workflow in d.remoteStates
            && (d.remoteStates[p.workflow].version >= p.remote.version <==> CatchesUp(ys, p.workflow, p.remote.version))
  {
    hide Deliver, CatchesUp, TopsDetermined;
    HoldsHighest(c, xs, p);
    ClearKeepsExactly(Deliver(Cleared(c), xs), ys, p.workflow);
  }

  /** An instance where it does not: an early push delivered again takes over, where
      the dedup would have dropped it. */
  lemma ClearLetsOldBack(c: Channel, early: Push, late: Push)
    requires early.workflow == late.workflow != "" && LastVersion(c, late.workflow) < late.remote.version
    requires 0 <= early.remote.version < late.remote.version
    ensures Holds(Deliver(Deliver(c, [late]), [early]), late)
    ensures Holds(Deliver(Cleared(Deliver(c, [late])), [early]), early)
  {
    DeliverOne(c, late);
    DeliverOne(Receive(c, late), early);
    DeliverOne(Cleared(Receive(c, late)), early);
  }

  // ------------------------------------------------------------ reconnect loop

  const MAX_RECONNECT_ATTEMPTS := 10
  const FIRST_DELAY := 1
  const MAX_DELAY := 60

  /** What one turn of the loop meets: a healthy connection, with the pushes since
      the last turn; a lost one that can or cannot be reopened; a resync request; or
      the channel closed from outside. */
  datatype Turn = Healthy(received: seq<Push>) | Lost(reopens: bool) | ResyncRequired | ClosedElsewhere

  /** The loop's variables, the waits since the last connection, the number of
      connections tried, and what the channel holds. */
  datatype Loop = Loop(closed: bool, failures: nat, delay: nat, waits: seq<nat>, attempts: nat, channel: Channel)

  function FirstTurn(channel: Channel): Loop {
    Loop(false, 0, FIRST_DELAY, [], 0, channel)
  }

  function NextDelay(delay: nat): nat {
    if delay * 2 < MAX_DELAY then delay * 2 else MAX_DELAY
  }

  function Once(l: Loop, turn: Turn): Loop {
    if l.closed then l
    else match turn
      case Healthy(received) => l.(channel := Deliver(l.channel, received))
      case ClosedElsewhere => l.(closed := true)
      case ResyncRequired => l.(closed := true, channel := Cleared(l.channel))
      case Lost(reopens) =>
        if l.failures >= MAX_RECONNECT_ATTEMPTS then l.(closed := true)
        else if reopens then
          l.(failures := 0, delay := FIRST_DELAY, waits := [], attempts := l.attempts + 1,
             channel := Cleared(l.channel))
        else
          l.(failures := l.failures + 1, delay := NextDelay(l.delay), waits := l.waits + [l.delay],
             attempts := l.attempts + 1)
  }

  function Turns(l: Loop, turns: seq<Turn>): Loop
    decreases |turns|
  {
    if turns == [] then l else Turns(Once(l, turns[0]), turns[1..])
  }

  class Reconnector {
    const channel: ControlChannel
    var closed: bool
    var consecutiveFailures: nat

    constructor (channel: ControlChannel)
      ensures this.channel == channel && !closed && consecutiveFailures == 0
    {
      this.channel := channel;
      closed, consecutiveFailures := false, 0;
    }

    /** `_reconnect_loop` through the turns it lives to see. A connection that came
        back may deliver again what was seen, so the versions are forgotten. */
    method ReconnectLoop(turns: seq<Turn>) returns (waits: seq<nat>, attempts: nat)
      requires !closed && consecutiveFailures == 0
      modifies this, channel
      ensures var end := Turns(FirstTurn(old(channel.View())), turns);
              && closed == end.closed && consecutiveFailures == end.failures
              && waits == end.waits && attempts == end.attempts && channel.View() == end.channel
    {
      hide Deliver, NextDelay;
      ghost var first := FirstTurn(channel.View());
      var delay: nat := FIRST_DELAY;
      var i := 0;
      waits, attempts := [], 0;
      while i < |turns| && !closed
        invariant 0 <= i <= |turns|
        invariant Turns(Loop(closed, consecutiveFailures, delay, waits, attempts, channel.View()), turns[i..])
                  == Turns(first, turns)
      {
        assert turns[i..][1..] == turns[i + 1..];
        match turns[i] {
          case Healthy(received) => channel.ReceiveAll(received);
          case ClosedElsewhere => closed := true;
          case ResyncRequired =>
            channel.ClearLocalState();
            closed := true;
          case Lost(reopens) =>
            if consecutiveFailures >= MAX_RECONNECT_ATTEMPTS {
              closed := true;
            } else {
              attempts := attempts + 1;
              if reopens {
                delay, waits, consecutiveFailures := FIRST_DELAY, [], 0;
                channel.ClearLocalState();
              } else {
                consecutiveFailures := consecutiveFailures + 1;
                waits := waits + [delay];
                delay := NextDelay(delay);
              }
            }
        }
        i := i + 1;
      }
      ClosedStays(Loop(closed, consecutiveFailures, delay, waits, attempts, channel.View()), turns[i..]);
    }
  }

  /** A closed loop never tries again. */
  lemma {:induction false} ClosedStays(l: Loop, turns: seq<Turn>)
    requires l.closed || turns == []
    ensures Turns(l, turns) == l
    decreases |turns|
  {
    if turns != [] { ClosedStays(Once(l, turns[0]), turns[1..]); }
  }

  function Power(n: nat): nat {
    if n == 0 then 1 else 2 * Power(n - 1)
  }

  /** The wait after the n-th failure in a row, counting from 0. */
  function Backoff(n: nat): nat {
    if Power(n) < MAX_DELAY then Power(n) else MAX_DELAY
  }

  function Total(waits: seq<nat>): nat {
    if waits == [] then 0 else Total(waits[..|waits| - 1]) + waits[|waits| - 1]
  }

  ghost predicate OnSchedule(l: Loop) {
    && |l.waits| == l.failures <= MAX_RECONNECT_ATTEMPTS
    && l.delay == Backoff(l.failures)
    && (forall i :: 0 <= i < |l.waits| ==> l.waits[i] == Backoff(i))
  }

  /** However connections come and go, the waits since the last connection are
      1, 2, 4, ... seconds, never more than 60, and no more than ten of them. */
  lemma {:induction false} WaitsOnSchedule(l: Loop, turns: seq<Turn>)
    requires OnSchedule(l)
    ensures OnSchedule(Turns(l, turns))
    decreases |turns|
  {
    if turns != [] {
      PowerGrows(l.failures);
      WaitsOnSchedule(Once(l, turns[0]), turns[1..]);
    }
  }

  lemma PowerGrows(n: nat)
    ensures Backoff(n + 1) == NextDelay(Backoff(n))
  {
  }

  lemma {:induction false} TotalOnSchedule(waits: seq<nat>)
    requires |waits| <= 10 && forall i :: 0 <= i < |waits| ==> waits[i] == Backoff(i)
    ensures Total(waits) <= 303 && (|waits| == 10 ==> Total(waits) == 303)
  {
    assert Backoff(0) == 1 && Backoff(1) == 2 && Backoff(2) == 4 && Backoff(3) == 8 && Backoff(4) == 16;
    assert Backoff(5) == 32 && Power(6) == 64 && Power(7) == 128 && Power(8) == 256 && Power(9) == 512;
    TotalUpTo(waits, |waits|);
  }

  function Expected(n: nat): nat {
    if n == 0 then 0 else Expected(n - 1) + Backoff(n - 1)
  }

  lemma {:induction false} TotalUpTo(waits: seq<nat>, n: nat)
    requires n == |waits| && forall i :: 0 <= i < n ==> waits[i] == Backoff(i)
    ensures Total(waits) == Expected(n)
    decreases n
  {
    if n > 0 { TotalUpTo(waits[..n - 1], n - 1); }
  }

  /** The loop ends by itself exactly when an eleventh turn finds the connection
      lost after ten failures in a row, 303 seconds of waiting; otherwise only
      when someone else closes the channel. */
  lemma GivesUpAfterTen(channel: Channel, turns: seq<Turn>, last: Turn)
    requires !Turns(FirstTurn(channel), turns).closed
    ensures var l := Turns(FirstTurn(channel), turns);
            && (Once(l, last).closed <==>
                  last == ClosedElsewhere || last == ResyncRequired || (last.Lost? && |l.waits| == 10))
            && Total(l.waits) <= 303 && (|l.waits| == 10 ==> Total(l.waits) == 303)
  {
    assert OnSchedule(FirstTurn(channel));
    WaitsOnSchedule(FirstTurn(channel), turns);
    TotalOnSchedule(Turns(FirstTurn(channel), turns).waits);
  }

  function Losses(n: nat): (turns: seq<Turn>)
    ensures |turns| == n
  {
    if n == 0 then [] else Losses(n - 1) + [Lost(false)]
  }

  /** From the start, every loss is followed by one attempt, up to the tenth. */
  lemma {:induction false} LossesTried(channel: Channel, n: nat)
    requires n <= 10
    ensures var l := Turns(FirstTurn(channel), Losses(n));
            !l.closed && l.attempts == n && l.failures == n && |l.waits| == n && (n > 0 ==> l.waits[0] == 1)
    decreases n
  {
    if n > 0 {
      LossesTried(channel, n - 1);
      TurnsSplit(FirstTurn(channel), Losses(n - 1), [Lost(false)]);
      var l := Turns(FirstTurn(channel), Losses(n - 1));
      assert [Lost(false)][1..] == [] && Turns(l, [Lost(false)]) == Turns(Once(l, Lost(false)), []);
      assert n == 1 ==> l == FirstTurn(channel);
    }
  }

  /** A connection that comes back starts all over, after one attempt. */
  lemma BackStartsOver(l: Loop)
    requires !l.closed && l.failures < 10
    ensures var back := Once(l, Lost(true));
            !back.closed && back.failures == 0 && back.waits == [] && back.attempts == l.attempts + 1
            && Once(back, Lost(false)).waits == [1]
  {
  }

  /** A resync request closes the channel for good: no connection is tried after
      it, whatever the loop meets, and the versions it clears stay cleared. */
  lemma ResyncNeverReconnects(channel: Channel, before: seq<Turn>, later: seq<Turn>)
    requires !Turns(FirstTurn(channel), before).closed
    ensures var l := Turns(FirstTurn(channel), before);
            var end := Turns(FirstTurn(channel), before + [ResyncRequired] + later);
            end.closed && end.attempts == l.attempts && end.channel == Cleared(l.channel)
  {
    var l := Turns(FirstTurn(channel), before);
    TurnsSplit(FirstTurn(channel), before, [ResyncRequired] + later);
    assert before + [ResyncRequired] + later == before + ([ResyncRequired] + later);
    assert ([ResyncRequired] + later)[1..] == later;
    ClosedStays(Once(l, ResyncRequired), later);
  }

  lemma {:induction false} TurnsSplit(l: Loop, before: seq<Turn>, later: seq<Turn>)
    ensures Turns(l, before + later) == Turns(Turns(l, before), later)
    decreases |before|
  {
    if before == [] {
      assert [] + later == later;
    } else {
      assert (before + later)[1..] == before[1..] + later;
      TurnsSplit(Once(l, before[0]), before[1..], later);
    }
  }

  /** What the channel holds after a reconnect and the pushes on the new connection
      is what those pushes determine: the highest of each workflow. */
  lemma ReconnectHoldsHighest(l: Loop, pushes: seq<Push>, p: Push)
    requires !l.closed && l.failures < MAX_RECONNECT_ATTEMPTS
    requires Tops(pushes, p) && TopsDetermined(pushes)
    ensures Holds(Turns(l, [Lost(true), Healthy(pushes)]).channel, p)
  {
    var back := Once(l, Lost(true));
    assert [Lost(true), Healthy(pushes)][1..] == [Healthy(pushes)] && [Healthy(pushes)][1..] == [];
    assert Turns(back, [Healthy(pushes)]) == Turns(Once(back, Healthy(pushes)), []);
    HoldsHighest(l.channel, pushes, p);
  }
}
