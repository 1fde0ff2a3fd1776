/** The callback's table of runs in flight: an ordered dictionary, capped, with the
    oldest key evicted. Each method body runs under one lock, so any run of any
    number of threads is a sequence of these steps. */
module RunTables {
  import opened Options

  const ACTIVE_RUNS_MAX := 4096

  /** One key of the dictionary. `since` is when the key was inserted: writing to a
      key that is there keeps its place. */
  datatype Slot = Slot(run: string, span: nat, since: nat)

  function Find(t: seq<Slot>, run: string): (i: nat)
    ensures i <= |t| && (i < |t| ==> t[i].run == run) && forall j :: 0 <= j < i ==> t[j].run != run
  {
    if t == [] then 0 else if t[0].run == run then 0 else 1 + Find(t[1..], run)
  }

  /** `popitem(last=False)` at the cap, whether or not the key is there already. */
  function MakeRoom(t: seq<Slot>, cap: nat): seq<Slot> {
    if |t| >= cap && t != [] then t[1..] else t
  }

  function Put(t: seq<Slot>, run: string, span: nat, now: nat): seq<Slot> {
    var i := Find(t, run);
    if i < |t| then t[i := t[i].(span := span)] else t + [Slot(run, span, now)]
  }

  function Pop(t: seq<Slot>, run: string): seq<Slot> {
    var i := Find(t, run);
    if i < |t| then t[..i] + t[i + 1..] else t
  }

  class RunTable {
    var slots: seq<Slot>
    var clock: nat

    constructor ()
      ensures slots == [] && clock == 0
    {
      slots, clock := [], 0;
    }

    method RegisterActiveRun(run: string, span: nat) returns (evicted: Option<Slot>)
      modifies this
      ensures slots == Put(MakeRoom(old(slots), ACTIVE_RUNS_MAX), run, span, old(clock)) && clock == old(clock) + 1
      ensures evicted == if |old(slots)| >= 4096 then Some(old(slots)[0]) else None
    {
      evicted := None;
      if |slots| >= ACTIVE_RUNS_MAX && slots != [] {
        evicted := Some(slots[0]);
        slots := slots[1..];
      }
      var i := Find(slots, run);
      if i < |slots| {
        slots := slots[i := slots[i].(span := span)];
      } else {
        slots := slots + [Slot(run, span, clock)];
      }
      clock := clock + 1;
    }

    /** The span whose span_end is emitted, if the run is still there. */
    method EndRun(run: string) returns (span: Option<nat>)
      modifies this
      ensures slots == Pop(old(slots), run) && clock == old(clock) + 1
      ensures var i := Find(old(slots), run); span == if i < |old(slots)| then Some(old(slots)[i].span) else None
    {
      var i := Find(slots, run);
      clock := clock + 1;
      if i == |slots| { return None; }
      span := Some(slots[i].span);
      slots := slots[..i] + slots[i + 1..];
    }
  }

  // -------------------------------------------------------------------- runs

  datatype Action = Register(run: string, span: nat) | End(run: string)

  datatype Event =
    | Registered(run: string, span: nat)
    | Evicted(slot: Slot)
    | Overwritten(run: string, span: nat)
    | Ended(run: string, span: nat)

  datatype History = Nothing | Then(past: History, event: Event)

  datatype System = System(slots: seq<Slot>, clock: nat, history: History)

  const INITIAL := System([], 0, Nothing)

  function Log(h: History, e: Option<Event>): History {
    if e.Some? then Then(h, e.value) else h
  }

  function Lost(t: seq<Slot>, cap: nat): Option<Event> {
    if |t| >= cap && t != [] then Some(Evicted(t[0])) else None
  }

  function Replaced(t: seq<Slot>, run: string): Option<Event> {
    var i := Find(t, run);
    if i < |t| then Some(Overwritten(run, t[i].span)) else None
  }

  function Step(cap: nat, s: System, a: Action): System {
    match a
    case Register(run, span) =>
      var room := MakeRoom(s.slots, cap);
      System(Put(room, run, span, s.clock), s.clock + 1,
             Then(Log(Log(s.history, Lost(s.slots, cap)), Replaced(room, run)), Registered(run, span)))
    case End(run) =>
      var i := Find(s.slots, run);
      System(Pop(s.slots, run), s.clock + 1,
             Log(s.history, if i < |s.slots| then Some(Ended(run, s.slots[i].span)) else None))
  }

  function Run(cap: nat, s: System, actions: seq<Action>): System
    decreases |actions|
  {
    if actions == [] then s else Run(cap, Step(cap, s, actions[0]), actions[1..])
  }

  /** A registration: which run, which span. */
  datatype Entry = Entry(run: string, span: nat)

  ghost function Registrations(h: History): multiset<Entry> {
    if h.Nothing? then multiset{}
    else Registrations(h.past) + if h.event.Registered? then multiset{Entry(h.event.run, h.event.span)} else multiset{}
  }

  ghost function EndsIn(h: History): multiset<Entry> {
    if h.Nothing? then multiset{}
    else EndsIn(h.past) + if h.event.Ended? then multiset{Entry(h.event.run, h.event.span)} else multiset{}
  }

  ghost function Evictions(h: History): multiset<Entry> {
    if h.Nothing? then multiset{}
    else
      Evictions(h.past) + if h.event.Evicted? then multiset{Entry(h.event.slot.run, h.event.slot.span)} else multiset{}
  }

  ghost function Overwrites(h: History): multiset<Entry> {
    if h.Nothing? then multiset{}
    else Overwrites(h.past) + if h.event.Overwritten? then multiset{Entry(h.event.run, h.event.span)} else multiset{}
  }

  /** The registrations that are over, one way or another. */
  ghost function Gone(h: History): multiset<Entry> {
    if h.Nothing? then multiset{}
    else Gone(h.past) + match h.event
                        case Registered(_, _) => multiset{}
                        case Evicted(slot) => multiset{Entry(slot.run, slot.span)}
                        case Overwritten(run, span) => multiset{Entry(run, span)}
                        case Ended(run, span) => multiset{Entry(run, span)}
  }

  lemma {:induction false} GoneHow(h: History)
    ensures Gone(h) == EndsIn(h) + Evictions(h) + Overwrites(h)
  {
    if h.Then? { GoneHow(h.past); }
  }

  ghost function Active(t: seq<Slot>): multiset<Entry> {
    if t == [] then multiset{} else multiset{Entry(t[0].run, t[0].span)} + Active(t[1..])
  }

  /** The span last registered for a run. */
  ghost function LastSpan(h: History, run: string): Option<nat> {
    if h.Nothing? then None
    else if h.event.Registered? && h.event.run == run then Some(h.event.span)
    else LastSpan(h.past, run)
  }

  /** Every span_end carries the span last registered for its run. */
  ghost predicate EndsMatch(h: History) {
    h.Then? ==> EndsMatch(h.past) && (h.event.Ended? ==> LastSpan(h.past, h.event.run) == Some(h.event.span))
  }

  /** Distinct keys in the order they were inserted. */
  ghost predicate Ordered(t: seq<Slot>, clock: nat) {
    && (forall i, j :: 0 <= i < j < |t| ==> t[i].run != t[j].run && t[i].since < t[j].since)
    && (forall i :: 0 <= i < |t| ==> t[i].since < clock)
  }

  ghost predicate Conserved(t: seq<Slot>, h: History) {
    Registrations(h) == Gone(h) + Active(t)
  }

  ghost predicate Current(t: seq<Slot>, h: History) {
    forall i :: 0 <= i < |t| ==> LastSpan(h, t[i].run) == Some(t[i].span)
  }

  ghost predicate Invariant(cap: nat, s: System) {
    && |s.slots| <= cap
    && Ordered(s.slots, s.clock)
    && Conserved(s.slots, s.history)
    && Current(s.slots, s.history)
    && EndsMatch(s.history)
  }

  lemma ActiveFirst(slot: Slot, rest: seq<Slot>)
    ensures Active([slot] + rest) == multiset{Entry(slot.run, slot.span)} + Active(rest)
  {
    assert ([slot] + rest)[1..] == rest;
  }

  lemma {:induction false} ActiveSplit(t: seq<Slot>, i: nat)
    requires i < |t|
    ensures Active(t) == Active(t[..i] + t[i + 1..]) + multiset{Entry(t[i].run, t[i].span)}
    decreases i
  {
    hide Active;
    ActiveFirst(t[0], t[1..]);
    assert t == [t[0]] + t[1..];
    if i == 0 {
      assert t[..0] + t[1..] == t[1..];
    } else {
      var rest := t[1..][..i - 1] + t[1..][i..];
      ActiveSplit(t[1..], i - 1);
      ActiveFirst(t[0], rest);
      assert t[..i] + t[i + 1..] == [t[0]] + rest;
    }
  }

  lemma {:induction false} ActiveMore(t: seq<Slot>, slot: Slot)
    ensures Active(t + [slot]) == Active(t) + multiset{Entry(slot.run, slot.span)}
  {
    if t == [] {
      assert [slot][1..] == [];
    } else {
      assert (t + [slot])[1..] == t[1..] + [slot];
      ActiveMore(t[1..], slot);
    }
  }

  /** One registration leaves the table. */
  lemma LeaveConserves(t: seq<Slot>, u: seq<Slot>, h: History, e: Event, gone: Entry)
    requires Conserved(t, h) && Active(t) == Active(u) + multiset{gone}
    requires !e.Registered? && gone == if e.Evicted? then Entry(e.slot.run, e.slot.span) else Entry(e.run, e.span)
    ensures Conserved(u, Then(h, e))
  {
    hide Active;
  }

  /** One registration joins it. */
  lemma JoinConserves(t: seq<Slot>, u: seq<Slot>, h: History, run: string, span: nat)
    requires Conserved(t, h) && Active(u) == Active(t) + multiset{Entry(run, span)}
    ensures Conserved(u, Then(h, Registered(run, span)))
  {
    hide Active;
  }

  lemma RoomOrders(cap: nat, t: seq<Slot>, clock: nat)
    requires Ordered(t, clock) && |t| <= cap
    ensures var room := MakeRoom(t, cap);
            && Ordered(room, clock) && (cap > 0 ==> |room| < cap)
            && (forall i :: 0 <= i < |room| && |room| < |t| ==> t[0].since < room[i].since)
  {
  }

  lemma RoomCurrent(cap: nat, t: seq<Slot>, h: History)
    requires Current(t, h) && EndsMatch(h)
    ensures Current(MakeRoom(t, cap), Log(h, Lost(t, cap))) && EndsMatch(Log(h, Lost(t, cap)))
  {
    assert forall r :: LastSpan(Log(h, Lost(t, cap)), r) == LastSpan(h, r);
  }

  /** Room is made by evicting the key inserted first. */
  lemma RoomKeeps(cap: nat, s: System)
    requires Invariant(cap, s)
    ensures var room, h := MakeRoom(s.slots, cap), Log(s.history, Lost(s.slots, cap));
            Ordered(room, s.clock) && Conserved(room, h) && Current(room, h) && EndsMatch(h)
            && (cap > 0 ==> |room| < cap)
            && (forall i :: 0 <= i < |room| && |room| < |s.slots| ==> s.slots[0].since < room[i].since)
  {
    hide Ordered, Conserved, Current, EndsMatch;
    RoomOrders(cap, s.slots, s.clock);
    RoomCurrent(cap, s.slots, s.history);
    if |s.slots| >= cap && s.slots != [] {
      LeaveConserves(s.slots, s.slots[1..], s.history, Evicted(s.slots[0]), Entry(s.slots[0].run, s.slots[0].span));
    }
  }

  lemma PutConserves(t: seq<Slot>, h: History, clock: nat, run: string, span: nat)
    requires Conserved(t, h)
    ensures Conserved(Put(t, run, span, clock), Then(Log(h, Replaced(t, run)), Registered(run, span)))
  {
    var i, u := Find(t, run), Put(t, run, span, clock);
    if i < |t| {
      var rest := t[..i] + t[i + 1..];
      ActiveSplit(t, i);
      ActiveSplit(u, i);
      assert u[..i] + u[i + 1..] == rest;
      LeaveConserves(t, rest, h, Overwritten(run, t[i].span), Entry(run, t[i].span));
      JoinConserves(rest, u, Then(h, Overwritten(run, t[i].span)), run, span);
    } else {
      ActiveMore(t, Slot(run, span, clock));
      JoinConserves(t, u, h, run, span);
    }
  }

  lemma PutOrders(t: seq<Slot>, clock: nat, run: string, span: nat)
    requires Ordered(t, clock)
    ensures Ordered(Put(t, run, span, clock), clock + 1) && |Put(t, run, span, clock)| <= |t| + 1
  {
    var i := Find(t, run);
    hide Find;
  }

  lemma PutCurrent(t: seq<Slot>, h: History, clock: nat, run: string, span: nat)
    requires Ordered(t, clock) && Current(t, h) && EndsMatch(h)
    ensures var g := Then(Log(h, Replaced(t, run)), Registered(run, span));
            Current(Put(t, run, span, clock), g) && EndsMatch(g)
  {
    var i := Find(t, run);
    hide Find;
    assert forall r :: LastSpan(Log(h, Replaced(t, run)), r) == LastSpan(h, r);
  }

  lemma PutKeeps(t: seq<Slot>, h: History, clock: nat, run: string, span: nat)
    requires Ordered(t, clock) && Conserved(t, h) && Current(t, h) && EndsMatch(h)
    ensures var u, g := Put(t, run, span, clock), Then(Log(h, Replaced(t, run)), Registered(run, span));
            Ordered(u, clock + 1) && Conserved(u, g) && Current(u, g) && EndsMatch(g) && |u| <= |t| + 1
  {
    hide Ordered, Conserved, Current, EndsMatch, Put;
    PutConserves(t, h, clock, run, span);
    PutOrders(t, clock, run, span);
    PutCurrent(t, h, clock, run, span);
  }

  lemma PopOrders(t: seq<Slot>, clock: nat, run: string)
    requires Ordered(t, clock)
    ensures Ordered(Pop(t, run), clock + 1)
  {
    var i := Find(t, run);
    hide Find;
  }

  lemma PopCurrent(t: seq<Slot>, h: History, run: string)
    requires Current(t, h) && EndsMatch(h)
    ensures var i := Find(t, run);
            var g := Log(h, if i < |t| then Some(Ended(run, t[i].span)) else None);
            Current(Pop(t, run), g) && EndsMatch(g)
  {
    var i := Find(t, run);
    hide Find;
    assert forall r :: LastSpan(Log(h, if i < |t| then Some(Ended(run, t[i].span)) else None), r) == LastSpan(h, r);
  }

  lemma EndKeeps(cap: nat, s: System, run: string)
    requires Invariant(cap, s)
    ensures Invariant(cap, Step(cap, s, End(run)))
  {
    hide Ordered, Current, EndsMatch, Conserved;
    var i := Find(s.slots, run);
    PopOrders(s.slots, s.clock, run);
    PopCurrent(s.slots, s.history, run);
    if i < |s.slots| {
      ActiveSplit(s.slots, i);
      LeaveConserves(s.slots, Pop(s.slots, run), s.history, Ended(run, s.slots[i].span), Entry(run, s.slots[i].span));
    }
  }

  lemma {:induction false} RunKeeps(cap: nat, s: System, actions: seq<Action>)
    requires cap > 0 && Invariant(cap, s)
    ensures Invariant(cap, Run(cap, s, actions))
    decreases |actions|
  {
    hide Ordered, Conserved, Current, EndsMatch, Put, Pop;
    if actions != [] {
      match actions[0] {
        case Register(run, span) =>
          RoomKeeps(cap, s);
          PutKeeps(MakeRoom(s.slots, cap), Log(s.history, Lost(s.slots, cap)), s.clock, run, span);
        case End(run) => EndKeeps(cap, s, run);
      }
      RunKeeps(cap, Step(cap, s, actions[0]), actions[1..]);
    }
  }

  lemma InitialInvariant(cap: nat)
    ensures Invariant(cap, INITIAL)
  {
  }

  lemma {:induction false} Sizes(t: seq<Slot>)
    ensures |Active(t)| == |t|
  {
    if t != [] { Sizes(t[1..]); }
  }

  /** Over every run: at most `cap` runs in flight; every registration is ended,
      active, evicted or overwritten, and only one of these; every span_end carries
      the span last registered for its run. */
  lemma EveryRun(cap: nat, actions: seq<Action>)
    requires cap > 0
    ensures var end := Run(cap, INITIAL, actions);
            var h := end.history;
            && |end.slots| <= cap
            && Registrations(h) == EndsIn(h) + Active(end.slots) + Evictions(h) + Overwrites(h)
            && |Registrations(h)| == |EndsIn(h)| + |end.slots| + |Evictions(h)| + |Overwrites(h)|
            && EndsMatch(h)
  {
    InitialInvariant(cap);
    hide Run, Ordered, Current, EndsMatch, Active, Registrations, EndsIn, Evictions, Overwrites;
    RunKeeps(cap, INITIAL, actions);
    Sizes(Run(cap, INITIAL, actions).slots);
    GoneHow(Run(cap, INITIAL, actions).history);
  }

  /** With fresh spans no registration is ended twice, nor ended after it was
      evicted or overwritten. */
  lemma EndedAtMostOnce(cap: nat, actions: seq<Action>, e: Entry)
    requires cap > 0
    requires Registrations(Run(cap, INITIAL, actions).history)[e] <= 1
    ensures var h := Run(cap, INITIAL, actions).history; EndsIn(h)[e] + Evictions(h)[e] + Overwrites(h)[e] <= 1
  {
    EveryRun(cap, actions);
  }

  /** At the cap a run that registers again evicts the oldest run, though the table
      would not have grown; if it is the oldest it evicts itself and moves last. */
  lemma RewriteEvicts(t: seq<Slot>, cap: nat, clock: nat, run: string, span: nat)
    requires |t| == cap > 0 && Ordered(t, clock) && Find(t, run) < |t|
    ensures var u := Put(MakeRoom(t, cap), run, span, clock);
            if t[0].run == run then |u| == cap && u[cap - 1] == Slot(run, span, clock)
            else |u| == cap - 1 && forall j :: 0 <= j < |u| ==> u[j].run != t[0].run
  {
    var room := MakeRoom(t, cap);
    assert forall j :: 0 <= j < |room| ==> room[j] == t[j + 1];
    var i := Find(t, run);
    if t[0].run == run {
      assert Find(room, run) == |room|;
    } else {
      assert room[i - 1].run == run;
    }
  }
}
