/** The dead-letter queue's replay command: which rows are sent again, which the
    backend left unconfirmed, and which lines leave the file. */
module DlqReplays {
  import opened Options

  /** `id` is the event id as text; a missing one reads "None" when turned into
      text. */
  datatype Event = Event(id: Option<string>, body: string)

  function IdText(e: Event): string {
    if e.id.Some? then e.id.value else "None"
  }

  datatype Row = Row(reason: string, event: Option<Event>)
  datatype Content = Blank | Unparseable | Parsed(row: Row)
  datatype Line = Line(text: string, newline: bool, content: Content)

  const TERMINAL := {"EXECUTION_NOT_BOUND:422", "EXECUTION_NOT_BOUND:503"}

  /** `read_dlq`: blank lines skipped, unparseable ones set aside. */
  function RowsOf(lines: seq<Line>): (rows: seq<Row>)
    ensures forall r :: r in rows ==> exists l :: l in lines && l.content == Parsed(r)
  {
    if lines == [] then []
    else
      var rest := RowsOf(lines[1..]);
      assert forall r :: r in rest ==> exists l :: l in lines[1..] && l in lines && l.content == Parsed(r);
      if lines[0].content.Parsed? then
        assert lines[0] in lines;
        [lines[0].content.row] + rest
      else rest
  }

  // ----------------------------------------------------------------- selection

  function WithReason(rows: seq<Row>, reason: Option<string>): (out: seq<Row>)
    ensures forall r :: r in out <==> r in rows && (reason.Some? ==> r.reason == reason.value)
  {
    if rows == [] then []
    else (if reason.None? || rows[0].reason == reason.value then [rows[0]] else []) + WithReason(rows[1..], reason)
  }

  function ByTerminal(rows: seq<Row>, terminal: bool): (out: seq<Row>)
    ensures forall r :: r in out <==> r in rows && (r.reason in TERMINAL <==> terminal)
  {
    if rows == [] then []
    else (if (rows[0].reason in TERMINAL) == terminal then [rows[0]] else []) + ByTerminal(rows[1..], terminal)
  }

  /** `rows[:limit] if limit else rows`, with a negative limit counted from the end. */
  function Limited(rows: seq<Row>, limit: Option<int>): seq<Row> {
    if limit.None? || limit.value == 0 then rows
    else if limit.value > 0 then rows[..if limit.value < |rows| then limit.value else |rows|]
    else rows[..if |rows| + limit.value > 0 then |rows| + limit.value else 0]
  }

  datatype Selection = Selection(selected: seq<Row>, withheld: seq<Row>)

  function SelectRows(rows: seq<Row>, reason: Option<string>, limit: Option<int>, includeTerminal: bool): (s: Selection)
    ensures forall r :: r in s.selected + s.withheld ==> r in rows && (reason.Some? ==> r.reason == reason.value)
    ensures !includeTerminal ==> forall r :: r in s.selected ==> r.reason !in TERMINAL
    ensures includeTerminal ==> s.withheld == []
  {
    var matched := WithReason(rows, reason);
    if includeTerminal then Selection(Limited(matched, limit), [])
    else Selection(Limited(ByTerminal(matched, false), limit), ByTerminal(matched, true))
  }

  lemma {:induction false} TerminalsPart(rows: seq<Row>)
    ensures multiset(ByTerminal(rows, false)) + multiset(ByTerminal(rows, true)) == multiset(rows)
  {
    if rows != [] {
      TerminalsPart(rows[1..]);
      assert rows == [rows[0]] + rows[1..];
    }
  }

  /** Without a limit no matching row is passed over in silence. */
  lemma NothingSkipped(rows: seq<Row>, reason: Option<string>, includeTerminal: bool)
    ensures var s := SelectRows(rows, reason, None, includeTerminal);
            multiset(s.selected) + multiset(s.withheld) == multiset(WithReason(rows, reason))
  {
    TerminalsPart(WithReason(rows, reason));
  }

  /** A limit of n selects at most n rows exactly when n is positive, or n is 0 and
      there was nothing to select: 0 means all, and a negative n all but the last. */
  lemma LimitHonoured(rows: seq<Row>, n: int)
    ensures |Limited(rows, Some(n))| <= n <==> n > 0 || (n == 0 && rows == [])
    ensures n == 0 ==> Limited(rows, Some(n)) == rows
    ensures n < 0 ==> |Limited(rows, Some(n))| == if |rows| + n > 0 then |rows| + n else 0
  {
  }

  /** The rows a limit keeps are the first ones. */
  lemma LimitTakesFirst(rows: seq<Row>, more: seq<Row>, n: nat)
    requires |rows| == n > 0
    ensures Limited(rows + more, Some(n)) == rows
    ensures more != [] ==> Limited(rows + more, Some(-|more|)) == rows
    ensures Limited(rows + more, Some(n + |more| + 1)) == rows + more && Limited(rows, None) == rows
    ensures Limited(rows, Some(0 - n as int - 1)) == []
  {
  }

  // -------------------------------------------------------------- confirmation

  /** Where an event that the backend did not accept can be after the flush. */
  datatype Places = Places(buffer: seq<Event>, overflow: seq<Row>, parked: seq<Row>, holdover: seq<Row>)

  function IdsOf(events: seq<Event>): (ids: set<string>)
    ensures forall e :: e in events ==> IdText(e) in ids
  {
    if events == [] then {} else IdsOf(events[1..]) + {IdText(events[0])}
  }

  function EventsOf(rows: seq<Row>): (events: seq<Event>)
    ensures forall e :: e in events <==> exists r :: r in rows && r.event == Some(e)
  {
    if rows == [] then []
    else
      assert forall r :: r in rows <==> r == rows[0] || r in rows[1..];
      (if rows[0].event.Some? then [rows[0].event.value] else []) + EventsOf(rows[1..])
  }

  function Unconfirmed(places: Places): set<string> {
    IdsOf(places.buffer) + IdsOf(EventsOf(places.overflow)) + IdsOf(EventsOf(places.parked))
    + IdsOf(EventsOf(places.holdover))
  }

  predicate Drops(line: Line, confirmed: set<string>) {
    && line.content.Parsed?
    && line.content.row.event.Some?
    && line.content.row.event.value.id.Some?
    && line.content.row.event.value.id.value in confirmed
  }

  function Kept(lines: seq<Line>, confirmed: set<string>): seq<Line> {
    if lines == [] then []
    else (if Drops(lines[0], confirmed) then [] else [lines[0].(newline := true)]) + Kept(lines[1..], confirmed)
  }

  function Dropped(lines: seq<Line>, confirmed: set<string>): (n: nat)
    ensures n + |Kept(lines, confirmed)| == |lines|
  {
    if lines == [] then 0
    else (if Drops(lines[0], confirmed) then 1 else 0) + Dropped(lines[1..], confirmed)
  }

  /** The file after the rewrite; it is not touched when no line goes. */
  function Rewritten(lines: seq<Line>, confirmed: set<string>): seq<Line> {
    if Dropped(lines, confirmed) == 0 then lines else Kept(lines, confirmed)
  }

  /** Positions of the lines that stay. */
  function Survivors(lines: seq<Line>, confirmed: set<string>, from: nat): (at: seq<nat>)
    decreases |lines|
  {
    if lines == [] then []
    else (if Drops(lines[0], confirmed) then [] else [from]) + Survivors(lines[1..], confirmed, from + 1)
  }

  ghost predicate InOrder(at: seq<nat>, from: nat, to: nat) {
    && (forall k :: 0 <= k < |at| ==> from <= at[k] < to)
    && (forall j, k :: 0 <= j < k < |at| ==> at[j] < at[k])
  }

  lemma {:induction false} SurvivorsInOrder(lines: seq<Line>, confirmed: set<string>, from: nat)
    ensures InOrder(Survivors(lines, confirmed, from), from, from + |lines|)
    decreases |lines|
  {
    if lines != [] { SurvivorsInOrder(lines[1..], confirmed, from + 1); }
  }

  lemma {:induction false} SurvivorsExactly(lines: seq<Line>, confirmed: set<string>, from: nat, i: nat)
    requires i < |lines|
    ensures from + i in Survivors(lines, confirmed, from) <==> !Drops(lines[i], confirmed)
    decreases |lines|
  {
    SurvivorsInOrder(lines[1..], confirmed, from + 1);
    if i > 0 { SurvivorsExactly(lines[1..], confirmed, from + 1, i - 1); }
  }

  lemma {:induction false} SurvivorsKept(lines: seq<Line>, confirmed: set<string>, from: nat)
    ensures var at, kept := Survivors(lines, confirmed, from), Kept(lines, confirmed);
            |at| == |kept| && forall k :: 0 <= k < |at| ==>
                                from <= at[k] < from + |lines| && kept[k] == lines[at[k] - from].(newline := true)
    decreases |lines|
  {
    if lines != [] {
      SurvivorsKept(lines[1..], confirmed, from + 1);
      var at, tail := Survivors(lines, confirmed, from), Survivors(lines[1..], confirmed, from + 1);
      var kept, rest := Kept(lines, confirmed), Kept(lines[1..], confirmed);
      var d := if Drops(lines[0], confirmed) then 0 else 1;
      forall k | 0 <= k < |at|
        ensures from <= at[k] < from + |lines| && kept[k] == lines[at[k] - from].(newline := true)
      {
        if k >= d { assert at[k] == tail[k - d] && kept[k] == rest[k - d]; }
      }
    }
  }

  /** What stays, stays in order and unchanged up to a final newline; a line stays
      unless it carries a confirmed event id, so an unparseable one always does. */
  lemma KeptInOrder(lines: seq<Line>, confirmed: set<string>)
    ensures var at, kept := Survivors(lines, confirmed, 0), Kept(lines, confirmed);
            && |at| == |kept| && InOrder(at, 0, |lines|)
            && (forall k :: 0 <= k < |at| ==> 0 <= at[k] < |lines| && kept[k] == lines[at[k]].(newline := true))
            && (forall i: nat :: i < |lines| ==>
                  (i !in at <==> && lines[i].content.Parsed? && lines[i].content.row.event.Some?
                                 && lines[i].content.row.event.value.id.Some?
                                 && lines[i].content.row.event.value.id.value in confirmed))
  {
    hide Survivors, Kept;
    SurvivorsInOrder(lines, confirmed, 0);
    SurvivorsKept(lines, confirmed, 0);
    forall i: nat | i < |lines|
      ensures i in Survivors(lines, confirmed, 0) <==> !Drops(lines[i], confirmed)
    {
      SurvivorsExactly(lines, confirmed, 0, i);
    }
  }

  /** A second pass over the file with the same ids removes nothing. */
  lemma {:induction false} DropAgain(lines: seq<Line>, confirmed: set<string>)
    ensures Dropped(Kept(lines, confirmed), confirmed) == 0
    ensures Rewritten(Kept(lines, confirmed), confirmed) == Kept(lines, confirmed)
  {
    if lines != [] {
      DropAgain(lines[1..], confirmed);
      var head := lines[0].(newline := true);
      if !Drops(lines[0], confirmed) {
        assert Kept(lines, confirmed) == [head] + Kept(lines[1..], confirmed);
        assert Kept(lines, confirmed)[1..] == Kept(lines[1..], confirmed);
      } else {
        assert Kept(lines, confirmed) == Kept(lines[1..], confirmed);
      }
    }
  }

  // --------------------------------------------------------------- the command

  /** The command line, and whether an API key was found. */
  datatype Arguments = Arguments(
    reason: Option<string>,
    limit: Option<int>,
    includeTerminal: bool,
    execute: bool,
    dryRun: bool,
    hasKey: bool
  )

  datatype Outcome =
    | NothingToReplay(code: int)
    | NoPayload                // exit code 1
    | DryRun                   // exit code 0
    | NoKey                    // exit code 1
    | Crashed                  // an exception after the events were sent
    | NothingConfirmed         // exit code 1
    | Replayed(removed: nat)   // exit code 0

  datatype Report = Report(outcome: Outcome, sent: seq<Event>, lines: seq<Line>)

  /** Ids of the selected rows that the backend left nowhere. */
  function Confirmed(selected: seq<Row>, places: Places): set<string> {
    IdsOf(EventsOf(selected)) - Unconfirmed(places)
  }

  predicate Lacking(selected: seq<Row>) {
    exists r :: r in selected && r.event.None?
  }

  function Replay(lines: seq<Line>, o: Arguments, places: Places): Report {
    var s := SelectRows(RowsOf(lines), o.reason, o.limit, o.includeTerminal);
    var events := EventsOf(s.selected);
    if s.selected == [] then Report(NothingToReplay(if s.withheld != [] then 1 else 0), [], lines)
    else if events == [] then Report(NoPayload, [], lines)
    else if o.dryRun || !o.execute then Report(DryRun, [], lines)
    else if !o.hasKey then Report(NoKey, [], lines)
    else if Lacking(s.selected) then Report(Crashed, events, lines)
    else if Confirmed(s.selected, places) == {} then Report(NothingConfirmed, events, lines)
    else
      var confirmed := Confirmed(s.selected, places);
      Report(Replayed(Dropped(lines, confirmed)), events, Rewritten(lines, confirmed))
  }

  lemma {:induction false} IdsOfMore(events: seq<Event>, e: Event)
    ensures IdsOf(events + [e]) == IdsOf(events) + {IdText(e)}
  {
    if events == [] {
      assert [e][1..] == [];
    } else {
      assert (events + [e])[1..] == events[1..] + [e];
      IdsOfMore(events[1..], e);
    }
  }

  lemma {:induction false} EventsOfMore(rows: seq<Row>, r: Row)
    ensures EventsOf(rows + [r]) == EventsOf(rows) + if r.event.Some? then [r.event.value] else []
  {
    if rows == [] {
      assert [r][1..] == [];
    } else {
      assert (rows + [r])[1..] == rows[1..] + [r];
      EventsOfMore(rows[1..], r);
    }
  }

  lemma {:induction false} KeptMore(lines: seq<Line>, line: Line, confirmed: set<string>)
    ensures Kept(lines + [line], confirmed)
            == Kept(lines, confirmed) + if Drops(line, confirmed) then [] else [line.(newline := true)]
    ensures Dropped(lines + [line], confirmed) == Dropped(lines, confirmed) + if Drops(line, confirmed) then 1 else 0
  {
    if lines == [] {
      assert [line][1..] == [] && [] + [line] == [line];
    } else {
      assert (lines + [line])[1..] == lines[1..] + [line];
      KeptMore(lines[1..], line, confirmed);
    }
  }

  // What each selection does with one more line or row: it takes all it should, in
  // the order of the file.

  lemma {:induction false} RowsOfMore(lines: seq<Line>, line: Line)
    ensures RowsOf([]) == []
    ensures RowsOf(lines + [line]) == RowsOf(lines) + if line.content.Parsed? then [line.content.row] else []
  {
    if lines == [] {
      assert [line][1..] == [] && [] + [line] == [line];
    } else {
      assert (lines + [line])[1..] == lines[1..] + [line];
      RowsOfMore(lines[1..], line);
    }
  }

  lemma Regroup(a: seq<Row>, b: seq<Row>, c: seq<Row>)
    ensures a + (b + c) == (a + b) + c && a + [] == a && [] + a == a
  {
  }

  lemma WithReasonHead(rows: seq<Row>, reason: string)
    requires rows != []
    ensures WithReason(rows, Some(reason))
            == (if rows[0].reason == reason then [rows[0]] else []) + WithReason(rows[1..], Some(reason))
  {
  }

  lemma {:induction false} WithReasonMore(rows: seq<Row>, r: Row, reason: string)
    ensures WithReason([], Some(reason)) == []
    ensures WithReason(rows + [r], Some(reason))
            == WithReason(rows, Some(reason)) + if r.reason == reason then [r] else []
  {
    var added := if r.reason == reason then [r] else [];
    assert [r][1..] == [] && [] + [r] == [r] && WithReason([], Some(reason)) == [];
    WithReasonHead(rows + [r], reason);
    if rows != [] {
      WithReasonHead(rows, reason);
      WithReasonMore(rows[1..], r, reason);
      hide WithReason;
      assert (rows + [r])[1..] == rows[1..] + [r];
      Regroup(if rows[0].reason == reason then [rows[0]] else [], WithReason(rows[1..], Some(reason)), added);
    } else {
      hide WithReason;
      Regroup(added, [], []);
    }
  }

  lemma {:induction false} AnyReason(rows: seq<Row>)
    ensures WithReason(rows, None) == rows
  {
    if rows != [] { AnyReason(rows[1..]); }
  }

  /** The two refusals that no replay can cure. */
  predicate IsTerminal(r: Row) {
    r.reason == "EXECUTION_NOT_BOUND:422" || r.reason == "EXECUTION_NOT_BOUND:503"
  }

  lemma ByTerminalHead(rows: seq<Row>, terminal: bool)
    requires rows != []
    ensures ByTerminal(rows, terminal)
            == (if IsTerminal(rows[0]) == terminal then [rows[0]] else []) + ByTerminal(rows[1..], terminal)
  {
  }

  lemma {:induction false} ByTerminalMore(rows: seq<Row>, r: Row, terminal: bool)
    ensures ByTerminal([], terminal) == []
    ensures ByTerminal(rows + [r], terminal)
            == ByTerminal(rows, terminal) + if IsTerminal(r) == terminal then [r] else []
  {
    hide IsTerminal;
    var added := if IsTerminal(r) == terminal then [r] else [];
    assert [r][1..] == [] && [] + [r] == [r] && ByTerminal([], terminal) == [];
    ByTerminalHead(rows + [r], terminal);
    if rows != [] {
      ByTerminalHead(rows, terminal);
      ByTerminalMore(rows[1..], r, terminal);
      hide ByTerminal;
      assert (rows + [r])[1..] == rows[1..] + [r];
      Regroup(if IsTerminal(rows[0]) == terminal then [rows[0]] else [], ByTerminal(rows[1..], terminal), added);
    } else {
      hide ByTerminal;
      Regroup(added, [], []);
    }
  }

  lemma {:induction false} IdsAreTexts(events: seq<Event>, id: string)
    ensures id in IdsOf(events) <==> exists e :: e in events && IdText(e) == id
    ensures forall e: Event :: e.id.None? ==> IdText(e) == "None"
    ensures forall e: Event :: e.id.Some? ==> IdText(e) == e.id.value
  {
    if events != [] {
      IdsAreTexts(events[1..], id);
      assert forall e :: e in events <==> e == events[0] || e in events[1..];
    }
  }

  /** An id is unconfirmed exactly if an event with it is in the buffer, or a row
      with such an event in the overflow, among the parked or in the holdover. */
  lemma UnconfirmedExactly(places: Places, id: string)
    ensures id in Unconfirmed(places) <==>
            || (exists e :: e in places.buffer && IdText(e) == id)
            || (exists r :: r in places.overflow && r.event.Some? && IdText(r.event.value) == id)
            || (exists r :: r in places.parked && r.event.Some? && IdText(r.event.value) == id)
            || (exists r :: r in places.holdover && r.event.Some? && IdText(r.event.value) == id)
  {
    IdsAreTexts(places.buffer, id);
    RowIds(places.overflow, id);
    RowIds(places.parked, id);
    RowIds(places.holdover, id);
    hide IdsOf, EventsOf, IdText;
  }

  lemma RowIds(rows: seq<Row>, id: string)
    ensures id in IdsOf(EventsOf(rows)) <==> exists r :: r in rows && r.event.Some? && IdText(r.event.value) == id
  {
    IdsAreTexts(EventsOf(rows), id);
    hide IdsOf, IdText;
  }

  method AddParked(ids: set<string>, rows: seq<Row>) returns (all: set<string>)
    ensures all == ids + IdsOf(EventsOf(rows))
  {
    all := ids;
    for i := 0 to |rows|
      invariant all == ids + IdsOf(EventsOf(rows[..i]))
    {
      assert rows[..i + 1] == rows[..i] + [rows[i]];
      EventsOfMore(rows[..i], rows[i]);
      if rows[i].event.Some? {
        IdsOfMore(EventsOf(rows[..i]), rows[i].event.value);
        all := all + {IdText(rows[i].event.value)};
      } else {
        assert EventsOf(rows[..i]) + [] == EventsOf(rows[..i]);
      }
    }
    assert rows[..|rows|] == rows;
  }

  /** `_unconfirmed_event_ids`: the buffer, then every place a refusal is parked. */
  method UnconfirmedEventIds(places: Places) returns (ids: set<string>)
    ensures ids == Unconfirmed(places)
  {
    ids := {};
    for i := 0 to |places.buffer|
      invariant ids == IdsOf(places.buffer[..i])
    {
      assert places.buffer[..i + 1] == places.buffer[..i] + [places.buffer[i]];
      IdsOfMore(places.buffer[..i], places.buffer[i]);
      ids := ids + {IdText(places.buffer[i])};
    }
    assert places.buffer[..|places.buffer|] == places.buffer;
    ids := AddParked(ids, places.overflow);
    ids := AddParked(ids, places.parked);
    ids := AddParked(ids, places.holdover);
  }

  class DlqFile {
    var lines: seq<Line>

    constructor (lines: seq<Line>)
      ensures this.lines == lines
    {
      this.lines := lines;
    }

    /** `_drop_confirmed`: a pass over the raw lines, and a rewrite if any goes. */
    method DropConfirmed(confirmed: set<string>) returns (removed: nat)
      modifies this
      ensures lines == Rewritten(old(lines), confirmed) && removed == Dropped(old(lines), confirmed)
    {
      var kept: seq<Line> := [];
      removed := 0;
      for i := 0 to |lines|
        invariant lines == old(lines)
        invariant kept == Kept(lines[..i], confirmed) && removed == Dropped(lines[..i], confirmed)
      {
        assert lines[..i + 1] == lines[..i] + [lines[i]];
        KeptMore(lines[..i], lines[i], confirmed);
        var row := lines[i].content;
        var id := if row.Parsed? && row.row.event.Some? then row.row.event.value.id else None;
        if id.Some? && id.value in confirmed {
          removed := removed + 1;
        } else {
          kept := kept + [if lines[i].newline then lines[i] else lines[i].(newline := true)];
        }
      }
      assert lines[..|lines|] == lines;
      if removed > 0 { lines := kept; }
    }

    /** `_cmd_replay`, with `places` where the flush left what was not accepted. */
    method CmdReplay(o: Arguments, places: Places) returns (outcome: Outcome, sent: seq<Event>)
      modifies this
      ensures Report(outcome, sent, lines) == Replay(old(lines), o, places)
    {
      hide SelectRows, RowsOf, Unconfirmed, IdsOf, EventsOf, Kept, Dropped;
      var s := SelectRows(RowsOf(lines), o.reason, o.limit, o.includeTerminal);
      if s.selected == [] { return NothingToReplay(if s.withheld != [] then 1 else 0), []; }
      var events := EventsOf(s.selected);
      if events == [] { return NoPayload, []; }
      if o.dryRun || !o.execute { return DryRun, []; }
      if !o.hasKey { return NoKey, []; }
      sent := events;
      var unconfirmed := UnconfirmedEventIds(places);
      if exists r :: r in s.selected && r.event.None? { return Crashed, sent; }
      var confirmed := IdsOf(events) - unconfirmed;
      if confirmed == {} { return NothingConfirmed, sent; }
      var removed := DropConfirmed(confirmed);
      return Replayed(removed), sent;
    }
  }

  /** What the transport promises about a flush: every event sent was accepted, or
      is in one of the places it is looked for. */
  ghost predicate Accounted(sent: seq<Event>, accepted: set<Event>, places: Places) {
    forall e :: e in sent ==> e in accepted || IdText(e) in Unconfirmed(places)
  }

  lemma {:induction false} IdFromEvent(events: seq<Event>, id: string)
    requires id in IdsOf(events)
    ensures exists e :: e in events && IdText(e) == id
  {
    if id == IdText(events[0]) {
      assert events[0] in events;
    } else {
      IdFromEvent(events[1..], id);
      assert forall e :: e in events[1..] ==> e in events;
    }
  }

  lemma ReplaySends(lines: seq<Line>, o: Arguments, places: Places)
    requires Replay(lines, o, places).outcome.Replayed?
    ensures Replay(lines, o, places).sent
            == EventsOf(SelectRows(RowsOf(lines), o.reason, o.limit, o.includeTerminal).selected)
  {
    hide SelectRows, RowsOf, EventsOf, Confirmed, Lacking, Dropped, Rewritten;
  }

  /** Nothing unconfirmed is lost: a line leaves the file only if an event with its
      id was sent in this run and accepted, and none with that id is unconfirmed. */
  lemma NothingUnconfirmedLost(lines: seq<Line>, o: Arguments, places: Places, accepted: set<Event>, line: Line)
    requires Accounted(Replay(lines, o, places).sent, accepted, places)
    requires Replay(lines, o, places).outcome.Replayed?
    requires Drops(line, Confirmed(SelectRows(RowsOf(lines), o.reason, o.limit, o.includeTerminal).selected, places))
    ensures exists e :: e in Replay(lines, o, places).sent && e in accepted
                        && Some(IdText(e)) == line.content.row.event.value.id && IdText(e) !in Unconfirmed(places)
  {
    hide Unconfirmed, Replay, SelectRows, RowsOf, EventsOf, IdsOf;
    ReplaySends(lines, o, places);
    IdFromEvent(Replay(lines, o, places).sent, line.content.row.event.value.id.value);
  }

  /** Nothing is sent without `--execute`, in a dry run or without a key; otherwise
      the events of the selected rows are, all of them in order. */
  lemma SentExactly(lines: seq<Line>, o: Arguments, places: Places)
    ensures var r := Replay(lines, o, places);
            r.sent == if o.execute && !o.dryRun && o.hasKey
                      then EventsOf(SelectRows(RowsOf(lines), o.reason, o.limit, o.includeTerminal).selected)
                      else []
    ensures !o.execute || o.dryRun || !o.hasKey ==> Replay(lines, o, places).lines == lines
  {
    hide SelectRows, RowsOf, Confirmed, Lacking, Rewritten, Dropped;
    assert EventsOf([]) == [];
  }

  /** What the run reports, in the order in which it is found out. */
  lemma OutcomeExactly(lines: seq<Line>, o: Arguments, places: Places)
    ensures var r, s := Replay(lines, o, places), SelectRows(RowsOf(lines), o.reason, o.limit, o.includeTerminal);
            && (r.outcome.NothingToReplay? <==> s.selected == [])
            && (r.outcome.NothingToReplay? ==> (r.outcome.code == 1 <==> s.withheld != []))
            && (r.outcome.NothingToReplay? ==> (r.outcome.code == 0 <==> s.withheld == []))
            && (r.outcome.NoPayload? <==> s.selected != [] && forall row :: row in s.selected ==> row.event.None?)
            && (r.outcome.DryRun? ==> o.dryRun || !o.execute)
            && (r.outcome.NoKey? ==> o.execute && !o.dryRun && !o.hasKey)
            && (r.sent == [] <==> || r.outcome.NothingToReplay? || r.outcome.NoPayload?
                                  || r.outcome.DryRun? || r.outcome.NoKey?)
  {
    hide SelectRows, RowsOf, Unconfirmed, Dropped, Rewritten;
    var selected := SelectRows(RowsOf(lines), o.reason, o.limit, o.includeTerminal).selected;
    assert forall row :: row in selected && row.event.Some? ==> row.event.value in EventsOf(selected);
    if EventsOf(selected) != [] {
      assert EventsOf(selected)[0] in EventsOf(selected);
    }
  }

  /** With no id confirmed, every event that was sent is unconfirmed somewhere. */
  lemma NothingConfirmedMeans(lines: seq<Line>, o: Arguments, places: Places, e: Event)
    requires Replay(lines, o, places).outcome.NothingConfirmed? && e in Replay(lines, o, places).sent
    ensures IdText(e) in Unconfirmed(places)
  {
    hide SelectRows, RowsOf, Unconfirmed, Lacking;
    var selected := SelectRows(RowsOf(lines), o.reason, o.limit, o.includeTerminal).selected;
    assert IdText(e) !in Confirmed(selected, places);
  }

  /** A file from which nothing goes is not touched, not even its last newline. */
  lemma UntouchedIfNothingGoes(lines: seq<Line>, confirmed: set<string>)
    requires forall l :: l in lines ==> !Drops(l, confirmed)
    ensures Rewritten(lines, confirmed) == lines
  {
    NothingDropped(lines, confirmed);
  }

  lemma {:induction false} NothingDropped(lines: seq<Line>, confirmed: set<string>)
    requires forall l :: l in lines ==> !Drops(l, confirmed)
    ensures Dropped(lines, confirmed) == 0
  {
    if lines != [] { NothingDropped(lines[1..], confirmed); }
  }

  /** A run that comes to the rewrite leaves the lines without the ids that were sent
      and are nowhere unconfirmed, and there is one such id at least. */
  lemma RewrittenExactly(lines: seq<Line>, o: Arguments, places: Places, id: string)
    requires Replay(lines, o, places).outcome.Replayed?
    ensures var selected := SelectRows(RowsOf(lines), o.reason, o.limit, o.includeTerminal).selected;
            var ids := Confirmed(selected, places);
            && (id in ids <==> (exists e :: e in Replay(lines, o, places).sent && IdText(e) == id)
                               && id !in Unconfirmed(places))
            && ids != {} && Replay(lines, o, places).lines == Rewritten(lines, ids)
  {
    hide SelectRows, RowsOf, Lacking, Rewritten, Dropped, Unconfirmed, EventsOf, IdsOf;
    ReplaySends(lines, o, places);
    IdsAreTexts(Replay(lines, o, places).sent, id);
  }

  /** The file changes only in a run that got to the rewrite, and then by exactly
      the lines reported removed. */
  lemma FileAccounted(lines: seq<Line>, o: Arguments, places: Places)
    ensures var r := Replay(lines, o, places);
            if r.outcome.Replayed? then r.outcome.removed + |r.lines| == |lines| else r.lines == lines
  {
    hide SelectRows, Confirmed, RowsOf;
  }

  /** A run that sends anything crashes, after sending and with the file as it was,
      exactly when a selected row carries no event. */
  lemma CrashesExactly(lines: seq<Line>, o: Arguments, places: Places)
    ensures var r := Replay(lines, o, places);
            r.sent != [] ==>
              && (r.outcome.Crashed?
                  <==> exists row :: row in SelectRows(RowsOf(lines), o.reason, o.limit, o.includeTerminal).selected
                                     && row.event.None?)
              && (r.outcome.Crashed? ==> r.lines == lines)
  {
  }
}
