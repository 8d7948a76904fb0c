/**
 What the lifecycle records say about the calls of a run: an accepted call is recorded for good, everything
 recorded comes from a call, and the recorded times are in order.
 */
module LifecycleRecords {
  import opened Sequences
  import opened Lifecycle
  import Text

  lemma {:induction false} RunMore(s: State, events: seq<Event>, e: Event)
    ensures Run(s, events + [e]) == Do(Run(s, events), e.op, e.at).state
    decreases |events|
  {
    var all := events + [e];
    if events == [] {
      assert all == [e] && all[1..] == [];
      assert Run(Do(s, e.op, e.at).state, []) == Do(s, e.op, e.at).state;
    } else {
      assert all[0] == events[0] && all[1..] == events[1..] + [e];
      RunMore(Do(s, events[0].op, events[0].at).state, events[1..], e);
    }
  }

  // ----- An accepted call is recorded for good -----

  /** The call's own data, in the record it is about. */
  ghost predicate Recorded(s: State, e: Event) {
    match e.op
    case RecordNative => true
    case RequestStarted => s.requestStart == Some(e.at)
    case FrontendStarted => s.frontendStart == Some(e.at)
    case RoundStarted(id, _) => id in s.rounds && s.rounds[id].start == e.at
    case FirstToken(id) => id in s.rounds && s.rounds[id].firstToken == Some(e.at)
    case RoundEnded(id, status, _) =>
      id in s.rounds && s.rounds[id].end == Some(e.at) && s.rounds[id].status == status
    case AttemptStarted(id, round, _) =>
      id in s.attempts && s.attempts[id].round == round && s.attempts[id].start == e.at
    case AttemptEnded(id, status, _) =>
      id in s.attempts && s.attempts[id].end == Some(e.at) && s.attempts[id].status == status
    case ToolQueued(id, _, _, _) => id in s.tools && s.tools[id].enqueued == Some(e.at)
    case ToolStarted(id, _, _, _) =>
      && id in s.tools && s.tools[id].start == Some(e.at)
      && s.tools[id].wait == if s.tools[id].enqueued.Some? then Some(e.at - s.tools[id].enqueued.value) else None
    case ToolEnded(id, status, _, _, _, _) =>
      id in s.tools && s.tools[id].end == Some(e.at) && s.tools[id].status == status
    case FrontendTerminal(ending, _) => s.terminal == Some(Terminal(ending, e.at))
    case Close => s.closed
  }

  lemma AcceptedIsRecorded(s: State, e: Event)
    requires Do(s, e.op, e.at).ok
    ensures Recorded(Do(s, e.op, e.at).state, e)
  {
  }

  /** Calls about rounds and attempts leave tools alone, and the other way round. */
  predicate IsToolCall(op: Op) {
    op.ToolQueued? || op.ToolStarted? || op.ToolEnded?
  }

  predicate IsRoundCall(op: Op) {
    op.RoundStarted? || op.FirstToken? || op.RoundEnded?
  }

  predicate IsAttemptCall(op: Op) {
    op.AttemptStarted? || op.AttemptEnded?
  }

  lemma OtherCallsKeepTools(s: State, op: Op, now: real)
    requires !IsToolCall(op)
    ensures Do(s, op, now).state.tools == s.tools
  {
  }

  lemma OtherCallsKeepRounds(s: State, op: Op, now: real)
    requires !IsRoundCall(op)
    ensures Do(s, op, now).state.rounds == s.rounds
  {
  }

  lemma OtherCallsKeepAttempts(s: State, op: Op, now: real)
    requires !IsAttemptCall(op)
    ensures Do(s, op, now).state.attempts == s.attempts
  {
  }

  lemma MarksStay(s: State, op: Op, now: real)
    ensures var t := Do(s, op, now).state;
            && (s.closed ==> t.closed) && (s.terminal.Some? ==> t.terminal == s.terminal)
            && (s.requestStart.Some? ==> t.requestStart == s.requestStart)
            && (s.frontendStart.Some? ==> t.frontendStart == s.frontendStart)
  {
  }

  lemma RoundRecordStays(s: State, e: Event, op: Op, now: real)
    requires Recorded(s, e) && IsRoundCall(e.op) && IsRoundCall(op)
    ensures Recorded(Do(s, op, now).state, e)
  {
  }

  lemma AttemptRecordStays(s: State, e: Event, op: Op, now: real)
    requires Recorded(s, e) && IsAttemptCall(e.op) && IsAttemptCall(op)
    ensures Recorded(Do(s, op, now).state, e)
  {
  }

  lemma ToolRecordStays(s: State, e: Event, op: Op, now: real)
    requires Recorded(s, e) && IsToolCall(e.op) && IsToolCall(op)
    ensures Recorded(Do(s, op, now).state, e)
  {
  }

  lemma RecordStays(s: State, e: Event, op: Op, now: real)
    requires Recorded(s, e)
    ensures Recorded(Do(s, op, now).state, e)
  {
    if IsRoundCall(e.op) {
      if IsRoundCall(op) { RoundRecordStays(s, e, op, now); } else { OtherCallsKeepRounds(s, op, now); }
    } else if IsAttemptCall(e.op) {
      if IsAttemptCall(op) { AttemptRecordStays(s, e, op, now); } else { OtherCallsKeepAttempts(s, op, now); }
    } else if IsToolCall(e.op) {
      if IsToolCall(op) { ToolRecordStays(s, e, op, now); } else { OtherCallsKeepTools(s, op, now); }
    } else {
      MarksStay(s, op, now);
    }
  }

  lemma {:induction false} RecordStaysOver(s: State, e: Event, events: seq<Event>)
    requires Recorded(s, e)
    ensures Recorded(Run(s, events), e)
    decreases |events|
  {
    if events != [] {
      RecordStays(s, e, events[0].op, events[0].at);
      RecordStaysOver(Do(s, events[0].op, events[0].at).state, e, events[1..]);
    }
  }

  /** Whatever comes after: a call that returned normally has left its data in its record, for good. */
  lemma AcceptedCallsAreRecorded(s: State, e: Event, later: seq<Event>)
    requires Do(s, e.op, e.at).ok
    ensures Recorded(Run(s, [e] + later), e)
  {
    AcceptedIsRecorded(s, e);
    assert ([e] + later)[1..] == later;
    RecordStaysOver(Do(s, e.op, e.at).state, e, later);
  }

  // ----- Everything recorded comes from a call -----

  ghost predicate RoundEndedWith(events: seq<Event>, id: Id, r: Round) {
    exists status, json ::
      && r.end.Some? && Event(RoundEnded(id, status, json), r.end.value) in events
      && r.status == if Text.IsBlank(status) then "running" else status
  }

  ghost predicate RoundHasOrigin(events: seq<Event>, id: Id, r: Round) {
    && !Text.IsBlank(id) && Event(RoundStarted(id, true), r.start) in events
    && (r.firstToken.Some? ==> Event(FirstToken(id), r.firstToken.value) in events)
    && (if r.end.Some? then RoundEndedWith(events, id, r) else r.status == "running")
  }

  ghost predicate AttemptEndedWith(events: seq<Event>, id: Id, a: Attempt) {
    exists status, json ::
      && a.end.Some? && Event(AttemptEnded(id, status, json), a.end.value) in events
      && a.status == if Text.IsBlank(status) then "running" else status
  }

  ghost predicate AttemptHasOrigin(events: seq<Event>, id: Id, a: Attempt) {
    && !Text.IsBlank(id) && Event(AttemptStarted(id, a.round, true), a.start) in events
    && (if a.end.Some? then AttemptEndedWith(events, id, a) else a.status == "running")
  }

  ghost predicate QueuedAt(events: seq<Event>, id: Id, at: real) {
    exists name, parent :: Event(ToolQueued(id, name, parent, true), at) in events
  }

  ghost predicate StartedAt(events: seq<Event>, id: Id, at: real) {
    exists name, parent, json :: Event(ToolStarted(id, name, parent, json), at) in events
  }

  ghost predicate EndedAt(events: seq<Event>, id: Id, at: real, atOnce: bool) {
    exists status, name, parent, json :: Event(ToolEnded(id, status, name, parent, json, atOnce), at) in events
  }

  predicate NamesParent(op: Op, id: Id, round: Id) {
    IsToolCall(op) && op.id == id && op.parent == Some(round)
  }

  ghost predicate ParentNamed(events: seq<Event>, id: Id, round: Id) {
    exists e :: e in events && NamesParent(e.op, id, round)
  }

  /** The start is a start call's, or else an end's: the time of queueing, or without one the end. */
  ghost predicate ToolHasStart(events: seq<Event>, id: Id, tool: Tool)
    requires tool.start.Some?
  {
    || (StartedAt(events, id, tool.start.value)
        && tool.wait == if tool.enqueued.Some? then Some(tool.start.value - tool.enqueued.value) else None)
    || (&& tool.end.Some? && EndedAt(events, id, tool.end.value, true)
        && tool.start == (if tool.enqueued.Some? then tool.enqueued else tool.end) && tool.wait == Some(0.0))
  }

  ghost predicate ToolHasOrigin(events: seq<Event>, id: Id, tool: Tool) {
    && !Text.IsBlank(id)
    && (tool.enqueued.Some? ==> QueuedAt(events, id, tool.enqueued.value))
    && (tool.start.Some? ==> ToolHasStart(events, id, tool))
    && (tool.start.None? ==> tool.wait.None?)
    && (tool.end.Some? ==> exists atOnce :: EndedAt(events, id, tool.end.value, atOnce))
    && (tool.parent.Some? ==> ParentNamed(events, id, tool.parent.value))
  }

  ghost predicate AllHaveOrigin(events: seq<Event>, s: State) {
    && (forall id <- s.rounds :: RoundHasOrigin(events, id, s.rounds[id]))
    && (forall id <- s.attempts :: AttemptHasOrigin(events, id, s.attempts[id]))
    && (forall id <- s.tools :: ToolHasOrigin(events, id, s.tools[id]))
  }

  lemma RoundOriginInMore(events: seq<Event>, e: Event, id: Id, r: Round)
    requires RoundHasOrigin(events, id, r)
    ensures RoundHasOrigin(events + [e], id, r)
  {
    if r.end.Some? {
      var status, json :| Event(RoundEnded(id, status, json), r.end.value) in events
          && r.status == if Text.IsBlank(status) then "running" else status;
      assert Event(RoundEnded(id, status, json), r.end.value) in events + [e];
    }
  }

  lemma AttemptOriginInMore(events: seq<Event>, e: Event, id: Id, a: Attempt)
    requires AttemptHasOrigin(events, id, a)
    ensures AttemptHasOrigin(events + [e], id, a)
  {
    if a.end.Some? {
      var status, json :| Event(AttemptEnded(id, status, json), a.end.value) in events
          && a.status == if Text.IsBlank(status) then "running" else status;
      assert Event(AttemptEnded(id, status, json), a.end.value) in events + [e];
    }
  }

  lemma ToolCallsInMore(events: seq<Event>, e: Event, id: Id, at: real, atOnce: bool, round: Id)
    ensures QueuedAt(events, id, at) ==> QueuedAt(events + [e], id, at)
    ensures StartedAt(events, id, at) ==> StartedAt(events + [e], id, at)
    ensures EndedAt(events, id, at, atOnce) ==> EndedAt(events + [e], id, at, atOnce)
    ensures ParentNamed(events, id, round) ==> ParentNamed(events + [e], id, round)
  {
    if QueuedAt(events, id, at) {
      var name, parent :| Event(ToolQueued(id, name, parent, true), at) in events;
      assert Event(ToolQueued(id, name, parent, true), at) in events + [e];
    }
    if StartedAt(events, id, at) {
      var name, parent, json :| Event(ToolStarted(id, name, parent, json), at) in events;
      assert Event(ToolStarted(id, name, parent, json), at) in events + [e];
    }
    if EndedAt(events, id, at, atOnce) {
      var status, name, parent, json :| Event(ToolEnded(id, status, name, parent, json, atOnce), at) in events;
      assert Event(ToolEnded(id, status, name, parent, json, atOnce), at) in events + [e];
    }
    if ParentNamed(events, id, round) {
      var x :| x in events && NamesParent(x.op, id, round);
      assert x in events + [e];
    }
  }

  lemma ToolOriginInMore(events: seq<Event>, e: Event, id: Id, tool: Tool)
    requires ToolHasOrigin(events, id, tool)
    ensures ToolHasOrigin(events + [e], id, tool)
  {
    var round := if tool.parent.Some? then tool.parent.value else "";
    if tool.enqueued.Some? { ToolCallsInMore(events, e, id, tool.enqueued.value, true, round); }
    if tool.start.Some? { ToolCallsInMore(events, e, id, tool.start.value, true, round); }
    if tool.end.Some? {
      ToolCallsInMore(events, e, id, tool.end.value, true, round);
      ToolCallsInMore(events, e, id, tool.end.value, false, round);
      var atOnce :| EndedAt(events, id, tool.end.value, atOnce);
      assert EndedAt(events + [e], id, tool.end.value, atOnce);
    }
    ToolCallsInMore(events, e, id, 0.0, true, round);
  }

  lemma RoundCallKeepsOrigin(events: seq<Event>, s: State, e: Event, id: Id)
    requires AllHaveOrigin(events, s) && IsRoundCall(e.op) && id in Do(s, e.op, e.at).state.rounds
    ensures RoundHasOrigin(events + [e], id, Do(s, e.op, e.at).state.rounds[id])
  {
    var t, all := Do(s, e.op, e.at).state, events + [e];
    assert e in all;
    if id in s.rounds {
      RoundOriginInMore(events, e, id, s.rounds[id]);
      if e.op.RoundEnded? && t.rounds[id] != s.rounds[id] {
        assert e == Event(RoundEnded(id, e.op.status, e.op.json), e.at);
      }
    }
  }

  lemma AttemptCallKeepsOrigin(events: seq<Event>, s: State, e: Event, id: Id)
    requires AllHaveOrigin(events, s) && IsAttemptCall(e.op) && id in Do(s, e.op, e.at).state.attempts
    ensures AttemptHasOrigin(events + [e], id, Do(s, e.op, e.at).state.attempts[id])
  {
    var t, all := Do(s, e.op, e.at).state, events + [e];
    assert e in all;
    if id in s.attempts {
      AttemptOriginInMore(events, e, id, s.attempts[id]);
      if e.op.AttemptEnded? && t.attempts[id] != s.attempts[id] {
        assert e == Event(AttemptEnded(id, e.op.status, e.op.json), e.at);
      }
    }
  }

  lemma ThisCallIsThere(events: seq<Event>, e: Event)
    requires IsToolCall(e.op)
    ensures e.op.ToolQueued? && e.op.json ==> QueuedAt(events + [e], e.op.id, e.at)
    ensures e.op.ToolStarted? ==> StartedAt(events + [e], e.op.id, e.at)
    ensures e.op.ToolEnded? ==> EndedAt(events + [e], e.op.id, e.at, e.op.enqueueIsStart)
    ensures e.op.parent.Some? ==> ParentNamed(events + [e], e.op.id, e.op.parent.value)
  {
    var all := events + [e];
    assert e in all;
    match e.op
    case ToolQueued(id, name, parent, json) => assert e == Event(ToolQueued(id, name, parent, json), e.at);
    case ToolStarted(id, name, parent, json) => assert e == Event(ToolStarted(id, name, parent, json), e.at);
    case ToolEnded(id, status, name, parent, json, atOnce) =>
      assert e == Event(ToolEnded(id, status, name, parent, json, atOnce), e.at);
    if e.op.parent.Some? {
      assert NamesParent(e.op, e.op.id, e.op.parent.value);
    }
  }

  /** The tool record that a call on it writes, if it writes. */
  lemma ToolCallKeepsOrigin(events: seq<Event>, s: State, e: Event, id: Id)
    requires AllHaveOrigin(events, s) && IsToolCall(e.op) && id in Do(s, e.op, e.at).state.tools
    ensures ToolHasOrigin(events + [e], id, Do(s, e.op, e.at).state.tools[id])
  {
    if id in s.tools {
      ToolOriginInMore(events, e, id, s.tools[id]);
    }
    if id == e.op.id {
      ThisCallIsThere(events, e);
      match e.op
      case ToolQueued(_, _, _, _) =>
      case ToolStarted(_, _, _, _) => StartKeepsOrigin(events, s, e);
      case ToolEnded(_, _, _, _, _, _) => EndKeepsOrigin(events + [e], s, e);
    }
  }

  ghost predicate OldOrigin(events: seq<Event>, s: State, id: Id) {
    id in s.tools ==> ToolHasOrigin(events, id, s.tools[id])
  }

  lemma StartKeepsOrigin(events: seq<Event>, s: State, e: Event)
    requires e.op.ToolStarted? && OldOrigin(events + [e], s, e.op.id)
    requires StartedAt(events + [e], e.op.id, e.at)
    requires e.op.parent.Some? ==> ParentNamed(events + [e], e.op.id, e.op.parent.value)
    ensures OldOrigin(events + [e], Do(s, e.op, e.at).state, e.op.id)
  {
  }

  /** What an end call writes over the record it finds. */
  ghost predicate EndsAs(was: Tool, tool: Tool, op: Op, now: real)
    requires op.ToolEnded?
  {
    && was.end.None? && tool.end == Some(now) && tool.enqueued == was.enqueued
    && (if op.enqueueIsStart && was.start.None? then
          tool.start == (if was.enqueued.Some? then was.enqueued else Some(now)) && tool.wait == Some(0.0)
        else tool.start == was.start && tool.wait == was.wait)
    && (tool.parent == was.parent || tool.parent == op.parent)
  }

  lemma EndWrites(s: State, op: Op, now: real)
    requires op.ToolEnded?
    ensures var t := Do(s, op, now).state;
            && (op.id in s.tools ==>
                  t.tools[op.id] == s.tools[op.id] || EndsAs(s.tools[op.id], t.tools[op.id], op, now))
            && (op.id !in s.tools && op.id in t.tools ==>
                  !Text.IsBlank(op.id) && EndsAs(NewTool.(parent := op.parent), t.tools[op.id], op, now))
  {
  }

  lemma EndedHasOrigin(events: seq<Event>, e: Event, was: Tool, tool: Tool)
    requires e.op.ToolEnded? && ToolHasOrigin(events, e.op.id, was) && EndsAs(was, tool, e.op, e.at)
    requires EndedAt(events, e.op.id, e.at, e.op.enqueueIsStart)
    requires e.op.parent.Some? ==> ParentNamed(events, e.op.id, e.op.parent.value)
    ensures ToolHasOrigin(events, e.op.id, tool)
  {
  }

  lemma NewHasOrigin(events: seq<Event>, id: Id, parent: Option<Id>)
    requires !Text.IsBlank(id) && (parent.Some? ==> ParentNamed(events, id, parent.value))
    ensures ToolHasOrigin(events, id, NewTool.(parent := parent))
  {
  }

  lemma EndKeepsOrigin(events: seq<Event>, s: State, e: Event)
    requires e.op.ToolEnded? && OldOrigin(events, s, e.op.id)
    requires EndedAt(events, e.op.id, e.at, e.op.enqueueIsStart)
    requires e.op.parent.Some? ==> ParentNamed(events, e.op.id, e.op.parent.value)
    ensures OldOrigin(events, Do(s, e.op, e.at).state, e.op.id)
  {
    var t, id := Do(s, e.op, e.at).state, e.op.id;
    EndWrites(s, e.op, e.at);
    if id in s.tools {
      if t.tools[id] != s.tools[id] {
        EndedHasOrigin(events, e, s.tools[id], t.tools[id]);
      }
    } else if id in t.tools {
      NewHasOrigin(events, id, e.op.parent);
      EndedHasOrigin(events, e, NewTool.(parent := e.op.parent), t.tools[id]);
    }
  }

  lemma CallKeepsOrigin(events: seq<Event>, s: State, e: Event)
    requires AllHaveOrigin(events, s)
    ensures AllHaveOrigin(events + [e], Do(s, e.op, e.at).state)
  {
    var t := Do(s, e.op, e.at).state;
    forall id | id in t.rounds
      ensures RoundHasOrigin(events + [e], id, t.rounds[id])
    {
      if IsRoundCall(e.op) {
        RoundCallKeepsOrigin(events, s, e, id);
      } else {
        OtherCallsKeepRounds(s, e.op, e.at);
        RoundOriginInMore(events, e, id, s.rounds[id]);
      }
    }
    forall id | id in t.attempts
      ensures AttemptHasOrigin(events + [e], id, t.attempts[id])
    {
      if IsAttemptCall(e.op) {
        AttemptCallKeepsOrigin(events, s, e, id);
      } else {
        OtherCallsKeepAttempts(s, e.op, e.at);
        AttemptOriginInMore(events, e, id, s.attempts[id]);
      }
    }
    forall id | id in t.tools
      ensures ToolHasOrigin(events + [e], id, t.tools[id])
    {
      if IsToolCall(e.op) {
        ToolCallKeepsOrigin(events, s, e, id);
      } else {
        OtherCallsKeepTools(s, e.op, e.at);
        ToolOriginInMore(events, e, id, s.tools[id]);
      }
    }
  }

  /** Over every run: every record, time, status and parent comes from a call of the run that named it. */
  lemma {:induction false} RecordsComeFromCalls(events: seq<Event>)
    ensures AllHaveOrigin(events, Run(Empty, events))
  {
    if events != [] {
      var init, last := events[..|events| - 1], events[|events| - 1];
      assert events == init + [last];
      RecordsComeFromCalls(init);
      RunMore(Empty, init, last);
      CallKeepsOrigin(init, Run(Empty, init), last);
    }
  }

  // ----- Recorded times are in order -----

  predicate NotAfter(x: Option<real>, y: Option<real>) {
    x.Some? && y.Some? ==> x.value <= y.value
  }

  predicate RoundIsOrdered(r: Round, now: real) {
    && r.start <= now
    && NotAfter(Some(r.start), r.firstToken) && NotAfter(Some(r.start), r.end) && NotAfter(r.firstToken, r.end)
    && NotAfter(r.firstToken, Some(now)) && NotAfter(r.end, Some(now))
  }

  predicate AttemptIsOrdered(a: Attempt, now: real) {
    a.start <= now && NotAfter(Some(a.start), a.end) && NotAfter(a.end, Some(now))
  }

  predicate ToolIsOrdered(tool: Tool, now: real) {
    && NotAfter(tool.enqueued, tool.start) && NotAfter(tool.enqueued, tool.end) && NotAfter(tool.start, tool.end)
    && NotAfter(tool.enqueued, Some(now)) && NotAfter(tool.start, Some(now)) && NotAfter(tool.end, Some(now))
    && (tool.wait.Some? ==> tool.wait.value >= 0.0)
  }

  /** No public time is after the terminal event. */
  ghost predicate IsOrdered(s: State, now: real) {
    && (forall id <- s.rounds :: RoundIsOrdered(s.rounds[id], PublicNow(s, now)))
    && (forall id <- s.tools :: ToolIsOrdered(s.tools[id], PublicNow(s, now)))
    && (forall id <- s.attempts ::
          && AttemptIsOrdered(s.attempts[id], now)
          && s.attempts[id].round in s.rounds && s.rounds[s.attempts[id].round].start <= s.attempts[id].start)
    && (s.terminal.Some? ==> s.terminal.value.at <= now)
  }

  function PublicNow(s: State, now: real): real {
    if s.terminal.Some? then s.terminal.value.at else now
  }

  ghost predicate ClockRuns(events: seq<Event>) {
    forall i, j :: 0 <= i <= j < |events| ==> events[i].at <= events[j].at
  }

  lemma LaterIsOrdered(s: State, now: real, later: real)
    requires IsOrdered(s, now) && now <= later
    ensures IsOrdered(s, later)
  {
  }

  /** A call on a round writes its record only, and keeps its start. */
  ghost predicate TouchesOnlyRound(s: State, t: State, id: Id) {
    && t == s.(rounds := t.rounds, roundOrder := t.roundOrder) && s.rounds.Keys <= t.rounds.Keys
    && (forall x <- t.rounds :: x != id ==> x in s.rounds && t.rounds[x] == s.rounds[x])
    && (id in s.rounds ==> t.rounds[id].start == s.rounds[id].start)
  }

  lemma RoundCallOrdersItsRound(s: State, op: Op, now: real)
    requires IsRoundCall(op) && s.terminal.None? && (op.id in s.rounds ==> RoundIsOrdered(s.rounds[op.id], now))
    ensures var t := Do(s, op, now).state;
            TouchesOnlyRound(s, t, op.id) && (op.id in t.rounds ==> RoundIsOrdered(t.rounds[op.id], now))
  {
  }

  lemma TouchingRoundKeepsOrder(s: State, t: State, id: Id, now: real)
    requires IsOrdered(s, now) && TouchesOnlyRound(s, t, id) && s.terminal.None?
    requires id in t.rounds ==> RoundIsOrdered(t.rounds[id], now)
    ensures IsOrdered(t, now)
  {
  }

  lemma RoundCallKeepsOrder(s: State, op: Op, now: real)
    requires IsOrdered(s, now) && IsRoundCall(op)
    ensures IsOrdered(Do(s, op, now).state, now)
  {
    if s.terminal.None? {
      RoundCallOrdersItsRound(s, op, now);
      TouchingRoundKeepsOrder(s, Do(s, op, now).state, op.id, now);
    }
  }

  ghost predicate TouchesOnlyAttempt(s: State, t: State, id: Id) {
    && t == s.(attempts := t.attempts, attemptOrder := t.attemptOrder)
    && (forall x <- t.attempts :: x != id ==> x in s.attempts && t.attempts[x] == s.attempts[x])
  }

  ghost predicate AttemptFits(s: State, a: Attempt, now: real) {
    AttemptIsOrdered(a, now) && a.round in s.rounds && s.rounds[a.round].start <= a.start
  }

  lemma AttemptCallOrdersItsAttempt(s: State, op: Op, now: real)
    requires IsAttemptCall(op) && (op.id in s.attempts ==> AttemptFits(s, s.attempts[op.id], now))
    requires s.terminal.None? ==> forall id <- s.rounds :: s.rounds[id].start <= now
    ensures var t := Do(s, op, now).state;
            TouchesOnlyAttempt(s, t, op.id) && (op.id in t.attempts ==> AttemptFits(s, t.attempts[op.id], now))
  {
  }

  lemma AttemptCallKeepsOrder(s: State, op: Op, now: real)
    requires IsOrdered(s, now) && IsAttemptCall(op)
    ensures IsOrdered(Do(s, op, now).state, now)
  {
    AttemptCallOrdersItsAttempt(s, op, now);
  }

  lemma EndOrdersItsTool(s: State, op: Op, now: real)
    requires op.ToolEnded? && (op.id in s.tools ==> ToolIsOrdered(s.tools[op.id], now))
    ensures var t := Do(s, op, now).state;
            op.id in t.tools ==> ToolIsOrdered(t.tools[op.id], now)
  {
    EndWrites(s, op, now);
  }

  lemma ToolCallOrdersItsTool(s: State, op: Op, now: real)
    requires IsToolCall(op) && (op.id in s.tools ==> ToolIsOrdered(s.tools[op.id], now))
    ensures var t := Do(s, op, now).state;
            op.id in t.tools ==> ToolIsOrdered(t.tools[op.id], now)
  {
    if op.ToolEnded? {
      EndOrdersItsTool(s, op, now);
    }
  }

  lemma ToolCallTouchesItsTool(s: State, op: Op, now: real)
    requires IsToolCall(op)
    ensures TouchesOnlyTool(s, Do(s, op, now).state, op.id)
    ensures s.terminal.Some? ==> Do(s, op, now).state == s
  {
  }

  lemma ToolCallKeepsOrder(s: State, op: Op, now: real)
    requires IsOrdered(s, now) && IsToolCall(op)
    ensures IsOrdered(Do(s, op, now).state, now)
  {
    ToolCallTouchesItsTool(s, op, now);
    if s.terminal.None? {
      ToolCallOrdersItsTool(s, op, now);
      TouchingKeepsOrder(s, Do(s, op, now).state, op.id, now);
    }
  }

  lemma TouchingKeepsOrder(s: State, t: State, id: Id, now: real)
    requires IsOrdered(s, now) && TouchesOnlyTool(s, t, id) && s.terminal.None?
    requires id in t.tools ==> ToolIsOrdered(t.tools[id], now)
    ensures IsOrdered(t, now)
  {
  }

  lemma CallKeepsOrder(s: State, op: Op, now: real)
    requires IsOrdered(s, now)
    ensures IsOrdered(Do(s, op, now).state, now)
  {
    if IsRoundCall(op) {
      RoundCallKeepsOrder(s, op, now);
    } else if IsAttemptCall(op) {
      AttemptCallKeepsOrder(s, op, now);
    } else if IsToolCall(op) {
      ToolCallKeepsOrder(s, op, now);
    }
  }

  /**
   With a clock that never runs back: a round's first token and end follow its start, an attempt starts after its
   round, a tool is queued, started and ended in that order, and only attempts end after the terminal event.
   */
  lemma {:induction false} TimesAreInOrder(events: seq<Event>)
    requires ClockRuns(events) && events != []
    ensures IsOrdered(Run(Empty, events), events[|events| - 1].at)
  {
    var init, last := events[..|events| - 1], events[|events| - 1];
    assert events == init + [last];
    RunMore(Empty, init, last);
    if init != [] {
      TimesAreInOrder(init);
      LaterIsOrdered(Run(Empty, init), init[|init| - 1].at, last.at);
    }
    CallKeepsOrder(Run(Empty, init), last.op, last.at);
  }
}
