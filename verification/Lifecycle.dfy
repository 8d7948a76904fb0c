/**
 The lifecycle collector of one request: logical model rounds, physical backend
 attempts, tool calls and the frontend's terminal event.
 */
module Lifecycle {
  import opened Sequences
  import opened Text

  type Id = string

  datatype Round = Round(start: real, firstToken: Option<real>, end: Option<real>, status: string)
  datatype Attempt = Attempt(round: Id, start: real, end: Option<real>, status: string)
  datatype Tool = Tool(parent: Option<Id>, enqueued: Option<real>, start: Option<real>, end: Option<real>,
                       wait: Option<real>, status: string)

  datatype Ending = COMPLETED | ERROR | NEEDS_CONFIRMATION | CANCELLED | TIMEOUT | MAX_ITERATIONS | INTERRUPTED
  datatype Terminal = Terminal(status: Ending, at: real)

  /** The order lists are the insertion orders of the three dictionaries. */
  datatype State = State(
    closed: bool, requestStart: Option<real>, frontendStart: Option<real>, terminal: Option<Terminal>,
    rounds: map<Id, Round>, roundOrder: seq<Id>,
    attempts: map<Id, Attempt>, attemptOrder: seq<Id>,
    tools: map<Id, Tool>, toolOrder: seq<Id>,
    activeTools: set<Id>)

  const Empty := State(false, None, None, None, map[], [], map[], [], map[], [], {})

  /** A call on the collector; `json` says whether the caller's metadata can be encoded. */
  datatype Op =
    | RecordNative
    | RequestStarted
    | FrontendStarted
    | RoundStarted(id: Id, json: bool)
    | FirstToken(id: Id)
    | RoundEnded(id: Id, status: string, json: bool)
    | AttemptStarted(id: Id, round: Id, json: bool)
    | AttemptEnded(id: Id, status: string, json: bool)
    | ToolQueued(id: Id, name: string, parent: Option<Id>, json: bool)
    | ToolStarted(id: Id, toolName: Option<string>, parent: Option<Id>, json: bool)
    | ToolEnded(id: Id, status: string, toolName: Option<string>, parent: Option<Id>, json: bool, enqueueIsStart: bool)
    | FrontendTerminal(ending: Ending, json: bool)
    | Close

  /** The state a call leaves behind, and whether it returned normally. */
  datatype Result = Result(state: State, ok: bool)

  function Running(s: State): bool {
    !s.closed && s.terminal.None?
  }

  predicate AllToolsEnded(s: State) {
    forall id :: id in s.tools ==> s.tools[id].end.Some?
  }

  const NewTool := Tool(None, None, None, None, None, "observed")

  function WithTool(s: State, id: Id, tool: Tool): State {
    s.(tools := s.tools[id := tool], toolOrder := if id in s.tools then s.toolOrder else s.toolOrder + [id])
  }

  function Duration(from: Option<real>, to: real): Option<real> {
    if from.Some? then Some(to - from.value) else None
  }

  function Or(x: Option<Id>, y: Option<Id>): Option<Id> {
    if x.Some? then x else y
  }

  // ----- Calls; a failure in the middle leaves what was already written -----

  function StartRound(s: State, id: Id, json: bool, now: real): Result {
    if !Running(s) || IsBlank(id) || id in s.rounds || !json then Result(s, false)
    else
      var begun := Round(now, None, None, "running");
      Result(s.(rounds := s.rounds[id := begun], roundOrder := s.roundOrder + [id]), true)
  }

  function MarkFirstToken(s: State, id: Id, now: real): Result {
    if !Running(s) || id !in s.rounds || s.rounds[id].end.Some? || s.rounds[id].firstToken.Some? then Result(s, false)
    else Result(s.(rounds := s.rounds[id := s.rounds[id].(firstToken := Some(now))]), true)
  }

  function EndRound(s: State, id: Id, status: string, json: bool, now: real): Result {
    if !Running(s) || id !in s.rounds || s.rounds[id].end.Some? then Result(s, false)
    else
      var ended := s.rounds[id].(end := Some(now));
      if IsBlank(status) then Result(s.(rounds := s.rounds[id := ended]), false)
      else Result(s.(rounds := s.rounds[id := ended.(status := status)]), json)
  }

  function StartAttempt(s: State, id: Id, round: Id, json: bool, now: real): Result {
    if !Running(s) || IsBlank(id) || id in s.attempts || round !in s.rounds || !json then Result(s, false)
    else
      var begun := Attempt(round, now, None, "running");
      Result(s.(attempts := s.attempts[id := begun], attemptOrder := s.attemptOrder + [id]), true)
  }

  /** The one transition that stays open after the terminal event, and even after closing. */
  function EndAttempt(s: State, id: Id, status: string, json: bool, now: real): Result {
    if id !in s.attempts || s.attempts[id].end.Some? then Result(s, false)
    else
      var ended := s.attempts[id].(end := Some(now));
      if IsBlank(status) then Result(s.(attempts := s.attempts[id := ended]), false)
      else Result(s.(attempts := s.attempts[id := ended.(status := status)]), json)
  }

  function QueueTool(s: State, id: Id, name: string, parent: Option<Id>, json: bool, now: real): Result {
    if !Running(s) || IsBlank(id) || id in s.tools || IsBlank(name) || !json then Result(s, false)
    else Result(WithTool(s, id, NewTool.(parent := parent, enqueued := Some(now), status := "queued")), true)
  }

  /** A start or an end may have to create the record, for which it needs a name. */
  predicate MayCreate(toolName: Option<string>, json: bool) {
    toolName.Some? && !IsBlank(toolName.value) && json
  }

  function StartTool(s: State, id: Id, toolName: Option<string>, parent: Option<Id>, json: bool, now: real): Result {
    if !Running(s) || IsBlank(id) || (id !in s.tools && !MayCreate(toolName, json)) then Result(s, false)
    else
      var was := if id in s.tools then s.tools[id] else NewTool.(parent := parent);
      if was.start.Some? || was.end.Some? then Result(s, false)
      else
        var tool := was.(start := Some(now), wait := Duration(was.enqueued, now), status := "running",
            parent := Or(parent, was.parent));
        var s' := WithTool(s, id, tool);
        if !json then Result(s', false)
        else Result(s'.(activeTools := s.activeTools + {id}), true)
  }

  function EndTool(s: State, id: Id, status: string, toolName: Option<string>, parent: Option<Id>, json: bool,
                   enqueueIsStart: bool, now: real): Result
  {
    if !Running(s) || IsBlank(id) || (id !in s.tools && !MayCreate(toolName, json)) then Result(s, false)
    else
      var was := if id in s.tools then s.tools[id] else NewTool.(parent := parent);
      if was.end.Some? then Result(s, false)
      else
        var begun :=
          if enqueueIsStart && was.start.None? then
            was.(start := if was.enqueued.Some? then was.enqueued else Some(now), wait := Some(0.0))
          else was;
        var ended := begun.(end := Some(now));
        if IsBlank(status) then Result(WithTool(s, id, ended), false)
        else
          var s' := WithTool(s, id, ended.(status := status, parent := Or(parent, ended.parent)));
          if !json then Result(s', false)
          else Result(s'.(activeTools := s.activeTools - {id}), true)
  }

  function Finish(s: State, ending: Ending, json: bool, now: real): Result {
    if !Running(s) || !json || (ending.COMPLETED? && !AllToolsEnded(s)) then Result(s, false)
    else Result(s.(terminal := Some(Terminal(ending, now))), true)
  }

  function Do(s: State, op: Op, now: real): Result {
    match op
    case RecordNative => Result(s, !s.closed)
    case RequestStarted =>
      if !Running(s) || s.requestStart.Some? then Result(s, false)
      else Result(s.(requestStart := Some(now)), true)
    case FrontendStarted =>
      if !Running(s) || s.frontendStart.Some? then Result(s, false)
      else Result(s.(frontendStart := Some(now)), true)
    case RoundStarted(id, json) => StartRound(s, id, json, now)
    case FirstToken(id) => MarkFirstToken(s, id, now)
    case RoundEnded(id, status, json) => EndRound(s, id, status, json, now)
    case AttemptStarted(id, round, json) => StartAttempt(s, id, round, json, now)
    case AttemptEnded(id, status, json) => EndAttempt(s, id, status, json, now)
    case ToolQueued(id, name, parent, json) => QueueTool(s, id, name, parent, json, now)
    case ToolStarted(id, toolName, parent, json) => StartTool(s, id, toolName, parent, json, now)
    case ToolEnded(id, status, toolName, parent, json, enqueueIsStart) =>
      EndTool(s, id, status, toolName, parent, json, enqueueIsStart, now)
    case FrontendTerminal(ending, json) => Finish(s, ending, json, now)
    case Close => Result(s.(closed := true), true)
  }

  // ----- What a tool call does, for callers -----

  /** A tool call touches the record of one tool and the active set, nothing else. */
  ghost predicate TouchesOnlyTool(s: State, t: State, id: Id) {
    && t == s.(tools := t.tools, toolOrder := t.toolOrder, activeTools := t.activeTools)
    && (forall x :: x in s.tools ==> x in t.tools)
    && (forall x :: x in t.tools && x != id ==> x in s.tools && t.tools[x] == s.tools[x])
  }

  lemma QueueToolWorks(s: State, id: Id, name: string, parent: Option<Id>, now: real)
    requires Running(s) && !IsBlank(id) && !IsBlank(name)
    ensures var r := QueueTool(s, id, name, parent, true, now);
            && TouchesOnlyTool(s, r.state, id)
            && (id !in s.tools ==>
                  r.ok && id in r.state.tools && r.state.tools[id].start.None? && r.state.tools[id].end.None?)
  {
  }

  lemma StartToolWorks(s: State, id: Id, toolName: Option<string>, parent: Option<Id>, now: real)
    ensures var r := StartTool(s, id, toolName, parent, true, now);
            && TouchesOnlyTool(s, r.state, id)
            && (Running(s) && !IsBlank(id)
                && (if id in s.tools then s.tools[id].start.None? && s.tools[id].end.None?
                    else MayCreate(toolName, true)) ==>
                  r.ok && id in r.state.tools && r.state.tools[id].start.Some? && r.state.tools[id].end.None?)
  {
  }

  lemma EndToolWorks(s: State, id: Id, status: string, toolName: Option<string>, parent: Option<Id>,
      enqueueIsStart: bool, now: real)
    ensures var r := EndTool(s, id, status, toolName, parent, true, enqueueIsStart, now);
            && TouchesOnlyTool(s, r.state, id)
            && (Running(s) && !IsBlank(id) && !IsBlank(status)
                && (if id in s.tools then s.tools[id].end.None? else MayCreate(toolName, true)) ==>
                  r.ok && id in r.state.tools && r.state.tools[id].end.Some?)
  {
  }

  // ----- Active tools -----

  /** The active set is exactly the tools started and not ended. */
  ghost predicate ActiveIsExact(s: State) {
    forall id :: id in s.activeTools <==> id in s.tools && s.tools[id].start.Some? && s.tools[id].end.None?
  }

  /** The end of an active tool, or the start of a queued one, that fails after it has begun to write. */
  predicate FailsMidway(s: State, op: Op) {
    match op
    case ToolStarted(id, _, _, json) =>
      Running(s) && !IsBlank(id) && !json && id in s.tools && s.tools[id].start.None? && s.tools[id].end.None?
    case ToolEnded(id, status, _, _, json, _) =>
      Running(s) && !IsBlank(id) && (!json || IsBlank(status)) && id in s.activeTools
    case _ => false
  }

  lemma ToolEndKeepsActive(s: State, op: Op, now: real)
    requires ActiveIsExact(s) && op.ToolEnded?
    ensures ActiveIsExact(Do(s, op, now).state) <==> !FailsMidway(s, op)
  {
    var t := Do(s, op, now).state;
    if FailsMidway(s, op) {
      assert op.id in t.activeTools && t.tools[op.id].end.Some?;
    }
  }

  /** The active set stays exact precisely when the call does not fail midway. */
  lemma ActiveStaysExactUnlessMidway(s: State, op: Op, now: real)
    requires ActiveIsExact(s)
    ensures ActiveIsExact(Do(s, op, now).state) <==> !FailsMidway(s, op)
  {
    if op.ToolEnded? {
      ToolEndKeepsActive(s, op, now);
    } else if op.ToolStarted? && FailsMidway(s, op) {
      var t := Do(s, op, now).state;
      assert op.id !in t.activeTools && t.tools[op.id].start.Some?;
    }
  }

  /** Calls with encodable metadata and a non-blank status never fail midway. */
  predicate WellFormed(op: Op) {
    match op
    case ToolStarted(_, _, _, json) => json
    case ToolEnded(_, status, _, _, json, _) => json && !IsBlank(status)
    case _ => true
  }

  datatype Event = Event(op: Op, at: real)

  function Run(s: State, events: seq<Event>): State
    decreases |events|
  {
    if events == [] then s else Run(Do(s, events[0].op, events[0].at).state, events[1..])
  }

  lemma {:induction false} ActiveIsAlwaysExact(s: State, events: seq<Event>)
    requires ActiveIsExact(s)
    requires forall e :: e in events ==> WellFormed(e.op)
    ensures ActiveIsExact(Run(s, events))
    decreases |events|
  {
    if events != [] {
      assert events[0] in events;
      ActiveStaysExactUnlessMidway(s, events[0].op, events[0].at);
      ActiveIsAlwaysExact(Do(s, events[0].op, events[0].at).state, events[1..]);
    }
  }

  lemma TwoCalls(op: Op, next: Op, at: real)
    ensures Run(Empty, [Event(op, at), Event(next, at)]) == Do(Do(Empty, op, at).state, next, at).state
  {
    var events := [Event(op, at), Event(next, at)];
    var s := Do(Empty, op, at).state;
    assert events[1..] == [Event(next, at)] && events[1..][1..] == [];
    assert Run(s, [Event(next, at)]) == Run(Do(s, next, at).state, []);
  }

  /** Runs that end inexact: an active tool ended with a blank status; a queued one started with bad metadata. */
  lemma MidwayFailureExample(name: string, at: real)
    requires !IsBlank(name)
    ensures var events := [Event(ToolStarted("x", Some(name), None, true), at),
                           Event(ToolEnded("x", "", None, None, true, false), at)];
            !ActiveIsExact(Run(Empty, events))
    ensures var events := [Event(ToolQueued("x", name, None, true), at),
                           Event(ToolStarted("x", None, None, false), at)];
            !ActiveIsExact(Run(Empty, events))
  {
    assert !IsSpace("x"[0]);
    assert ActiveIsExact(Empty);
    var start, end := ToolStarted("x", Some(name), None, true), ToolEnded("x", "", None, None, true, false);
    var queue, start' := ToolQueued("x", name, None, true), ToolStarted("x", None, None, false);
    ActiveStaysExactUnlessMidway(Empty, start, at);
    ActiveStaysExactUnlessMidway(Empty, queue, at);
    ActiveStaysExactUnlessMidway(Do(Empty, start, at).state, end, at);
    ActiveStaysExactUnlessMidway(Do(Empty, queue, at).state, start', at);
    TwoCalls(start, end, at);
    TwoCalls(queue, start', at);
  }

  // ----- The terminal event freezes the public record -----

  /** Everything the published trace shows, apart from the audit of backend attempts. */
  ghost predicate SamePublicRecord(s: State, t: State) {
    && s.terminal == t.terminal && s.requestStart == t.requestStart && s.frontendStart == t.frontendStart
    && s.rounds == t.rounds && s.roundOrder == t.roundOrder
    && s.tools == t.tools && s.toolOrder == t.toolOrder && s.activeTools == t.activeTools
    && s.attempts.Keys == t.attempts.Keys && s.attemptOrder == t.attemptOrder
    && (forall id :: id in s.attempts ==> t.attempts[id].round == s.attempts[id].round)
    && (forall id :: id in s.attempts && s.attempts[id].end.Some? ==> t.attempts[id] == s.attempts[id])
  }

  lemma {:induction false} TerminalFreezes(s: State, events: seq<Event>)
    requires s.terminal.Some?
    ensures SamePublicRecord(s, Run(s, events))
    decreases |events|
  {
    if events != [] {
      var t := Do(s, events[0].op, events[0].at).state;
      assert SamePublicRecord(s, t);
      TerminalFreezes(t, events[1..]);
    }
  }

  predicate CompletedIsClean(s: State) {
    s.terminal.Some? && s.terminal.value.status.COMPLETED? ==> AllToolsEnded(s)
  }

  lemma StepKeepsCompletedClean(s: State, op: Op, now: real)
    requires CompletedIsClean(s)
    ensures CompletedIsClean(Do(s, op, now).state)
  {
  }

  /** In every run, once the frontend has completed, every tool has ended, for good. */
  lemma {:induction false} CompletedMeansToolsEnded(s: State, events: seq<Event>)
    requires CompletedIsClean(s)
    ensures CompletedIsClean(Run(s, events))
    decreases |events|
  {
    if events != [] {
      StepKeepsCompletedClean(s, events[0].op, events[0].at);
      CompletedMeansToolsEnded(Do(s, events[0].op, events[0].at).state, events[1..]);
    }
  }

  // ----- The trace projection -----

  ghost predicate WellKept(s: State) {
    && Enumerates(s.roundOrder, s.rounds)
    && Enumerates(s.attemptOrder, s.attempts)
    && Enumerates(s.toolOrder, s.tools)
    && (forall id :: id in s.attempts ==> s.attempts[id].round in s.rounds)
  }

  ghost predicate Enumerates<T>(order: seq<Id>, records: map<Id, T>) {
    Distinct(order) && Elements(order) == records.Keys
  }

  lemma EnumeratesAdded<T>(order: seq<Id>, records: map<Id, T>, id: Id, value: T)
    requires Enumerates(order, records)
    ensures Enumerates(if id in records then order else order + [id], records[id := value])
  {
    if id !in records {
      assert id !in Elements(order);
      DistinctConcat(order, [id]);
    }
  }

  lemma RoundCallKeepsWell(s: State, op: Op, now: real)
    requires WellKept(s) && (op.RoundStarted? || op.FirstToken? || op.RoundEnded?)
    ensures WellKept(Do(s, op, now).state)
  {
    var t := Do(s, op, now).state;
    if op.id in t.rounds { EnumeratesAdded(s.roundOrder, s.rounds, op.id, t.rounds[op.id]); }
  }

  lemma AttemptCallKeepsWell(s: State, op: Op, now: real)
    requires WellKept(s) && (op.AttemptStarted? || op.AttemptEnded?)
    ensures WellKept(Do(s, op, now).state)
  {
    var t := Do(s, op, now).state;
    if op.id in t.attempts { EnumeratesAdded(s.attemptOrder, s.attempts, op.id, t.attempts[op.id]); }
  }

  lemma ToolCallKeepsWell(s: State, op: Op, now: real)
    requires WellKept(s) && (op.ToolQueued? || op.ToolStarted? || op.ToolEnded?)
    ensures WellKept(Do(s, op, now).state)
  {
    var t := Do(s, op, now).state;
    if op.id in t.tools { EnumeratesAdded(s.toolOrder, s.tools, op.id, t.tools[op.id]); }
  }

  /** The collections change only by adding or replacing one record. */
  lemma DoKeepsWell(s: State, op: Op, now: real)
    requires WellKept(s)
    ensures WellKept(Do(s, op, now).state)
  {
    if op.RoundStarted? || op.FirstToken? || op.RoundEnded? {
      RoundCallKeepsWell(s, op, now);
    } else if op.AttemptStarted? || op.AttemptEnded? {
      AttemptCallKeepsWell(s, op, now);
    } else if op.ToolQueued? || op.ToolStarted? || op.ToolEnded? {
      ToolCallKeepsWell(s, op, now);
    }
  }

  lemma {:induction false} RunKeepsWell(s: State, events: seq<Event>)
    requires WellKept(s)
    ensures WellKept(Run(s, events))
    decreases |events|
  {
    if events != [] {
      DoKeepsWell(s, events[0].op, events[0].at);
      RunKeepsWell(Do(s, events[0].op, events[0].at).state, events[1..]);
    }
  }

  datatype RoundRow = RoundRow(id: Id, attempts: seq<Id>, tools: seq<Id>)
  datatype Trace = Trace(rounds: seq<RoundRow>, orphanTools: seq<Id>)

  /** The ids of `order`, in order, whose owner satisfies the condition. */
  function Owned(order: seq<Id>, owner: map<Id, Option<Id>>, owners: set<Option<Id>>): seq<Id> {
    if order == [] then []
    else
      var rest, last := Owned(order[..|order| - 1], owner, owners), order[|order| - 1];
      if last in owner && owner[last] in owners then rest + [last] else rest
  }

  function Unowned(order: seq<Id>, owner: map<Id, Option<Id>>, known: set<Id>): seq<Id> {
    if order == [] then []
    else
      var rest, last := Unowned(order[..|order| - 1], owner, known), order[|order| - 1];
      if last in owner && owner[last].Some? && owner[last].value in known then rest else rest + [last]
  }

  function ToolOwners(s: State): map<Id, Option<Id>> {
    map id | id in s.tools :: s.tools[id].parent
  }

  function AttemptOwners(s: State): map<Id, Option<Id>> {
    map id | id in s.attempts :: Some(s.attempts[id].round)
  }

  function RoundRows(s: State, order: seq<Id>): seq<RoundRow> {
    if order == [] then []
    else
      var id := order[|order| - 1];
      RoundRows(s, order[..|order| - 1]) +
      [RoundRow(id, Owned(s.attemptOrder, AttemptOwners(s), {Some(id)}), Owned(s.toolOrder, ToolOwners(s), {Some(id)}))]
  }

  function Snapshot(s: State): Trace {
    Trace(RoundRows(s, s.roundOrder), Unowned(s.toolOrder, ToolOwners(s), s.rounds.Keys))
  }

  function AllTools(rows: seq<RoundRow>): seq<Id> {
    if rows == [] then [] else AllTools(rows[..|rows| - 1]) + rows[|rows| - 1].tools
  }

  function AllAttempts(rows: seq<RoundRow>): seq<Id> {
    if rows == [] then [] else AllAttempts(rows[..|rows| - 1]) + rows[|rows| - 1].attempts
  }

  function Owners(ids: seq<Id>): set<Option<Id>> {
    set id | id in ids :: Some(id)
  }

  /** Lists for disjoint owners add up to the list for the union. */
  lemma {:induction false} OwnedSplits(order: seq<Id>, owner: map<Id, Option<Id>>, a: set<Option<Id>>,
      b: set<Option<Id>>)
    requires a !! b
    ensures multiset(Owned(order, owner, a + b)) == multiset(Owned(order, owner, a)) + multiset(Owned(order, owner, b))
  {
    if order != [] {
      OwnedSplits(order[..|order| - 1], owner, a, b);
    }
  }

  lemma {:induction false} OwnedByNobody(order: seq<Id>, owner: map<Id, Option<Id>>)
    ensures Owned(order, owner, {}) == []
  {
    if order != [] {
      OwnedByNobody(order[..|order| - 1], owner);
    }
  }

  lemma OwnersGrow(ids: seq<Id>, id: Id)
    ensures Owners(ids + [id]) == Owners(ids) + {Some(id)}
    ensures Distinct(ids + [id]) ==> Owners(ids) !! {Some(id)}
  {
    assert (ids + [id])[|ids|] == id;
    forall k | 0 <= k < |ids|
      ensures (ids + [id])[k] == ids[k]
    {
    }
  }

  lemma {:induction false} RowsHoldTools(s: State, order: seq<Id>)
    requires Distinct(order)
    ensures multiset(AllTools(RoundRows(s, order))) == multiset(Owned(s.toolOrder, ToolOwners(s), Owners(order)))
  {
    if order == [] {
      assert Owners(order) == {};
      OwnedByNobody(s.toolOrder, ToolOwners(s));
    } else {
      var init, id := order[..|order| - 1], order[|order| - 1];
      RowsHoldTools(s, init);
      OwnersGrow(init, id);
      assert order == init + [id];
      OwnedSplits(s.toolOrder, ToolOwners(s), Owners(init), {Some(id)});
      var rows := RoundRows(s, order);
      assert rows[..|rows| - 1] == RoundRows(s, init);
    }
  }

  lemma {:induction false} RowsHoldAttempts(s: State, order: seq<Id>)
    requires Distinct(order)
    ensures multiset(AllAttempts(RoundRows(s, order)))
            == multiset(Owned(s.attemptOrder, AttemptOwners(s), Owners(order)))
  {
    if order == [] {
      assert Owners(order) == {};
      OwnedByNobody(s.attemptOrder, AttemptOwners(s));
    } else {
      var init, id := order[..|order| - 1], order[|order| - 1];
      RowsHoldAttempts(s, init);
      OwnersGrow(init, id);
      assert order == init + [id];
      OwnedSplits(s.attemptOrder, AttemptOwners(s), Owners(init), {Some(id)});
      var rows := RoundRows(s, order);
      assert rows[..|rows| - 1] == RoundRows(s, init);
    }
  }

  lemma {:induction false} OwnedAndUnowned(order: seq<Id>, owner: map<Id, Option<Id>>, ids: seq<Id>)
    ensures multiset(Owned(order, owner, Owners(ids))) + multiset(Unowned(order, owner, Elements(ids)))
            == multiset(order)
  {
    if order != [] {
      var init, last := order[..|order| - 1], order[|order| - 1];
      OwnedAndUnowned(init, owner, ids);
      assert order == init + [last];
      assert last in owner && owner[last].Some? ==>
          (owner[last] in Owners(ids) <==> owner[last].value in Elements(ids));
    }
  }

  /** Every tool is in exactly one round or the orphan list, and every attempt in exactly one round. */
  lemma SnapshotPlacesEverythingOnce(events: seq<Event>)
    ensures var s := Run(Empty, events); var t := Snapshot(s);
            && multiset(AllTools(t.rounds)) + multiset(t.orphanTools) == multiset(s.toolOrder)
            && multiset(AllAttempts(t.rounds)) == multiset(s.attemptOrder)
            && Distinct(s.toolOrder) && Distinct(s.attemptOrder)
  {
    RunKeepsWell(Empty, events);
    var s := Run(Empty, events);
    RowsHoldTools(s, s.roundOrder);
    RowsHoldAttempts(s, s.roundOrder);
    OwnedAndUnowned(s.toolOrder, ToolOwners(s), s.roundOrder);
    OwnedAndUnowned(s.attemptOrder, AttemptOwners(s), s.roundOrder);
    AllAttemptsOwned(s, s.attemptOrder);
  }

  lemma {:induction false} AllAttemptsOwned(s: State, order: seq<Id>)
    requires WellKept(s) && forall id :: id in order ==> id in s.attempts
    ensures Unowned(order, AttemptOwners(s), Elements(s.roundOrder)) == []
  {
    if order != [] {
      AllAttemptsOwned(s, order[..|order| - 1]);
      assert order[|order| - 1] in s.attempts;
    }
  }

  // ----- The collector object: records are written field by field, and an error can strike in between -----

  class LifecycleCollector {
    var state: State

    constructor ()
      ensures state == Empty
    {
      state := Empty;
    }

    method PutTool(id: Id, tool: Tool)
      modifies this
      ensures state == WithTool(old(state), id, tool)
    {
      if id !in state.tools {
        state := state.(toolOrder := state.toolOrder + [id]);
      }
      state := state.(tools := state.tools[id := tool]);
    }

    method RequestStarted(now: real) returns (ok: bool)
      modifies this
      ensures Result(state, ok) == Do(old(state), Op.RequestStarted, now)
    {
      if !Running(state) {
        return false;
      }
      if state.requestStart.Some? {
        return false;
      }
      state := state.(requestStart := Some(now));
      return true;
    }

    method FrontendStarted(now: real) returns (ok: bool)
      modifies this
      ensures Result(state, ok) == Do(old(state), Op.FrontendStarted, now)
    {
      if !Running(state) {
        return false;
      }
      if state.frontendStart.Some? {
        return false;
      }
      state := state.(frontendStart := Some(now));
      return true;
    }

    method RoundStarted(op: Op, now: real) returns (ok: bool)
      requires op.RoundStarted?
      modifies this
      ensures Result(state, ok) == Do(old(state), op, now)
    {
      if !Running(state) || IsBlank(op.id) {
        return false;
      }
      if op.id in state.rounds {
        return false;
      }
      if !op.json {
        return false;
      }
      var record := Round(now, None, None, "running");
      state := state.(rounds := state.rounds[op.id := record], roundOrder := state.roundOrder + [op.id]);
      return true;
    }

    method FirstToken(op: Op, now: real) returns (ok: bool)
      requires op.FirstToken?
      modifies this
      ensures Result(state, ok) == Do(old(state), op, now)
    {
      if !Running(state) || op.id !in state.rounds {
        return false;
      }
      var record := state.rounds[op.id];
      if record.end.Some? {
        return false;
      }
      if record.firstToken.Some? {
        return false;
      }
      state := state.(rounds := state.rounds[op.id := record.(firstToken := Some(now))]);
      return true;
    }

    method RoundEnded(op: Op, now: real) returns (ok: bool)
      requires op.RoundEnded?
      modifies this
      ensures Result(state, ok) == Do(old(state), op, now)
    {
      if !Running(state) || op.id !in state.rounds {
        return false;
      }
      if state.rounds[op.id].end.Some? {
        return false;
      }
      state := state.(rounds := state.rounds[op.id := state.rounds[op.id].(end := Some(now))]);
      if IsBlank(op.status) {
        return false;
      }
      state := state.(rounds := state.rounds[op.id := state.rounds[op.id].(status := op.status)]);
      return op.json;
    }

    method AttemptStarted(op: Op, now: real) returns (ok: bool)
      requires op.AttemptStarted?
      modifies this
      ensures Result(state, ok) == Do(old(state), op, now)
    {
      if !Running(state) || IsBlank(op.id) {
        return false;
      }
      if op.id in state.attempts || op.round !in state.rounds {
        return false;
      }
      if !op.json {
        return false;
      }
      var record := Attempt(op.round, now, None, "running");
      state := state.(attempts := state.attempts[op.id := record], attemptOrder := state.attemptOrder + [op.id]);
      return true;
    }

    method AttemptEnded(op: Op, now: real) returns (ok: bool)
      requires op.AttemptEnded?
      modifies this
      ensures Result(state, ok) == Do(old(state), op, now)
    {
      if op.id !in state.attempts {
        return false;
      }
      if state.attempts[op.id].end.Some? {
        return false;
      }
      state := state.(attempts := state.attempts[op.id := state.attempts[op.id].(end := Some(now))]);
      if IsBlank(op.status) {
        return false;
      }
      state := state.(attempts := state.attempts[op.id := state.attempts[op.id].(status := op.status)]);
      return op.json;
    }

    method ToolQueued(op: Op, now: real) returns (ok: bool)
      requires op.ToolQueued?
      modifies this
      ensures Result(state, ok) == Do(old(state), op, now)
    {
      if !Running(state) || IsBlank(op.id) {
        return false;
      }
      if op.id in state.tools {
        return false;
      }
      if IsBlank(op.name) || !op.json {
        return false;
      }
      var record := NewTool.(parent := op.parent);
      record := record.(enqueued := Some(now));
      record := record.(status := "queued");
      PutTool(op.id, record);
      return true;
    }

    method ToolStarted(op: Op, now: real) returns (ok: bool)
      requires op.ToolStarted?
      modifies this
      ensures Result(state, ok) == Do(old(state), op, now)
    {
      if !Running(state) || IsBlank(op.id) {
        return false;
      }
      var record := NewTool.(parent := op.parent);
      if op.id in state.tools {
        record := state.tools[op.id];
      } else if op.toolName.None? || IsBlank(op.toolName.value) || !op.json {
        return false;
      }
      if record.start.Some? {
        return false;
      }
      if record.end.Some? {
        return false;
      }
      record := record.(start := Some(now));
      record := record.(wait := Duration(record.enqueued, now));
      record := record.(status := "running");
      if op.parent.Some? {
        record := record.(parent := op.parent);
      }
      PutTool(op.id, record);
      if !op.json {
        return false;
      }
      state := state.(activeTools := state.activeTools + {op.id});
      return true;
    }

    method ToolEnded(op: Op, now: real) returns (ok: bool)
      requires op.ToolEnded?
      modifies this
      ensures Result(state, ok) == Do(old(state), op, now)
    {
      if !Running(state) || IsBlank(op.id) {
        return false;
      }
      var record := NewTool.(parent := op.parent);
      if op.id in state.tools {
        record := state.tools[op.id];
      } else if op.toolName.None? || IsBlank(op.toolName.value) || !op.json {
        return false;
      }
      if record.end.Some? {
        return false;
      }
      if op.enqueueIsStart && record.start.None? {
        record := record.(start := if record.enqueued.Some? then record.enqueued else Some(now));
        record := record.(wait := Some(0.0));
      }
      record := record.(end := Some(now));
      if IsBlank(op.status) {
        PutTool(op.id, record);
        return false;
      }
      record := record.(status := op.status);
      if op.parent.Some? {
        record := record.(parent := op.parent);
      }
      PutTool(op.id, record);
      if !op.json {
        return false;
      }
      state := state.(activeTools := state.activeTools - {op.id});
      return true;
    }

    method FrontendTerminal(op: Op, now: real) returns (ok: bool)
      requires op.FrontendTerminal? && WellKept(state)
      modifies this
      ensures Result(state, ok) == Do(old(state), op, now)
    {
      if !Running(state) {
        return false;
      }
      if op.ending.COMPLETED? {
        var i := 0;
        while i < |state.toolOrder|
          invariant 0 <= i <= |state.toolOrder| && state == old(state)
          invariant forall k :: 0 <= k < i && state.toolOrder[k] in state.tools ==>
              state.tools[state.toolOrder[k]].end.Some?
        {
          if state.toolOrder[i] in state.tools && state.tools[state.toolOrder[i]].end.None? {
            return false;
          }
          i := i + 1;
        }
        assert forall id :: id in state.tools ==> id in Elements(state.toolOrder);
      }
      if !op.json {
        return false;
      }
      state := state.(terminal := Some(Terminal(op.ending, now)));
      return true;
    }
  }
}
