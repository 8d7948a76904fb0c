/**
 Which round a tool belongs to: the one in which the model called it, or else the one its turn was in.
 */
module BridgeTools {
  import opened Sequences
  import opened Bridge
  import Lifecycle
  import Text

  /** The tool was called in this round, and both sides say so. */
  ghost predicate LinkedTo(b: State, id: Id, round: Id) {
    && id in b.callParent && b.callParent[id] == round
    && id in b.toolPhase && id in b.collector.tools && b.collector.tools[id].parent == Some(round)
  }

  predicate Mentions(ev: Native, id: Id) {
    ev.FunctionCall? && (ev.callId == Some(id) || ev.itemId == Some(id))
  }

  lemma CallToolKeepsLink(b: State, id: Id, r: Lifecycle.Result, phase: ToolPhase, x: Id, round: Id)
    requires Lifecycle.TouchesOnlyTool(b.collector, r.state, id) && LinkedTo(b, x, round)
    requires x == id ==> x in r.state.tools && r.state.tools[x].parent == Some(round)
    ensures LinkedTo(CallTool(b, id, r, phase).b, x, round)
  {
  }

  lemma StartKeepsParent(s: Lifecycle.State, id: Id, name: Option<string>, parent: Option<Id>, round: Id, now: real)
    requires id in s.tools && s.tools[id].parent == Some(round) && (parent.Some? ==> parent.value == round)
    ensures var t := Lifecycle.StartTool(s, id, name, parent, true, now).state;
            id in t.tools && t.tools[id].parent == Some(round)
  {
  }

  lemma EndKeepsParent(s: Lifecycle.State, id: Id, status: string, name: Option<string>, parent: Option<Id>,
        atOnce: bool, round: Id, now: real)
    requires id in s.tools && s.tools[id].parent == Some(round) && (parent.Some? ==> parent.value == round)
    ensures var t := Lifecycle.EndTool(s, id, status, name, parent, true, atOnce, now).state;
            id in t.tools && t.tools[id].parent == Some(round)
  {
  }

  lemma ItemStartedKeepsLink(b: State, ev: Native, x: Id, round: Id, now: real)
    requires ev.ItemStarted? && LinkedTo(b, x, round)
    ensures LinkedTo(OnItemStarted(b, ev, now).b, x, round)
  {
    var parent, name := ParentOf(b, ev.turn, ev.id), if ev.id in b.toolPhase then None else Some(ev.name);
    Lifecycle.StartToolWorks(b.collector, ev.id, name, parent, now);
    if x == ev.id {
      StartKeepsParent(b.collector, x, name, parent, round, now);
    }
    CallToolKeepsLink(b, ev.id, Lifecycle.StartTool(b.collector, ev.id, name, parent, true, now), Started, x, round);
  }

  lemma ItemCompletedKeepsLink(b: State, ev: Native, x: Id, round: Id, now: real)
    requires ev.ItemCompleted? && LinkedTo(b, x, round)
    ensures LinkedTo(OnItemCompleted(b, ev, now).b, x, round)
  {
    var parent, name := ParentOf(b, ev.turn, ev.id), if ev.id in b.toolPhase then None else Some(ev.name);
    Lifecycle.EndToolWorks(b.collector, ev.id, ev.status, name, parent, false, now);
    if x == ev.id {
      EndKeepsParent(b.collector, x, ev.status, name, parent, false, round, now);
    }
    CallToolKeepsLink(b, ev.id, Lifecycle.EndTool(b.collector, ev.id, ev.status, name, parent, true, false, now), Done,
        x, round);
  }

  lemma CallOutputKeepsLink(b: State, ev: Native, x: Id, round: Id, now: real)
    requires ev.FunctionCallOutput? && LinkedTo(b, x, round)
    ensures LinkedTo(OnCallOutput(b, ev, now).b, x, round)
  {
    if ev.callId.Some? {
      var id := ev.callId.value;
      var parent := if id in b.callParent then Some(b.callParent[id]) else None;
      Lifecycle.EndToolWorks(b.collector, id, "completed", None, parent, true, now);
      if x == id {
        EndKeepsParent(b.collector, x, "completed", None, parent, true, round, now);
      }
      CallToolKeepsLink(b, id, Lifecycle.EndTool(b.collector, id, "completed", None, parent, true, true, now), Done,
          x, round);
    }
  }

  lemma QueueKeepsLink(e: State, ev: Native, at: Id, x: Id, round: Id, now: real)
    requires ev.FunctionCall? && WellFormed(ev) && Lifecycle.Running(e.collector)
    requires LinkedTo(e, x, round) && !Mentions(ev, x)
    ensures LinkedTo(QueueCall(e, ev, at, now).b, x, round)
  {
    if CallIdOf(ev).Some? {
      var id := CallIdOf(ev).value;
      var e' := e.(callParent := ParentsWith(e.callParent, ev, at));
      Lifecycle.QueueToolWorks(e'.collector, id, ev.name, Some(at), now);
      CallToolKeepsLink(e', id, Lifecycle.QueueTool(e'.collector, id, ev.name, Some(at), true, now), Queued, x, round);
    }
  }

  lemma FunctionCallKeepsLink(b: State, ev: Native, x: Id, round: Id, now: real)
    requires BridgeInv(b) && ev.FunctionCall? && WellFormed(ev) && LinkedTo(b, x, round) && !Mentions(ev, x)
    ensures LinkedTo(OnFunctionCall(b, ev, now).b, x, round)
  {
    EnsureRoundFrame(b, ev.turn, now);
    EnsureRoundLinks(b, ev.turn, now);
    var e := EnsureRound(b, ev.turn, now).b;
    if RoundOf(e, ev.turn).Some? {
      QueueKeepsLink(e, ev, RoundOf(e, ev.turn).value, x, round, now);
    }
  }

  lemma CompletionKeepsLink(b: State, ev: Native, x: Id, round: Id, now: real)
    requires BridgeInv(b) && ev.ResponseCompleted? && LinkedTo(b, x, round)
    ensures LinkedTo(OnResponseCompleted(b, ev, now).b, x, round)
  {
    EnsureRoundFrame(b, ev.turn, now);
    EnsureRoundLinks(b, ev.turn, now);
    var e, resolved := EnsureRound(b, ev.turn, now).b, Resolved(b, ev.turn);
    assert !Text.IsSpace("completed"[0]);
    if resolved.Some? {
      ClosingFrame(e, resolved.value, "completed", now);
    }
  }

  lemma NativeKeepsLink(b: State, ev: Native, x: Id, round: Id, now: real)
    requires BridgeInv(b) && WellFormed(ev) && LinkedTo(b, x, round) && !Mentions(ev, x)
    ensures LinkedTo(NativeEvent(b, ev, now).b, x, round)
  {
    match ev
    case TurnStarted(turn) =>
      TurnStartLinks(b, turn);
      DrainLinks(b.(activeTurn := Some(turn), announced := b.announced + {turn}), now);
    case TurnCompleted(_) =>
    case FunctionCall(_, _, _, _) => FunctionCallKeepsLink(b, ev, x, round, now);
    case FunctionCallOutput(_) => CallOutputKeepsLink(b, ev, x, round, now);
    case ResponseCompleted(_) => CompletionKeepsLink(b, ev, x, round, now);
    case ItemStarted(_, _, _) => ItemStartedKeepsLink(b, ev, x, round, now);
    case ItemCompleted(_, _, _, _) => ItemCompletedKeepsLink(b, ev, x, round, now);
    case OtherNative =>
  }

  lemma EventKeepsLink(b: State, e: Event, x: Id, round: Id, now: real)
    requires BridgeInv(b) && Enabled(b, e) && LinkedTo(b, x, round)
    requires e.FromNative? ==> !Mentions(e.ev, x)
    ensures LinkedTo(Step(b, e, now), x, round)
  {
    match e
    case FromNative(ev) => NativeKeepsLink(b, ev, x, round, now);
    case FromProxy(row) => BackendEventKeepsInv(b, row, now);
    case Closure(turns, status) =>
      ClosureEndsEveryRound(b, turns, status, now);
      CloseRoundsKeepsInv(b, turns, status, now);
  }

  lemma {:induction false} RunKeepsLink(b: State, events: seq<Timed>, x: Id, round: Id)
    requires BridgeInv(b) && IsRun(b, events) && LinkedTo(b, x, round)
    requires forall e <- events :: e.event.FromNative? ==> !Mentions(e.event.ev, x)
    ensures LinkedTo(Execute(b, events), x, round)
    decreases |events|
  {
    if events != [] {
      assert events[0] in events && forall e <- events[1..] :: e in events;
      StepKeepsInv(b, events[0].event, events[0].at);
      EventKeepsLink(b, events[0].event, x, round, events[0].at);
      RunKeepsLink(Step(b, events[0].event, events[0].at), events[1..], x, round);
    }
  }

  /** A new call is queued for the round open for its turn, under its call id, or else the id of its item. */
  lemma CallLinksTool(b: State, ev: Native, id: Id, now: real)
    requires BridgeInv(b) && ToolsKnown(b) && ev.FunctionCall? && WellFormed(ev)
    requires ev.callId == Some(id) || (ev.callId.None? && ev.itemId == Some(id))
    requires id !in b.toolPhase && (ev.turn.Some? || b.activeTurn.Some?)
    ensures var c := NativeEvent(b, ev, now).b;
            var turn := if ev.turn.Some? then ev.turn.value else b.activeTurn.value;
            && turn in c.activeRound && LinkedTo(c, id, c.activeRound[turn])
            && c.toolPhase[id].Queued? && c.collector.tools[id].enqueued == Some(now)
            && (turn in b.activeRound ==> c.activeRound[turn] == b.activeRound[turn])
            && (ev.itemId.Some? ==> ev.itemId.value in c.callParent
                                    && c.callParent[ev.itemId.value] == c.activeRound[turn])
  {
    EnsureRoundFrame(b, ev.turn, now);
    EnsureRoundLinks(b, ev.turn, now);
    var e := EnsureRound(b, ev.turn, now).b;
    assert Mirrored(b, id) || Broken(b, id);
    QueueLinks(e, ev, RoundOf(e, ev.turn).value, id, now);
  }

  lemma QueueWrites(s: Lifecycle.State, id: Id, name: string, round: Id, now: real)
    requires Lifecycle.Running(s) && !Text.IsBlank(id) && !Text.IsBlank(name) && id !in s.tools
    ensures var r := Lifecycle.QueueTool(s, id, name, Some(round), true, now);
            && r.ok && id in r.state.tools
            && r.state.tools[id].parent == Some(round) && r.state.tools[id].enqueued == Some(now)
  {
  }

  lemma QueueLinks(e: State, ev: Native, round: Id, id: Id, now: real)
    requires ev.FunctionCall? && WellFormed(ev) && CallIdOf(ev) == Some(id) && Lifecycle.Running(e.collector)
    requires id !in e.toolPhase && id !in e.collector.tools
    ensures var c := QueueCall(e, ev, round, now).b;
            && LinkedTo(c, id, round) && c.toolPhase[id].Queued? && c.collector.tools[id].enqueued == Some(now)
            && c.activeRound == e.activeRound
            && (ev.itemId.Some? ==> ev.itemId.value in c.callParent && c.callParent[ev.itemId.value] == round)
  {
    QueueWrites(e.collector, id, ev.name, round, now);
  }

  /**
   Over every run: a tool called in a round stays with it, whenever and in whatever turn its start, its output and
   its end are reported, as long as no other call names its id.
   */
  lemma ToolStaysWithItsCall(events: seq<Timed>, ev: Native, id: Id, at: real, later: seq<Timed>)
    requires IsRun(Initial, events) && ev.FunctionCall? && WellFormed(ev)
    requires ev.callId == Some(id) || (ev.callId.None? && ev.itemId == Some(id))
    requires var b := Execute(Initial, events);
             && id !in b.toolPhase && (ev.turn.Some? || b.activeTurn.Some?)
             && IsRun(NativeEvent(b, ev, at).b, later)
    requires forall e <- later :: e.event.FromNative? ==> !Mentions(e.event.ev, id)
    ensures var b := Execute(Initial, events); var c := NativeEvent(b, ev, at).b;
            var turn := if ev.turn.Some? then ev.turn.value else b.activeTurn.value;
            turn in c.activeRound && LinkedTo(Execute(c, later), id, c.activeRound[turn])
  {
    var b := Execute(Initial, events);
    assert BridgeInv(Initial) && ToolsKnown(Initial);
    RunKeepsInv(Initial, events);
    RunBreaksExactlyRestarted(Initial, events, id);
    CallLinksTool(b, ev, id, at);
    NativeEventKeepsInv(b, ev, at);
    var c := NativeEvent(b, ev, at).b;
    var turn := if ev.turn.Some? then ev.turn.value else b.activeTurn.value;
    RunKeepsLink(c, later, id, c.activeRound[turn]);
  }

  /** The first report on a tool, or its end before the bridge has seen one. */
  predicate Reports(b: State, ev: Native, id: Id) {
    match ev
    case FunctionCallOutput(callId) => callId == Some(id) && id in b.toolPhase && !b.toolPhase[id].Done?
    case ItemStarted(_, item, _) => item == id && (id !in b.toolPhase || b.toolPhase[id].Queued?)
    case ItemCompleted(_, item, _, _) => item == id && (id !in b.toolPhase || !b.toolPhase[id].Done?)
    case _ => false
  }

  lemma StartAdopts(s: Lifecycle.State, id: Id, name: Option<string>, round: Id, now: real)
    requires Lifecycle.StartTool(s, id, name, Some(round), true, now).ok
    ensures var t := Lifecycle.StartTool(s, id, name, Some(round), true, now).state;
            id in t.tools && t.tools[id].parent == Some(round)
  {
  }

  lemma EndAdopts(s: Lifecycle.State, id: Id, status: string, name: Option<string>, round: Id, atOnce: bool, now: real)
    requires Lifecycle.EndTool(s, id, status, name, Some(round), true, atOnce, now).ok
    ensures var t := Lifecycle.EndTool(s, id, status, name, Some(round), true, atOnce, now).state;
            id in t.tools && t.tools[id].parent == Some(round)
  {
  }

  lemma AcceptedCallLinks(b: State, id: Id, r: Lifecycle.Result, phase: ToolPhase)
    requires id in b.callParent && !CallTool(b, id, r, phase).raised
    requires r.ok ==> id in r.state.tools && r.state.tools[id].parent == Some(b.callParent[id])
    ensures LinkedTo(CallTool(b, id, r, phase).b, id, b.callParent[id])
  {
  }

  /** A report that does not raise takes a tool over to the round of its call, whatever round it had before. */
  lemma ReportLinksTool(b: State, ev: Native, id: Id, now: real)
    requires WellFormed(ev) && id in b.callParent && Reports(b, ev, id) && !NativeEvent(b, ev, now).raised
    ensures LinkedTo(NativeEvent(b, ev, now).b, id, b.callParent[id])
  {
    var round, known := b.callParent[id], id in b.toolPhase;
    var s := b.collector;
    match ev
    case FunctionCallOutput(_) =>
      var r := Lifecycle.EndTool(s, id, "completed", None, Some(round), true, true, now);
      if r.ok { EndAdopts(s, id, "completed", None, round, true, now); }
      AcceptedCallLinks(b, id, r, Done);
    case ItemStarted(_, _, name) =>
      var n := if known then None else Some(name);
      var r := Lifecycle.StartTool(s, id, n, Some(round), true, now);
      if r.ok { StartAdopts(s, id, n, round, now); }
      AcceptedCallLinks(b, id, r, Started);
    case ItemCompleted(_, _, name, status) =>
      var n := if known then None else Some(name);
      var r := Lifecycle.EndTool(s, id, status, n, Some(round), true, false, now);
      if r.ok { EndAdopts(s, id, status, n, round, false, now); }
      AcceptedCallLinks(b, id, r, Done);
  }

  /** The open round of the turn, or else its last one, or none. */
  predicate IsRoundOfTurn(b: State, turn: Option<Id>, round: Option<Id>) {
    round ==
    if turn.None? then None
    else if turn.value in b.activeRound then Some(b.activeRound[turn.value])
    else if turn.value in b.lastRound then Some(b.lastRound[turn.value])
    else None
  }

  /** A tool first seen running or done, which no call has named, belongs to the open round of its turn, or its last. */
  lemma UncalledToolBelongsToItsTurn(b: State, ev: Native, id: Id, now: real)
    requires BridgeInv(b) && ToolsKnown(b) && WellFormed(ev)
    requires (ev.ItemStarted? || ev.ItemCompleted?) && ev.id == id && id !in b.toolPhase && id !in b.callParent
    ensures var c := NativeEvent(b, ev, now).b;
            && id in c.toolPhase && id in c.collector.tools && IsRoundOfTurn(b, ev.turn, c.collector.tools[id].parent)
            && (ev.ItemStarted? ==> c.toolPhase[id].Started? && c.collector.tools[id].start == Some(now))
            && (ev.ItemCompleted? ==>
                  && c.toolPhase[id].Done? && c.collector.tools[id].end == Some(now)
                  && c.collector.tools[id].status == ev.status)
  {
    assert Mirrored(b, id) || Broken(b, id);
  }

  lemma EnsuringOpens(b: State, turn: Option<Id>, now: real)
    requires turn.Some? || b.activeTurn.Some?
    ensures var e := EnsureRound(b, turn, now).b; var t := if turn.Some? then turn.value else b.activeTurn.value;
            && t in e.activeRound && (t in b.activeRound ==> e.activeRound[t] == b.activeRound[t])
            && (forall u <- b.activeRound :: u != t ==> u in e.activeRound && e.activeRound[u] == b.activeRound[u])
  {
  }

  lemma CompletionIsClosing(b: State, ev: Native, now: real)
    requires ev.ResponseCompleted? && (ev.turn.Some? || b.activeTurn.Some?)
    requires !EnsureRound(b, ev.turn, now).raised
    ensures var t := if ev.turn.Some? then ev.turn.value else b.activeTurn.value;
            var e := EnsureRound(b, ev.turn, now).b;
            t in e.activeRound && NativeEvent(b, ev, now) == Closing(e, t, "completed", now)
  {
    EnsureRoundFrame(b, ev.turn, now);
  }

  /** A response's end closes its turn's round, opening one first if there is none, and remembers it as the last. */
  lemma ResponseEndsItsRound(b: State, ev: Native, now: real)
    requires BridgeInv(b) && ev.ResponseCompleted? && (ev.turn.Some? || b.activeTurn.Some?)
    ensures var c := NativeEvent(b, ev, now).b;
            var turn := if ev.turn.Some? then ev.turn.value else b.activeTurn.value;
            && turn !in c.activeRound && turn in c.lastRound && c.lastRound[turn] in c.collector.rounds
            && c.collector.rounds[c.lastRound[turn]].end == Some(now)
            && c.collector.rounds[c.lastRound[turn]].status == "completed"
            && (turn in b.activeRound ==> c.lastRound[turn] == b.activeRound[turn])
            && (forall t <- b.activeRound :: t != turn ==> t in c.activeRound && c.activeRound[t] == b.activeRound[t])
  {
    var turn := if ev.turn.Some? then ev.turn.value else b.activeTurn.value;
    EnsuringOpens(b, ev.turn, now);
    EnsureRoundLinks(b, ev.turn, now);
    CompletionIsClosing(b, ev, now);
    assert !Text.IsSpace("completed"[0]);
    ClosingEnds(EnsureRound(b, ev.turn, now).b, turn, "completed", now);
  }

  lemma ClosingEnds(e: State, t: Id, status: string, now: real)
    requires Linked(e) && t in e.activeRound && !Text.IsBlank(status)
    ensures var o := Closing(e, t, status, now);
            && !o.raised && o.b.activeRound == e.activeRound - {t}
            && o.b.lastRound == e.lastRound[t := e.activeRound[t]]
            && e.activeRound[t] in o.b.collector.rounds
            && o.b.collector.rounds[e.activeRound[t]].end == Some(now)
            && o.b.collector.rounds[e.activeRound[t]].status == status
  {
  }

  ghost predicate EndedWith(b: State, round: Id, status: string, at: real) {
    && round in b.collector.rounds
    && b.collector.rounds[round].end == Some(at) && b.collector.rounds[round].status == status
  }

  /** This round, if it has ended, is as it was. */
  ghost predicate KeepsEnded(b: State, c: State, round: Id) {
    round in b.collector.rounds && b.collector.rounds[round].end.Some? ==>
      round in c.collector.rounds && c.collector.rounds[round] == b.collector.rounds[round]
  }

  lemma ClosingKeepsEnded(b: State, t: Id, status: string, now: real, round: Id)
    requires Linked(b) && t in b.activeRound && !Text.IsBlank(status)
    ensures KeepsEnded(b, Closing(b, t, status, now).b, round)
  {
    ClosingFrame(b, t, status, now);
  }

  /** What one step of the closing loop sets up for the rest. */
  lemma ClosingFirst(b: State, turns: seq<Id>, status: string, now: real)
    requires BridgeInv(b) && !Text.IsBlank(status) && turns != []
    requires Distinct(turns) && Elements(turns) <= b.activeRound.Keys
    ensures turns[0] in b.activeRound && forall t :: t in turns ==> t in b.activeRound
    ensures var c := Closing(b, turns[0], status, now);
            && !c.raised && BridgeInv(c.b) && c.b.activeRound == b.activeRound - {turns[0]}
            && Distinct(turns[1..]) && Elements(turns[1..]) <= c.b.activeRound.Keys
            && (forall t :: t in turns[1..] ==> t in c.b.activeRound)
            && CloseRounds(b, turns, status, now) == CloseRounds(c.b, turns[1..], status, now)
  {
    assert forall t :: t in turns ==> t in Elements(turns);
    assert turns[0] in turns;
    ClosingKeepsInv(b, turns[0], status, now);
    ClosingFrame(b, turns[0], status, now);
    TailElements(turns);
    assert forall t :: t in turns[1..] ==> t in Elements(turns[1..]);
  }

  lemma {:induction false} CloseRoundsKeepsEnded(b: State, turns: seq<Id>, status: string, now: real, round: Id)
    requires BridgeInv(b) && !Text.IsBlank(status) && Distinct(turns) && Elements(turns) <= b.activeRound.Keys
    ensures forall t :: t in turns ==> t in b.activeRound
    ensures KeepsEnded(b, CloseRounds(b, turns, status, now).b, round)
    decreases |turns|
  {
    if turns != [] {
      ClosingFirst(b, turns, status, now);
      ClosingKeepsEnded(b, turns[0], status, now, round);
      CloseRoundsKeepsEnded(Closing(b, turns[0], status, now).b, turns[1..], status, now, round);
    }
  }

  lemma {:induction false} CloseRoundsEnds(b: State, turns: seq<Id>, status: string, now: real, t: Id)
    requires BridgeInv(b) && !Text.IsBlank(status) && Distinct(turns) && Elements(turns) <= b.activeRound.Keys
    requires t in turns && t in b.activeRound
    ensures forall u :: u in turns ==> u in b.activeRound
    ensures EndedWith(CloseRounds(b, turns, status, now).b, b.activeRound[t], status, now)
    decreases |turns|
  {
    ClosingFirst(b, turns, status, now);
    var c := Closing(b, turns[0], status, now).b;
    if t == turns[0] {
      ClosingEnds(b, t, status, now);
      CloseRoundsKeepsEnded(c, turns[1..], status, now, b.activeRound[t]);
    } else {
      assert turns == [turns[0]] + turns[1..];
      CloseRoundsEnds(c, turns[1..], status, now, t);
    }
  }

  /** An abnormal closure ends every round that was open, now and with the status given, and no other. */
  lemma ClosureNamesItsStatus(b: State, turns: seq<Id>, status: string, now: real)
    requires BridgeInv(b) && !Text.IsBlank(status)
    requires Distinct(turns) && Elements(turns) == b.activeRound.Keys
    ensures forall t :: t in turns ==> t in b.activeRound
    ensures var c := CloseActiveRounds(b, turns, status, now).b;
            && (forall t <- b.activeRound :: EndedWith(c, b.activeRound[t], status, now))
            && (forall round :: KeepsEnded(b, c, round))
  {
    CloseRoundsKeepsInv(b, turns, status, now);
    var c := CloseActiveRounds(b, turns, status, now).b;
    forall t | t in b.activeRound
      ensures EndedWith(c, b.activeRound[t], status, now)
    {
      assert t in Elements(turns);
      CloseRoundsEnds(b, turns, status, now, t);
    }
    forall round
      ensures KeepsEnded(b, c, round)
    {
      CloseRoundsKeepsEnded(b, turns, status, now, round);
    }
  }
}
