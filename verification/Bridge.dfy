/**
 The bridge between the Codex app-server and the lifecycle collector: it binds
 racing backend events to logical rounds and forwards native tool events.
 */
module Bridge {
  import opened Sequences
  import opened Text
  import Lifecycle

  type Id = string

  datatype RowKind = AttemptStart | FirstToken | AttemptEnd | Other
  datatype Row = Row(kind: RowKind, attempt: Id, success: bool)

  datatype ToolPhase = Queued | Started | Done

  datatype State = State(
    activeTurn: Option<Id>, announced: set<Id>,
    activeRound: map<Id, Id>, lastRound: map<Id, Id>, roundCount: map<Id, nat>,
    attemptRound: map<Id, Id>, pending: seq<Row>,
    callParent: map<Id, Id>, toolPhase: map<Id, ToolPhase>,
    collector: Lifecycle.State)

  const Initial := State(None, {}, map[], map[], map[], map[], [], map[], map[], Lifecycle.Empty)

  const ROUND_MARK := ":llm_"

  function RoundName(turn: Id, n: nat): Id {
    turn + ROUND_MARK + Padded(n)
  }

  lemma RoundNameIsInjective(t: Id, n: nat, u: Id, m: nat)
    requires RoundName(t, n) == RoundName(u, m)
    ensures t == u && n == m
  {
    PaddedReadsBack(n);
    PaddedReadsBack(m);
    NumberedNameIsInjective(t, u, ROUND_MARK, Padded(n), Padded(m));
  }

  lemma RoundNameIsNotBlank(t: Id, n: nat)
    ensures !IsBlank(RoundName(t, n))
  {
    assert RoundName(t, n)[|t|] == ':';
  }

  // ----- Transitions -----

  /** A transition's effect, and whether an exception left it. */
  datatype Out = Out(b: State, raised: bool)

  function Call(b: State, r: Lifecycle.Result): Out {
    Out(b.(collector := r.state), !r.ok)
  }

  function Resolved(b: State, turn: Option<Id>): Option<Id> {
    if turn.Some? then turn else b.activeTurn
  }

  function NextOrdinal(b: State, t: Id): nat {
    1 + if t in b.roundCount then b.roundCount[t] else 0
  }

  function OpenRound(b: State, t: Id, name: Id, now: real): Out {
    Call(b.(roundCount := b.roundCount[t := NextOrdinal(b, t)], activeRound := b.activeRound[t := name]),
         Lifecycle.StartRound(b.collector, name, true, now))
  }

  function EnsureRound(b: State, turn: Option<Id>, now: real): Out {
    var resolved := Resolved(b, turn);
    if resolved.None? || resolved.value in b.activeRound then Out(b, false)
    else OpenRound(b, resolved.value, RoundName(resolved.value, NextOrdinal(b, resolved.value)), now)
  }

  /** The round that `EnsureRound` answers with. */
  function RoundOf(b: State, turn: Option<Id>): Option<Id> {
    var resolved := Resolved(b, turn);
    if resolved.Some? && resolved.value in b.activeRound then Some(b.activeRound[resolved.value]) else None
  }

  datatype Recording = Recording(b: State, done: bool, raised: bool)

  /** Refusals that only say the first token came twice, or after the end. */
  predicate Tolerated(c: Lifecycle.State, round: Id) {
    Lifecycle.Running(c) && round in c.rounds && (c.rounds[round].end.Some? || c.rounds[round].firstToken.Some?)
  }

  function BindAttempt(b: State, a: Id, round: Id, now: real): Out {
    Call(b.(attemptRound := b.attemptRound[a := round]), Lifecycle.StartAttempt(b.collector, a, round, true, now))
  }

  function TokenFor(b: State, round: Id, now: real): Out {
    Call(b, Lifecycle.MarkFirstToken(b.collector, round, now))
  }

  function EndBound(b: State, a: Id, status: string, now: real): Out {
    Call(b, Lifecycle.EndAttempt(b.collector, a, status, true, now))
  }

  function EndStatus(row: Row): (status: string)
    ensures !IsBlank(status)
  {
    var status := if row.success then "completed" else "error";
    assert !IsSpace(status[0]);
    status
  }

  function Record(b: State, row: Row, now: real): Recording {
    if row.attempt == "" then Recording(b, true, false)
    else match row.kind
      case AttemptStart =>
        var e := EnsureRound(b, None, now);
        var round := RoundOf(e.b, None);
        if e.raised then Recording(e.b, false, true)
        else if round.None? then Recording(e.b, false, false)
        else if row.attempt in b.attemptRound then Recording(e.b, true, false)
        else
          var c := BindAttempt(e.b, row.attempt, round.value, now);
          Recording(c.b, true, c.raised)
      case FirstToken =>
        if row.attempt !in b.attemptRound then Recording(b, false, false)
        else
          var round := b.attemptRound[row.attempt];
          var c := TokenFor(b, round, now);
          Recording(c.b, true, c.raised && !Tolerated(b.collector, round))
      case AttemptEnd =>
        if row.attempt !in b.attemptRound then Recording(b, false, false)
        else
          var c := EndBound(b, row.attempt, EndStatus(row), now);
          Recording(c.b, true, c.raised)
      case Other => Recording(b, true, false)
  }

  datatype PassResult = PassResult(b: State, deferred: seq<Row>, raised: bool)

  /** One sweep over the rows; an exception abandons the rest. */
  function Pass(b: State, rows: seq<Row>, now: real): PassResult
    decreases |rows|
  {
    if rows == [] then PassResult(b, [], false)
    else
      var r := Record(b, rows[0], now);
      if r.raised then PassResult(r.b, [], true)
      else
        var rest := Pass(r.b, rows[1..], now);
        PassResult(rest.b, if r.done then rest.deferred else [rows[0]] + rest.deferred, rest.raised)
  }

  lemma {:induction false} PassNeverGrows(b: State, rows: seq<Row>, now: real)
    ensures |Pass(b, rows, now).deferred| <= |rows|
    decreases |rows|
  {
    if rows != [] {
      PassNeverGrows(Record(b, rows[0], now).b, rows[1..], now);
    }
  }

  /** The retry loop: sweep while some row found its place. */
  function Sweeps(b: State, rows: seq<Row>, now: real): Out
    decreases |rows|
  {
    if rows == [] then Out(b, false)
    else
      var p := Pass(b, rows, now);
      if p.raised then Out(p.b, true)
      else if |p.deferred| >= |rows| then Out(p.b.(pending := p.b.pending + p.deferred), false)
      else Sweeps(p.b, p.deferred, now)
  }

  function Drain(b: State, now: real): Out {
    if b.activeTurn.None? || b.pending == [] then Out(b, false)
    else Sweeps(b.(pending := []), b.pending, now)
  }

  function BackendEvent(b: State, row: Row, now: real): Out {
    if row.attempt == "" then Out(b, false)
    else if b.activeTurn.None? && row.attempt !in b.attemptRound then Out(b.(pending := b.pending + [row]), false)
    else
      var r := Record(b, row, now);
      if r.raised then Out(r.b, true)
      else if !r.done then Out(r.b.(pending := r.b.pending + [row]), false)
      else if row.kind.AttemptStart? then Drain(r.b, now)
      else Out(r.b, false)
  }

  datatype Native =
    | TurnStarted(turnId: Id)
    | TurnCompleted(turn: Option<Id>)
    | FunctionCall(turn: Option<Id>, callId: Option<Id>, itemId: Option<Id>, name: string)
    | FunctionCallOutput(callId: Option<Id>)
    | ResponseCompleted(turn: Option<Id>)
    | ItemStarted(turn: Option<Id>, id: Id, name: string)
    | ItemCompleted(turn: Option<Id>, id: Id, name: string, status: string)
    | OtherNative

  function ParentOf(b: State, turn: Option<Id>, id: Id): Option<Id> {
    if id in b.callParent then Some(b.callParent[id])
    else if turn.Some? && turn.value in b.activeRound then Some(b.activeRound[turn.value])
    else if turn.Some? && turn.value in b.lastRound then Some(b.lastRound[turn.value])
    else None
  }

  /** Forward a tool call to the collector, then note the tool's phase. */
  function CallTool(b: State, id: Id, r: Lifecycle.Result, phase: ToolPhase): Out {
    var c := Call(b, r);
    if c.raised then c else Out(c.b.(toolPhase := c.b.toolPhase[id := phase]), false)
  }

  /** The native call id, or else the response item's id. */
  function CallIdOf(ev: Native): Option<Id>
    requires ev.FunctionCall?
  {
    if ev.callId.Some? then ev.callId else ev.itemId
  }

  function ParentsWith(parents: map<Id, Id>, ev: Native, round: Id): map<Id, Id>
    requires ev.FunctionCall?
  {
    var parents1 := if ev.callId.Some? then parents[ev.callId.value := round] else parents;
    if ev.itemId.Some? then parents1[ev.itemId.value := round] else parents1
  }

  function QueueCall(b: State, ev: Native, round: Id, now: real): Out
    requires ev.FunctionCall?
  {
    if CallIdOf(ev).None? then Out(b, false)
    else
      var id := CallIdOf(ev).value;
      var b' := b.(callParent := ParentsWith(b.callParent, ev, round));
      if id in b'.toolPhase then Out(b', false)
      else CallTool(b', id, Lifecycle.QueueTool(b'.collector, id, ev.name, Some(round), true, now), Queued)
  }

  function OnFunctionCall(b: State, ev: Native, now: real): Out
    requires ev.FunctionCall?
  {
    var e := EnsureRound(b, ev.turn, now);
    var round := RoundOf(e.b, ev.turn);
    if e.raised || round.None? then e else QueueCall(e.b, ev, round.value, now)
  }

  function OnCallOutput(b: State, ev: Native, now: real): Out
    requires ev.FunctionCallOutput?
  {
    if ev.callId.None? || ev.callId.value !in b.toolPhase || b.toolPhase[ev.callId.value].Done? then Out(b, false)
    else
      var id := ev.callId.value;
      var parent := if id in b.callParent then Some(b.callParent[id]) else None;
      CallTool(b, id, Lifecycle.EndTool(b.collector, id, "completed", None, parent, true, true, now), Done)
  }

  /** End a turn's open round. */
  function Closing(b: State, t: Id, status: string, now: real): Out
    requires t in b.activeRound
  {
    var c := Call(b, Lifecycle.EndRound(b.collector, b.activeRound[t], status, true, now));
    if c.raised then c
    else Out(c.b.(activeRound := c.b.activeRound - {t}, lastRound := c.b.lastRound[t := b.activeRound[t]]), false)
  }

  function OnResponseCompleted(b: State, ev: Native, now: real): Out
    requires ev.ResponseCompleted?
  {
    var e := EnsureRound(b, ev.turn, now);
    var resolved, round := Resolved(b, ev.turn), RoundOf(e.b, ev.turn);
    if e.raised || resolved.None? || round.None? then e
    else Closing(e.b, resolved.value, "completed", now)
  }

  function OnItemStarted(b: State, ev: Native, now: real): Out
    requires ev.ItemStarted?
  {
    var parent := ParentOf(b, ev.turn, ev.id);
    if ev.id in b.toolPhase && b.toolPhase[ev.id].Queued? then
      CallTool(b, ev.id, Lifecycle.StartTool(b.collector, ev.id, None, parent, true, now), Started)
    else if ev.id !in b.toolPhase then
      CallTool(b, ev.id, Lifecycle.StartTool(b.collector, ev.id, Some(ev.name), parent, true, now), Started)
    else Out(b.(toolPhase := b.toolPhase[ev.id := Started]), false)
  }

  function OnItemCompleted(b: State, ev: Native, now: real): Out
    requires ev.ItemCompleted?
  {
    var parent := ParentOf(b, ev.turn, ev.id);
    if ev.id !in b.toolPhase then
      CallTool(b, ev.id, Lifecycle.EndTool(b.collector, ev.id, ev.status, Some(ev.name), parent, true, false, now),
          Done)
    else if !b.toolPhase[ev.id].Done? then
      CallTool(b, ev.id, Lifecycle.EndTool(b.collector, ev.id, ev.status, None, parent, true, false, now), Done)
    else Out(b, false)
  }

  function NativeEvent(b: State, ev: Native, now: real): Out {
    match ev
    case TurnStarted(turn) => Drain(b.(activeTurn := Some(turn), announced := b.announced + {turn}), now)
    case TurnCompleted(turn) => Out(if turn == b.activeTurn then b.(activeTurn := None) else b, false)
    case FunctionCall(_, _, _, _) => OnFunctionCall(b, ev, now)
    case FunctionCallOutput(_) => OnCallOutput(b, ev, now)
    case ResponseCompleted(_) => OnResponseCompleted(b, ev, now)
    case ItemStarted(_, _, _) => OnItemStarted(b, ev, now)
    case ItemCompleted(_, _, _, _) => OnItemCompleted(b, ev, now)
    case OtherNative => Out(b, false)
  }

  /** End the open rounds of these turns, in this order. */
  function CloseRounds(b: State, turns: seq<Id>, status: string, now: real): Out
    requires forall t :: t in turns ==> t in b.activeRound
    requires Distinct(turns)
    decreases |turns|
  {
    if turns == [] then Out(b, false)
    else
      var c := Closing(b, turns[0], status, now);
      if c.raised then c else CloseRounds(c.b, turns[1..], status, now)
  }

  function CloseActiveRounds(b: State, turns: seq<Id>, status: string, now: real): Out
    requires forall t :: t in turns ==> t in b.activeRound
    requires Distinct(turns)
  {
    var c := CloseRounds(b, turns, status, now);
    if c.raised then c else Out(c.b.(pending := [], activeTurn := None), false)
  }

  // ----- Refinement of the collector -----

  /** The collector's rounds are those named so far: for each turn the numbers from 1 to its count. */
  ghost predicate Named(b: State, id: Id) {
    exists t, n :: t in b.roundCount && 1 <= n <= b.roundCount[t] && id == RoundName(t, n)
  }

  ghost predicate RoundsRefine(b: State) {
    && (forall t :: t in b.activeRound ==>
          && t in b.roundCount && b.activeRound[t] == RoundName(t, b.roundCount[t])
          && b.activeRound[t] in b.collector.rounds && b.collector.rounds[b.activeRound[t]].end.None?)
    && (forall id :: id in b.collector.rounds && b.collector.rounds[id].end.None? ==> id in b.activeRound.Values)
    && (forall id :: id in b.collector.rounds ==> Named(b, id))
    && (forall t, n :: t in b.roundCount && 1 <= n <= b.roundCount[t] ==> RoundName(t, n) in b.collector.rounds)
  }

  ghost predicate OfAnnouncedTurn(b: State, round: Id) {
    exists t, n :: t in b.announced && round == RoundName(t, n)
  }

  ghost predicate AttemptsRefine(b: State) {
    && b.attemptRound.Keys == b.collector.attempts.Keys
    && (forall a :: a in b.attemptRound ==>
          && b.collector.attempts[a].round == b.attemptRound[a]
          && b.attemptRound[a] in b.collector.rounds
          && OfAnnouncedTurn(b, b.attemptRound[a]))
    && (b.activeTurn.Some? ==> b.activeTurn.value in b.announced)
  }

  /** A row that cannot be placed yet: its attempt has not been seen to start. */
  predicate Early(b: State, row: Row) {
    (row.kind.FirstToken? || row.kind.AttemptEnd?) && row.attempt !in b.attemptRound
  }

  ghost predicate PendingIsEarly(b: State) {
    b.activeTurn.Some? ==> forall row :: row in b.pending ==> Early(b, row)
  }

  ghost predicate ToolRefines(phase: ToolPhase, tool: Lifecycle.Tool) {
    match phase
    case Queued => tool.start.None? && tool.end.None?
    case Started => tool.start.Some? && tool.end.None?
    case Done => tool.end.Some?
  }

  /** Both sides agree on this tool. */
  ghost predicate Mirrored(b: State, id: Id) {
    && (id in b.toolPhase <==> id in b.collector.tools)
    && (id in b.toolPhase ==> ToolRefines(b.toolPhase[id], b.collector.tools[id]))
  }

  ghost predicate ToolsRefine(b: State) {
    forall id :: Mirrored(b, id)
  }

  /** Refinement of rounds and attempts, before the terminal event. */
  ghost predicate Linked(b: State) {
    Lifecycle.Running(b.collector) && RoundsRefine(b) && AttemptsRefine(b)
  }

  /** What the round and attempt machinery leaves alone. */
  ghost predicate SameTools(b: State, c: State) {
    && c.toolPhase == b.toolPhase && c.callParent == b.callParent
    && c.collector.tools == b.collector.tools && c.collector.terminal == b.collector.terminal
    && c.activeTurn == b.activeTurn && c.announced == b.announced
  }

  lemma OpenRoundFrame(b: State, t: Id, name: Id, now: real)
    ensures var e := OpenRound(b, t, name, now).b;
            && SameTools(b, e) && e.pending == b.pending
            && e.attemptRound == b.attemptRound && e.collector.attempts == b.collector.attempts
            && e.activeRound == b.activeRound[t := name]
  {
  }

  lemma EnsureRoundFrame(b: State, turn: Option<Id>, now: real)
    ensures var e := EnsureRound(b, turn, now).b;
            && SameTools(b, e) && e.pending == b.pending
            && e.attemptRound == b.attemptRound && e.collector.attempts == b.collector.attempts
            && (Resolved(b, turn).Some? <==> RoundOf(e, turn).Some?)
            && (Resolved(b, turn).Some? ==> Resolved(b, turn).value in e.activeRound)
  {
    var resolved := Resolved(b, turn);
    if resolved.Some? {
      OpenRoundFrame(b, resolved.value, RoundName(resolved.value, NextOrdinal(b, resolved.value)), now);
    }
  }

  lemma NewNameIsNew(b: State, t: Id, n: nat)
    requires RoundsRefine(b)
    requires n == NextOrdinal(b, t)
    ensures RoundName(t, n) !in b.collector.rounds
  {
    if RoundName(t, n) in b.collector.rounds {
      var u, m :| u in b.roundCount && 1 <= m <= b.roundCount[u] && RoundName(t, n) == RoundName(u, m);
      RoundNameIsInjective(t, n, u, m);
    }
  }

  lemma OpenRoundsAfterStart(b: State, c: State, t: Id, n: nat, name: Id)
    requires RoundsRefine(b) && t !in b.activeRound
    requires c.activeRound == b.activeRound[t := name]
    requires c.collector.rounds.Keys == b.collector.rounds.Keys + {name}
    requires forall id :: id in b.collector.rounds && id != name ==> c.collector.rounds[id] == b.collector.rounds[id]
    ensures forall id :: id in c.collector.rounds && c.collector.rounds[id].end.None? ==> id in c.activeRound.Values
  {
    forall id | id in c.collector.rounds && c.collector.rounds[id].end.None?
      ensures id in c.activeRound.Values
    {
      if id == name {
        assert c.activeRound[t] == name;
      } else {
        assert id in b.activeRound.Values;
        var u :| u in b.activeRound && b.activeRound[u] == id;
        assert u in c.activeRound && c.activeRound[u] == id;
      }
    }
  }

  lemma NamesAfterStart(b: State, c: State, t: Id, n: nat)
    requires RoundsRefine(b)
    requires n == NextOrdinal(b, t)
    requires c.roundCount == b.roundCount[t := n]
    requires c.collector.rounds.Keys == b.collector.rounds.Keys + {RoundName(t, n)}
    ensures forall id :: id in c.collector.rounds ==> Named(c, id)
    ensures forall u, m :: u in c.roundCount && 1 <= m <= c.roundCount[u] ==> RoundName(u, m) in c.collector.rounds
  {
    forall u, m | u in c.roundCount && 1 <= m <= c.roundCount[u]
      ensures RoundName(u, m) in c.collector.rounds
    {
      if u != t || m != n {
        assert u in b.roundCount && 1 <= m <= b.roundCount[u];
      }
    }
    forall id | id in c.collector.rounds
      ensures Named(c, id)
    {
      if id == RoundName(t, n) {
        assert t in c.roundCount && 1 <= n <= c.roundCount[t];
      } else {
        assert Named(b, id);
        var u, m :| u in b.roundCount && 1 <= m <= b.roundCount[u] && id == RoundName(u, m);
        assert u in c.roundCount && 1 <= m <= c.roundCount[u];
      }
    }
  }

  lemma OpenRoundRuns(b: State, t: Id, name: Id, now: real)
    requires Lifecycle.Running(b.collector) && !IsBlank(name) && name !in b.collector.rounds
    ensures var e := OpenRound(b, t, name, now);
            && !e.raised && Lifecycle.Running(e.b.collector)
            && e.b.roundCount == b.roundCount[t := NextOrdinal(b, t)] && e.b.activeRound == b.activeRound[t := name]
            && e.b.collector.rounds.Keys == b.collector.rounds.Keys + {name}
            && e.b.collector.rounds[name].end.None?
            && (forall id :: id in b.collector.rounds ==> e.b.collector.rounds[id] == b.collector.rounds[id])
  {
  }

  lemma OpenRoundKeepsRounds(b: State, t: Id, name: Id, now: real)
    requires Lifecycle.Running(b.collector) && RoundsRefine(b) && t !in b.activeRound
    requires name == RoundName(t, NextOrdinal(b, t)) && !IsBlank(name) && name !in b.collector.rounds
    ensures var e := OpenRound(b, t, name, now);
            && !e.raised && RoundsRefine(e.b) && Lifecycle.Running(e.b.collector)
            && b.collector.rounds.Keys <= e.b.collector.rounds.Keys
  {
    var c := OpenRound(b, t, name, now).b;
    OpenRoundRuns(b, t, name, now);
    NamedRoundsRefine(b, c, t, NextOrdinal(b, t));
  }

  lemma NamedRoundsRefine(b: State, c: State, t: Id, n: nat)
    requires RoundsRefine(b) && t !in b.activeRound && n == NextOrdinal(b, t)
    requires c.roundCount == b.roundCount[t := n] && c.activeRound == b.activeRound[t := RoundName(t, n)]
    requires c.collector.rounds.Keys == b.collector.rounds.Keys + {RoundName(t, n)}
    requires c.collector.rounds[RoundName(t, n)].end.None?
    requires forall id :: id in b.collector.rounds ==> c.collector.rounds[id] == b.collector.rounds[id]
    ensures RoundsRefine(c)
  {
    OpenRoundsAfterStart(b, c, t, n, RoundName(t, n));
    NamesAfterStart(b, c, t, n);
  }

  lemma EnsureRoundKeepsRounds(b: State, turn: Option<Id>, now: real)
    requires Lifecycle.Running(b.collector) && RoundsRefine(b)
    ensures var e := EnsureRound(b, turn, now);
            && !e.raised && RoundsRefine(e.b) && Lifecycle.Running(e.b.collector)
            && b.collector.rounds.Keys <= e.b.collector.rounds.Keys
  {
    var resolved := Resolved(b, turn);
    if resolved.Some? && resolved.value !in b.activeRound {
      var t := resolved.value;
      NewNameIsNew(b, t, NextOrdinal(b, t));
      RoundNameIsNotBlank(t, NextOrdinal(b, t));
      OpenRoundKeepsRounds(b, t, RoundName(t, NextOrdinal(b, t)), now);
    }
  }

  lemma SameAttemptsStayLinked(b: State, c: State)
    requires AttemptsRefine(b)
    requires c.attemptRound == b.attemptRound && c.collector.attempts.Keys == b.collector.attempts.Keys
    requires forall a :: a in b.collector.attempts ==> c.collector.attempts[a].round == b.collector.attempts[a].round
    requires c.activeTurn == b.activeTurn && c.announced == b.announced
    requires b.collector.rounds.Keys <= c.collector.rounds.Keys
    ensures AttemptsRefine(c)
  {
    forall a | a in c.attemptRound
      ensures OfAnnouncedTurn(c, c.attemptRound[a])
    {
      assert OfAnnouncedTurn(b, b.attemptRound[a]);
      var t, n :| t in b.announced && b.attemptRound[a] == RoundName(t, n);
      assert t in c.announced;
    }
  }

  lemma EnsureRoundLinks(b: State, turn: Option<Id>, now: real)
    requires Linked(b)
    ensures !EnsureRound(b, turn, now).raised && Linked(EnsureRound(b, turn, now).b)
  {
    EnsureRoundFrame(b, turn, now);
    EnsureRoundKeepsRounds(b, turn, now);
    SameAttemptsStayLinked(b, EnsureRound(b, turn, now).b);
  }

  /** Attempt ids carry no surrounding whitespace, so a blank one is empty. */
  predicate Trimmed(id: Id) {
    id == "" || !IsBlank(id)
  }

  lemma SameRoundEndsStayLinked(b: State, c: State)
    requires RoundsRefine(b)
    requires c.activeRound == b.activeRound && c.roundCount == b.roundCount
    requires c.collector.rounds.Keys == b.collector.rounds.Keys
    requires forall id :: id in b.collector.rounds ==> c.collector.rounds[id].end == b.collector.rounds[id].end
    ensures RoundsRefine(c)
  {
    forall id | id in c.collector.rounds
      ensures Named(c, id)
    {
      assert Named(b, id);
      var t, n :| t in b.roundCount && 1 <= n <= b.roundCount[t] && id == RoundName(t, n);
      assert t in c.roundCount;
    }
  }

  lemma BindFrame(b: State, a: Id, round: Id, now: real)
    ensures var c := BindAttempt(b, a, round, now).b;
            && SameTools(b, c) && c.pending == b.pending && c.collector.rounds == b.collector.rounds
            && c.activeRound == b.activeRound && c.roundCount == b.roundCount
            && c.attemptRound == b.attemptRound[a := round]
            && Lifecycle.Running(c.collector) == Lifecycle.Running(b.collector)
  {
  }

  lemma BindKeepsAttempts(b: State, a: Id, round: Id, now: real)
    requires Lifecycle.Running(b.collector) && AttemptsRefine(b)
    requires !IsBlank(a) && a !in b.attemptRound && round in b.collector.rounds && OfAnnouncedTurn(b, round)
    ensures !BindAttempt(b, a, round, now).raised && AttemptsRefine(BindAttempt(b, a, round, now).b)
  {
    var c := BindAttempt(b, a, round, now).b;
    forall x | x in c.attemptRound
      ensures OfAnnouncedTurn(c, c.attemptRound[x])
    {
      var r := c.attemptRound[x];
      assert OfAnnouncedTurn(b, r);
      var t, n :| t in b.announced && r == RoundName(t, n);
      assert t in c.announced;
    }
  }

  lemma ActiveRoundIsAnnounced(b: State, e: State, now: real)
    requires Linked(b) && b.activeTurn.Some?
    requires e == EnsureRound(b, None, now).b
    ensures RoundOf(e, None).Some? && RoundOf(e, None).value in e.collector.rounds
    ensures OfAnnouncedTurn(e, RoundOf(e, None).value)
  {
    EnsureRoundFrame(b, None, now);
    EnsureRoundKeepsRounds(b, None, now);
    var t := b.activeTurn.value;
    assert t in e.announced && e.activeRound[t] == RoundName(t, e.roundCount[t]);
  }

  lemma StartRowLinks(b: State, row: Row, now: real)
    requires Linked(b) && row.kind.AttemptStart? && !IsBlank(row.attempt)
    ensures var r := Record(b, row, now);
            && !r.raised && Linked(r.b) && SameTools(b, r.b) && r.b.pending == b.pending
            && (!r.done ==> b.activeTurn.None? && r.b == b)
            && b.attemptRound.Keys <= r.b.attemptRound.Keys
  {
    EnsureRoundFrame(b, None, now);
    EnsureRoundLinks(b, None, now);
    var e := EnsureRound(b, None, now).b;
    if b.activeTurn.Some? {
      ActiveRoundIsAnnounced(b, e, now);
      var round := RoundOf(e, None).value;
      if row.attempt !in b.attemptRound {
        BindFrame(e, row.attempt, round, now);
        BindKeepsAttempts(e, row.attempt, round, now);
        SameRoundEndsStayLinked(e, BindAttempt(e, row.attempt, round, now).b);
      }
    }
  }

  lemma TokenFrame(b: State, round: Id, now: real)
    ensures var o := TokenFor(b, round, now); var c := o.b;
            && SameTools(b, c) && c == b.(collector := c.collector) && c.collector.attempts == b.collector.attempts
            && c.collector.rounds.Keys == b.collector.rounds.Keys
            && (forall id :: id in b.collector.rounds ==> c.collector.rounds[id].end == b.collector.rounds[id].end)
            && Lifecycle.Running(c.collector) == Lifecycle.Running(b.collector)
            && (Lifecycle.Running(b.collector) && round in b.collector.rounds && o.raised ==>
                  Tolerated(b.collector, round))
  {
  }

  lemma TokenLinks(b: State, round: Id, now: real)
    requires Linked(b)
    ensures Linked(TokenFor(b, round, now).b)
  {
    var c := TokenFor(b, round, now).b;
    TokenFrame(b, round, now);
    SameAttemptsStayLinked(b, c);
    SameRoundEndsStayLinked(b, c);
  }

  lemma TokenRowIsTokenFor(b: State, row: Row, now: real)
    requires row.kind.FirstToken? && row.attempt != "" && row.attempt in b.attemptRound
    ensures var round := b.attemptRound[row.attempt]; var o := TokenFor(b, round, now);
            Record(b, row, now) == Recording(o.b, true, o.raised && !Tolerated(b.collector, round))
  {
  }

  lemma TokenRowLinks(b: State, row: Row, now: real)
    requires Linked(b) && row.kind.FirstToken? && row.attempt != "" && row.attempt in b.attemptRound
    ensures var r := Record(b, row, now);
            && !r.raised && Linked(r.b) && SameTools(b, r.b) && r.b.pending == b.pending
            && r.b.attemptRound == b.attemptRound
  {
    var round := b.attemptRound[row.attempt];
    TokenRowIsTokenFor(b, row, now);
    assert round in b.collector.rounds;
    TokenLinks(b, round, now);
    TokenFrame(b, round, now);
  }

  lemma EndFrame(b: State, a: Id, status: string, now: real)
    requires !IsBlank(status)
    ensures var o := EndBound(b, a, status, now); var c := o.b;
            && SameTools(b, c) && c == b.(collector := c.collector) && c.collector.rounds == b.collector.rounds
            && c.collector.attempts.Keys == b.collector.attempts.Keys
            && (forall x :: x in b.collector.attempts ==>
                  c.collector.attempts[x].round == b.collector.attempts[x].round)
            && Lifecycle.Running(c.collector) == Lifecycle.Running(b.collector)
            && (o.raised && a in b.collector.attempts ==> b.collector.attempts[a].end.Some?)
  {
  }

  lemma EndLinks(b: State, a: Id, status: string, now: real)
    requires Linked(b) && !IsBlank(status)
    ensures Linked(EndBound(b, a, status, now).b)
  {
    var c := EndBound(b, a, status, now).b;
    EndFrame(b, a, status, now);
    SameAttemptsStayLinked(b, c);
    SameRoundEndsStayLinked(b, c);
  }

  lemma EndRowIsEndBound(b: State, row: Row, now: real)
    requires row.kind.AttemptEnd? && row.attempt != "" && row.attempt in b.attemptRound
    ensures var o := EndBound(b, row.attempt, EndStatus(row), now);
            Record(b, row, now) == Recording(o.b, true, o.raised)
  {
  }

  lemma EndRowLinks(b: State, row: Row, now: real)
    requires Linked(b) && row.kind.AttemptEnd? && row.attempt != "" && row.attempt in b.attemptRound
    ensures var r := Record(b, row, now);
            && Linked(r.b) && SameTools(b, r.b) && r.b.pending == b.pending && r.b.attemptRound == b.attemptRound
            && (r.raised ==> row.attempt in b.collector.attempts && b.collector.attempts[row.attempt].end.Some?)
  {
    EndRowIsEndBound(b, row, now);
    EndLinks(b, row.attempt, EndStatus(row), now);
    EndFrame(b, row.attempt, EndStatus(row), now);
    assert row.attempt in b.collector.attempts;
  }

  /** What recording a row may do, in every case. */
  lemma RecordLinks(b: State, row: Row, now: real)
    requires Linked(b) && Trimmed(row.attempt)
    ensures var r := Record(b, row, now);
            && Linked(r.b) && SameTools(b, r.b) && r.b.pending == b.pending
            && b.attemptRound.Keys <= r.b.attemptRound.Keys
            && (!row.kind.AttemptStart? ==> r.b.attemptRound == b.attemptRound)
            && (!r.done && !r.raised ==> r.b == b && (b.activeTurn.None? || Early(b, row)))
            && (r.raised ==>
                  && row.kind.AttemptEnd?
                  && row.attempt in b.collector.attempts && b.collector.attempts[row.attempt].end.Some?)
  {
    if row.attempt != "" {
      match row.kind
      case AttemptStart => StartRowLinks(b, row, now);
      case FirstToken => if row.attempt in b.attemptRound { TokenRowLinks(b, row, now); }
      case AttemptEnd => if row.attempt in b.attemptRound { EndRowLinks(b, row, now); }
      case Other =>
    }
  }

  ghost predicate AllTrimmed(rows: seq<Row>) {
    forall row :: row in rows ==> Trimmed(row.attempt)
  }

  lemma {:induction false} PassLinks(b: State, rows: seq<Row>, now: real)
    requires Linked(b) && AllTrimmed(rows)
    ensures var p := Pass(b, rows, now);
            && Linked(p.b) && SameTools(b, p.b) && p.b.pending == b.pending
            && b.attemptRound.Keys <= p.b.attemptRound.Keys
            && |p.deferred| <= |rows| && AllTrimmed(p.deferred)
            && (!p.raised && |p.deferred| == |rows| ==> p.b == b && p.deferred == rows)
            && (!p.raised && |p.deferred| == |rows| && b.activeTurn.Some? ==>
                  forall row :: row in rows ==> Early(b, row))
    decreases |rows|
  {
    if rows != [] {
      assert rows == [rows[0]] + rows[1..];
      RecordLinks(b, rows[0], now);
      var r := Record(b, rows[0], now);
      if !r.raised {
        PassLinks(r.b, rows[1..], now);
      }
    }
  }

  /** The retry loop ends, keeps the refinement, and leaves only rows whose attempt has not been seen to start. */
  lemma {:induction false} SweepsLink(b: State, rows: seq<Row>, now: real)
    requires Linked(b) && AllTrimmed(rows) && b.activeTurn.Some? && b.pending == []
    ensures var o := Sweeps(b, rows, now);
            && Linked(o.b) && SameTools(b, o.b) && PendingIsEarly(o.b) && AllTrimmed(o.b.pending)
            && b.attemptRound.Keys <= o.b.attemptRound.Keys
    decreases |rows|
  {
    if rows != [] {
      PassLinks(b, rows, now);
      var p := Pass(b, rows, now);
      if !p.raised && |p.deferred| < |rows| {
        SweepsLink(p.b, p.deferred, now);
      }
    }
  }

  lemma PendingAside(b: State, pending: seq<Row>)
    requires Linked(b)
    ensures Linked(b.(pending := pending))
  {
    SameAttemptsStayLinked(b, b.(pending := pending));
    SameRoundEndsStayLinked(b, b.(pending := pending));
  }

  lemma DrainLinks(b: State, now: real)
    requires Linked(b) && AllTrimmed(b.pending)
    ensures var o := Drain(b, now);
            Linked(o.b) && SameTools(b, o.b) && PendingIsEarly(o.b) && AllTrimmed(o.b.pending)
  {
    if b.activeTurn.Some? && b.pending != [] {
      PendingAside(b, []);
      SweepsLink(b.(pending := []), b.pending, now);
    }
  }

  // ----- Every event keeps the refinement -----

  ghost predicate BridgeInv(b: State) {
    Linked(b) && PendingIsEarly(b) && AllTrimmed(b.pending)
  }

  lemma BackendEventKeepsInv(b: State, row: Row, now: real)
    requires BridgeInv(b) && Trimmed(row.attempt)
    ensures BridgeInv(BackendEvent(b, row, now).b) && SameTools(b, BackendEvent(b, row, now).b)
  {
    PendingAside(b, b.pending + [row]);
    if row.attempt != "" && !(b.activeTurn.None? && row.attempt !in b.attemptRound) {
      RecordLinks(b, row, now);
      DrainLinks(Record(b, row, now).b, now);
    }
  }

  /** Changes to tools only. */
  ghost predicate SameRounds(b: State, c: State) {
    && c.activeTurn == b.activeTurn && c.announced == b.announced && c.activeRound == b.activeRound
    && c.roundCount == b.roundCount && c.attemptRound == b.attemptRound && c.pending == b.pending
    && c.collector.rounds == b.collector.rounds && c.collector.attempts == b.collector.attempts
    && c.collector.terminal == b.collector.terminal && c.collector.closed == b.collector.closed
  }

  lemma SameRoundsKeepInv(b: State, c: State)
    requires BridgeInv(b) && SameRounds(b, c)
    ensures BridgeInv(c)
  {
    SameAttemptsStayLinked(b, c);
    SameRoundEndsStayLinked(b, c);
  }

  lemma ClosingFrame(b: State, t: Id, status: string, now: real)
    requires Linked(b) && t in b.activeRound && !IsBlank(status)
    ensures var o := Closing(b, t, status, now);
            && !o.raised && SameTools(b, o.b) && o.b.pending == b.pending
            && o.b.attemptRound == b.attemptRound && o.b.collector.attempts == b.collector.attempts
            && o.b.activeRound == b.activeRound - {t} && o.b.roundCount == b.roundCount
            && Lifecycle.Running(o.b.collector)
            && o.b.collector.rounds.Keys == b.collector.rounds.Keys
            && o.b.collector.rounds[b.activeRound[t]].end.Some?
            && (forall id :: id in b.collector.rounds && id != b.activeRound[t] ==>
                  o.b.collector.rounds[id] == b.collector.rounds[id])
  {
  }

  lemma ClosingKeepsRounds(b: State, c: State, t: Id)
    requires RoundsRefine(b) && t in b.activeRound
    requires c.activeRound == b.activeRound - {t} && c.roundCount == b.roundCount
    requires c.collector.rounds.Keys == b.collector.rounds.Keys
    requires c.collector.rounds[b.activeRound[t]].end.Some?
    requires forall id :: id in b.collector.rounds && id != b.activeRound[t] ==>
            c.collector.rounds[id] == b.collector.rounds[id]
    ensures RoundsRefine(c)
  {
    var name := b.activeRound[t];
    forall u | u in c.activeRound
      ensures c.activeRound[u] != name
    {
      if b.activeRound[u] == name {
        RoundNameIsInjective(u, b.roundCount[u], t, b.roundCount[t]);
      }
    }
    forall id | id in c.collector.rounds
      ensures Named(c, id)
      ensures c.collector.rounds[id].end.None? ==> id in c.activeRound.Values
    {
      assert Named(b, id);
      var v, n :| v in b.roundCount && 1 <= n <= b.roundCount[v] && id == RoundName(v, n);
      assert v in c.roundCount;
      if c.collector.rounds[id].end.None? {
        assert id in b.activeRound.Values;
        var u :| u in b.activeRound && b.activeRound[u] == id;
        assert u in c.activeRound && c.activeRound[u] == id;
      }
    }
  }

  lemma ClosingKeepsInv(b: State, t: Id, status: string, now: real)
    requires BridgeInv(b) && t in b.activeRound && !IsBlank(status)
    ensures BridgeInv(Closing(b, t, status, now).b) && !Closing(b, t, status, now).raised
  {
    ClosingFrame(b, t, status, now);
    ClosingKeepsRounds(b, Closing(b, t, status, now).b, t);
    SameAttemptsStayLinked(b, Closing(b, t, status, now).b);
  }

  lemma EnsureRoundKeepsInv(b: State, turn: Option<Id>, now: real)
    requires BridgeInv(b)
    ensures BridgeInv(EnsureRound(b, turn, now).b) && !EnsureRound(b, turn, now).raised
  {
    EnsureRoundFrame(b, turn, now);
    EnsureRoundLinks(b, turn, now);
  }

  /** Ids, names and statuses arrive non-blank. */
  predicate WellFormed(ev: Native) {
    match ev
    case FunctionCall(_, callId, itemId, name) =>
      (callId.Some? ==> !IsBlank(callId.value)) && (itemId.Some? ==> !IsBlank(itemId.value)) && !IsBlank(name)
    case FunctionCallOutput(callId) => callId.Some? ==> !IsBlank(callId.value)
    case ItemStarted(_, id, name) => !IsBlank(id) && !IsBlank(name)
    case ItemCompleted(_, id, name, status) => !IsBlank(id) && !IsBlank(name) && !IsBlank(status)
    case _ => true
  }

  lemma CallToolKeepsRounds(b: State, id: Id, r: Lifecycle.Result, phase: ToolPhase)
    requires Lifecycle.TouchesOnlyTool(b.collector, r.state, id)
    ensures SameRounds(b, CallTool(b, id, r, phase).b)
  {
  }

  lemma ItemStartedKeepsRounds(b: State, ev: Native, now: real)
    requires ev.ItemStarted?
    ensures SameRounds(b, OnItemStarted(b, ev, now).b)
  {
    var parent, name := ParentOf(b, ev.turn, ev.id), if ev.id in b.toolPhase then None else Some(ev.name);
    Lifecycle.StartToolWorks(b.collector, ev.id, name, parent, now);
    CallToolKeepsRounds(b, ev.id, Lifecycle.StartTool(b.collector, ev.id, name, parent, true, now), Started);
  }

  lemma ItemCompletedKeepsRounds(b: State, ev: Native, now: real)
    requires ev.ItemCompleted?
    ensures SameRounds(b, OnItemCompleted(b, ev, now).b)
  {
    var parent, name := ParentOf(b, ev.turn, ev.id), if ev.id in b.toolPhase then None else Some(ev.name);
    Lifecycle.EndToolWorks(b.collector, ev.id, ev.status, name, parent, false, now);
    CallToolKeepsRounds(b, ev.id, Lifecycle.EndTool(b.collector, ev.id, ev.status, name, parent, true, false, now),
        Done);
  }

  lemma CallOutputKeepsRounds(b: State, ev: Native, now: real)
    requires ev.FunctionCallOutput?
    ensures SameRounds(b, OnCallOutput(b, ev, now).b)
  {
    if ev.callId.Some? {
      var id := ev.callId.value;
      var parent := if id in b.callParent then Some(b.callParent[id]) else None;
      Lifecycle.EndToolWorks(b.collector, id, "completed", None, parent, true, now);
      CallToolKeepsRounds(b, id, Lifecycle.EndTool(b.collector, id, "completed", None, parent, true, true, now), Done);
    }
  }

  lemma FunctionCallKeepsRounds(b: State, ev: Native, now: real)
    requires ev.FunctionCall? && WellFormed(ev) && Linked(b)
    ensures SameRounds(EnsureRound(b, ev.turn, now).b, OnFunctionCall(b, ev, now).b)
  {
    EnsureRoundLinks(b, ev.turn, now);
    var e := EnsureRound(b, ev.turn, now).b;
    QueueKeepsRounds(e, ev, RoundOf(e, ev.turn), now);
  }

  lemma QueueKeepsRounds(e: State, ev: Native, round: Option<Id>, now: real)
    requires ev.FunctionCall? && WellFormed(ev) && Lifecycle.Running(e.collector)
    ensures round.Some? ==> SameRounds(e, QueueCall(e, ev, round.value, now).b)
  {
    if round.Some? && CallIdOf(ev).Some? {
      var id := CallIdOf(ev).value;
      var b' := e.(callParent := ParentsWith(e.callParent, ev, round.value));
      Lifecycle.QueueToolWorks(b'.collector, id, ev.name, round, now);
      CallToolKeepsRounds(b', id, Lifecycle.QueueTool(b'.collector, id, ev.name, round, true, now), Queued);
    }
  }

  lemma TurnStartKeepsInv(b: State, turn: Id, now: real)
    requires BridgeInv(b)
    ensures BridgeInv(NativeEvent(b, TurnStarted(turn), now).b)
  {
    var b' := b.(activeTurn := Some(turn), announced := b.announced + {turn});
    SameRoundEndsStayLinked(b, b');
    forall a | a in b'.attemptRound
      ensures OfAnnouncedTurn(b', b'.attemptRound[a])
    {
      assert OfAnnouncedTurn(b, b.attemptRound[a]);
      var t, n :| t in b.announced && b.attemptRound[a] == RoundName(t, n);
      assert t in b'.announced;
    }
    DrainLinks(b', now);
  }

  lemma TurnEndKeepsInv(b: State)
    requires BridgeInv(b)
    ensures BridgeInv(b.(activeTurn := None))
  {
    SameRoundEndsStayLinked(b, b.(activeTurn := None));
    forall a | a in b.attemptRound
      ensures OfAnnouncedTurn(b.(activeTurn := None), b.attemptRound[a])
    {
      assert OfAnnouncedTurn(b, b.attemptRound[a]);
    }
  }

  lemma NativeEventKeepsInv(b: State, ev: Native, now: real)
    requires BridgeInv(b) && WellFormed(ev)
    ensures BridgeInv(NativeEvent(b, ev, now).b)
  {
    match ev
    case TurnStarted(turn) => TurnStartKeepsInv(b, turn, now);
    case TurnCompleted(_) => TurnEndKeepsInv(b);
    case FunctionCall(turn, _, _, _) =>
      EnsureRoundKeepsInv(b, turn, now);
      FunctionCallKeepsRounds(b, ev, now);
      SameRoundsKeepInv(EnsureRound(b, turn, now).b, OnFunctionCall(b, ev, now).b);
    case ResponseCompleted(turn) =>
      EnsureRoundKeepsInv(b, turn, now);
      EnsureRoundFrame(b, turn, now);
      CompletionKeepsInv(b, ev, now);
    case FunctionCallOutput(_) =>
      CallOutputKeepsRounds(b, ev, now);
      SameRoundsKeepInv(b, NativeEvent(b, ev, now).b);
    case ItemStarted(_, _, _) =>
      ItemStartedKeepsRounds(b, ev, now);
      SameRoundsKeepInv(b, NativeEvent(b, ev, now).b);
    case ItemCompleted(_, _, _, _) =>
      ItemCompletedKeepsRounds(b, ev, now);
      SameRoundsKeepInv(b, NativeEvent(b, ev, now).b);
    case OtherNative =>
  }

  lemma CompletionKeepsInv(b: State, ev: Native, now: real)
    requires ev.ResponseCompleted? && BridgeInv(EnsureRound(b, ev.turn, now).b)
    ensures BridgeInv(OnResponseCompleted(b, ev, now).b)
  {
    var e, resolved := EnsureRound(b, ev.turn, now).b, Resolved(b, ev.turn);
    assert !IsSpace("completed"[0]);
    if resolved.Some? && resolved.value in e.activeRound {
      ClosingKeepsInv(e, resolved.value, "completed", now);
    }
  }

  lemma {:induction false} CloseRoundsKeepsInv(b: State, turns: seq<Id>, status: string, now: real)
    requires BridgeInv(b) && !IsBlank(status)
    requires Distinct(turns) && Elements(turns) <= b.activeRound.Keys
    ensures forall t :: t in turns ==> t in b.activeRound
    ensures var o := CloseRounds(b, turns, status, now);
            && !o.raised && BridgeInv(o.b) && SameTools(b, o.b)
            && o.b.activeRound.Keys == b.activeRound.Keys - Elements(turns)
    decreases |turns|
  {
    assert forall t :: t in turns ==> t in Elements(turns);
    if turns != [] {
      var c := Closing(b, turns[0], status, now).b;
      ClosingKeepsInv(b, turns[0], status, now);
      ClosingFrame(b, turns[0], status, now);
      TailElements(turns);
      CloseRoundsKeepsInv(c, turns[1..], status, now);
    }
  }

  lemma TailElements(turns: seq<Id>)
    requires turns != [] && Distinct(turns)
    ensures Elements(turns) == {turns[0]} + Elements(turns[1..]) && turns[0] !in Elements(turns[1..])
    ensures Distinct(turns[1..])
  {
    assert turns == [turns[0]] + turns[1..];
  }

  /** An abnormal closure ends every open round and forgets what could not be bound. */
  lemma ClosureEndsEveryRound(b: State, turns: seq<Id>, status: string, now: real)
    requires BridgeInv(b) && !IsBlank(status)
    requires Distinct(turns) && Elements(turns) == b.activeRound.Keys
    ensures forall t :: t in turns ==> t in b.activeRound
    ensures var o := CloseActiveRounds(b, turns, status, now);
            && !o.raised && BridgeInv(o.b) && o.b.pending == [] && o.b.activeRound == map[]
            && (forall id :: id in o.b.collector.rounds ==> o.b.collector.rounds[id].end.Some?)
  {
    CloseRoundsKeepsInv(b, turns, status, now);
    var c := CloseRounds(b, turns, status, now).b;
    PendingAside(c, []);
    TurnEndKeepsInv(c.(pending := []));
    assert c.activeRound.Keys == {};
    assert forall id :: id in c.collector.rounds && c.collector.rounds[id].end.None? ==> id in c.activeRound.Values;
  }

  // ----- Tools -----

  /** The event after which the bridge calls a finished tool running again, without the collector. */
  predicate RestartsFinishedTool(b: State, ev: Native) {
    ev.ItemStarted? && ev.id in b.toolPhase && b.toolPhase[ev.id].Done?
  }

  /** The bridge calls the tool running, and the collector has its end. */
  ghost predicate Broken(b: State, id: Id) {
    && id in b.toolPhase && b.toolPhase[id].Started?
    && id in b.collector.tools && b.collector.tools[id].end.Some?
  }

  /** Every tool is mirrored, or was started again after its end. */
  ghost predicate ToolsKnown(b: State) {
    forall id :: Mirrored(b, id) || Broken(b, id)
  }

  /** From `b` to `c` this tool breaks exactly if the event restarts it, and never mends. */
  ghost predicate Follows(b: State, c: State, id: Id, restarted: bool) {
    Mirrored(b, id) || Broken(b, id) ==>
      (Mirrored(c, id) || Broken(c, id)) && (Broken(c, id) <==> Broken(b, id) || restarted)
  }

  lemma CallToolFollows(b: State, id: Id, r: Lifecycle.Result, phase: ToolPhase, x: Id)
    requires Lifecycle.TouchesOnlyTool(b.collector, r.state, id)
    requires r.ok ==> id in r.state.tools && ToolRefines(phase, r.state.tools[id]) && !Broken(b, id)
    requires !r.ok ==> r.state == b.collector
    ensures Follows(b, CallTool(b, id, r, phase).b, x, false) && CallTool(b, id, r, phase).raised == !r.ok
  {
  }

  lemma StartedToolFollows(b: State, ev: Native, x: Id, now: real)
    requires Lifecycle.Running(b.collector) && WellFormed(ev) && ev.ItemStarted?
    requires Mirrored(b, ev.id) || Broken(b, ev.id)
    ensures Follows(b, OnItemStarted(b, ev, now).b, x, RestartsFinishedTool(b, ev) && ev.id == x)
    ensures !OnItemStarted(b, ev, now).raised
  {
    var parent, name := ParentOf(b, ev.turn, ev.id), if ev.id in b.toolPhase then None else Some(ev.name);
    if ev.id !in b.toolPhase || b.toolPhase[ev.id].Queued? {
      Lifecycle.StartToolWorks(b.collector, ev.id, name, parent, now);
      CallToolFollows(b, ev.id, Lifecycle.StartTool(b.collector, ev.id, name, parent, true, now), Started, x);
    }
  }

  lemma EndedToolFollows(b: State, id: Id, status: string, name: Option<string>, parent: Option<Id>,
        atOnce: bool, x: Id, now: real)
    requires Lifecycle.Running(b.collector) && !IsBlank(id) && !IsBlank(status)
    requires Mirrored(b, id) || Broken(b, id)
    requires id in b.toolPhase ==> !b.toolPhase[id].Done?
    requires id !in b.toolPhase ==> name.Some? && !IsBlank(name.value)
    ensures var o := CallTool(b, id, Lifecycle.EndTool(b.collector, id, status, name, parent, true, atOnce, now), Done);
            Follows(b, o.b, x, false) && (o.raised <==> Broken(b, id))
  {
    Lifecycle.EndToolWorks(b.collector, id, status, name, parent, atOnce, now);
    CallToolFollows(b, id, Lifecycle.EndTool(b.collector, id, status, name, parent, true, atOnce, now), Done, x);
  }

  lemma CompletedToolFollows(b: State, ev: Native, x: Id, now: real)
    requires Lifecycle.Running(b.collector) && WellFormed(ev) && ev.ItemCompleted?
    requires Mirrored(b, ev.id) || Broken(b, ev.id)
    ensures Follows(b, OnItemCompleted(b, ev, now).b, x, false)
    ensures OnItemCompleted(b, ev, now).raised <==> Broken(b, ev.id)
  {
    var parent, name := ParentOf(b, ev.turn, ev.id), if ev.id in b.toolPhase then None else Some(ev.name);
    if ev.id !in b.toolPhase || !b.toolPhase[ev.id].Done? {
      EndedToolFollows(b, ev.id, ev.status, name, parent, false, x, now);
    }
  }

  lemma AnsweredToolFollows(b: State, ev: Native, x: Id, now: real)
    requires Lifecycle.Running(b.collector) && WellFormed(ev) && ev.FunctionCallOutput?
    requires ev.callId.Some? ==> Mirrored(b, ev.callId.value) || Broken(b, ev.callId.value)
    ensures Follows(b, OnCallOutput(b, ev, now).b, x, false)
    ensures OnCallOutput(b, ev, now).raised <==> ev.callId.Some? && Broken(b, ev.callId.value)
  {
    assert !IsSpace("completed"[0]);
    if ev.callId.Some? && ev.callId.value in b.toolPhase && !b.toolPhase[ev.callId.value].Done? {
      var id := ev.callId.value;
      var parent := if id in b.callParent then Some(b.callParent[id]) else None;
      EndedToolFollows(b, id, "completed", None, parent, true, x, now);
    }
  }

  lemma QueueCallFollows(e: State, ev: Native, round: Id, x: Id, now: real)
    requires Lifecycle.Running(e.collector) && WellFormed(ev) && ev.FunctionCall? && ToolsKnown(e)
    ensures Follows(e, QueueCall(e, ev, round, now).b, x, false) && !QueueCall(e, ev, round, now).raised
  {
    if CallIdOf(ev).Some? {
      var id, b' := CallIdOf(ev).value, e.(callParent := ParentsWith(e.callParent, ev, round));
      assert Mirrored(e, id) || Broken(e, id);
      if id !in e.toolPhase {
        Lifecycle.QueueToolWorks(b'.collector, id, ev.name, Some(round), now);
        CallToolFollows(b', id, Lifecycle.QueueTool(b'.collector, id, ev.name, Some(round), true, now), Queued, x);
      }
    }
  }

  lemma SameToolsFollow(b: State, c: State, x: Id)
    requires SameTools(b, c)
    ensures Follows(b, c, x, false) && (ToolsKnown(b) ==> ToolsKnown(c))
  {
    forall id | ToolsKnown(b)
      ensures Mirrored(c, id) || Broken(c, id)
    {
      assert Mirrored(b, id) || Broken(b, id);
    }
  }

  lemma QueuedToolFollows(b: State, ev: Native, x: Id, now: real)
    requires Linked(b) && WellFormed(ev) && ev.FunctionCall? && ToolsKnown(b)
    ensures Follows(b, OnFunctionCall(b, ev, now).b, x, false) && !OnFunctionCall(b, ev, now).raised
  {
    EnsureRoundLinks(b, ev.turn, now);
    EnsureRoundFrame(b, ev.turn, now);
    var e := EnsureRound(b, ev.turn, now).b;
    SameToolsFollow(b, e, x);
    if RoundOf(e, ev.turn).Some? {
      QueueCallFollows(e, ev, RoundOf(e, ev.turn).value, x, now);
    }
  }

  lemma TurnStartLinks(b: State, turn: Id)
    requires Linked(b)
    ensures Linked(b.(activeTurn := Some(turn), announced := b.announced + {turn}))
  {
    var b' := b.(activeTurn := Some(turn), announced := b.announced + {turn});
    SameRoundEndsStayLinked(b, b');
    forall a | a in b'.attemptRound
      ensures OfAnnouncedTurn(b', b'.attemptRound[a])
    {
      assert OfAnnouncedTurn(b, b.attemptRound[a]);
      var t, n :| t in b.announced && b.attemptRound[a] == RoundName(t, n);
      assert t in b'.announced;
    }
  }

  lemma TurnStartFollows(b: State, turn: Id, x: Id, now: real)
    requires BridgeInv(b)
    ensures Follows(b, NativeEvent(b, TurnStarted(turn), now).b, x, false)
  {
    var c := b.(activeTurn := Some(turn), announced := b.announced + {turn});
    TurnStartLinks(b, turn);
    DrainLinks(c, now);
    SameToolsFollow(c, Drain(c, now).b, x);
  }

  lemma CompletionFollows(b: State, ev: Native, x: Id, now: real)
    requires Linked(b) && ev.ResponseCompleted?
    ensures Follows(b, OnResponseCompleted(b, ev, now).b, x, false) && !OnResponseCompleted(b, ev, now).raised
  {
    EnsureRoundFrame(b, ev.turn, now);
    EnsureRoundLinks(b, ev.turn, now);
    var e, resolved := EnsureRound(b, ev.turn, now).b, Resolved(b, ev.turn);
    SameToolsFollow(b, e, x);
    assert !IsSpace("completed"[0]);
    if resolved.Some? {
      ClosingFrame(e, resolved.value, "completed", now);
      SameToolsFollow(e, OnResponseCompleted(b, ev, now).b, x);
    }
  }

  /** Over a native event a tool breaks exactly if the event restarts it after its end; it never mends. */
  lemma NativeEventFollows(b: State, ev: Native, x: Id, now: real)
    requires BridgeInv(b) && WellFormed(ev) && ToolsKnown(b)
    ensures Follows(b, NativeEvent(b, ev, now).b, x, RestartsFinishedTool(b, ev) && ev.id == x)
  {
    match ev
    case TurnStarted(turn) => TurnStartFollows(b, turn, x, now);
    case TurnCompleted(_) =>
    case FunctionCall(_, _, _, _) => QueuedToolFollows(b, ev, x, now);
    case FunctionCallOutput(_) => AnsweredToolFollows(b, ev, x, now);
    case ResponseCompleted(_) => CompletionFollows(b, ev, x, now);
    case ItemStarted(_, _, _) => StartedToolFollows(b, ev, x, now);
    case ItemCompleted(_, _, _, _) => CompletedToolFollows(b, ev, x, now);
    case OtherNative =>
  }

  /** The report of a tool's end, for a tool restarted after its end. */
  ghost predicate EndsBrokenTool(b: State, ev: Native) {
    match ev
    case ItemCompleted(_, id, _, _) => Broken(b, id)
    case FunctionCallOutput(callId) => callId.Some? && Broken(b, callId.value)
    case _ => false
  }

  /** Apart from a turn's start, a native event raises exactly when it ends a tool that was restarted. */
  lemma ToolEventRaisesExactlyWhenBroken(b: State, ev: Native, now: real)
    requires BridgeInv(b) && WellFormed(ev) && ToolsKnown(b) && !ev.TurnStarted?
    ensures NativeEvent(b, ev, now).raised <==> EndsBrokenTool(b, ev)
  {
    match ev
    case TurnCompleted(_) =>
    case FunctionCall(_, _, _, _) => QueuedToolFollows(b, ev, "", now);
    case FunctionCallOutput(_) => AnsweredToolFollows(b, ev, "", now);
    case ResponseCompleted(_) => CompletionFollows(b, ev, "", now);
    case ItemStarted(_, _, _) => StartedToolFollows(b, ev, "", now);
    case ItemCompleted(_, _, _, _) => CompletedToolFollows(b, ev, "", now);
    case OtherNative =>
  }

  /** Tool phases mirror the collector after an event exactly when it does not restart a finished tool. */
  lemma ToolsStayRefinedUnlessRestarted(b: State, ev: Native, now: real)
    requires BridgeInv(b) && ToolsRefine(b) && WellFormed(ev)
    ensures ToolsRefine(NativeEvent(b, ev, now).b) <==> !RestartsFinishedTool(b, ev)
  {
    var c := NativeEvent(b, ev, now).b;
    if RestartsFinishedTool(b, ev) {
      NativeEventFollows(b, ev, ev.id, now);
      assert !Mirrored(c, ev.id);
    } else {
      forall x
        ensures Mirrored(c, x)
      {
        NativeEventFollows(b, ev, x, now);
        assert Mirrored(b, x);
      }
    }
  }

  // ----- Whole runs, before the terminal event -----

  datatype Event = FromNative(ev: Native) | FromProxy(row: Row) | Closure(turns: seq<Id>, status: string)

  ghost predicate Enabled(b: State, e: Event) {
    match e
    case FromNative(ev) => WellFormed(ev)
    case FromProxy(row) => Trimmed(row.attempt)
    case Closure(turns, status) => Distinct(turns) && Elements(turns) == b.activeRound.Keys && !IsBlank(status)
  }

  ghost function Step(b: State, e: Event, now: real): State {
    match e
    case FromNative(ev) => NativeEvent(b, ev, now).b
    case FromProxy(row) => BackendEvent(b, row, now).b
    case Closure(turns, status) =>
      if Distinct(turns) && Elements(turns) == b.activeRound.Keys && (forall t :: t in turns ==> t in b.activeRound)
      then CloseActiveRounds(b, turns, status, now).b else b
  }

  datatype Timed = Timed(event: Event, at: real)

  ghost predicate IsRun(b: State, events: seq<Timed>)
    decreases |events|
  {
    events == [] || (Enabled(b, events[0].event) && IsRun(Step(b, events[0].event, events[0].at), events[1..]))
  }

  ghost function Execute(b: State, events: seq<Timed>): State
    decreases |events|
  {
    if events == [] then b else Execute(Step(b, events[0].event, events[0].at), events[1..])
  }

  predicate RestartsIt(b: State, e: Event, id: Id) {
    e.FromNative? && RestartsFinishedTool(b, e.ev) && e.ev.id == id
  }

  /** Somewhere in the run, this tool is started again after its end. */
  ghost predicate Restarted(b: State, events: seq<Timed>, id: Id)
    decreases |events|
  {
    && events != []
    && (RestartsIt(b, events[0].event, id) || Restarted(Step(b, events[0].event, events[0].at), events[1..], id))
  }

  lemma StepKeepsInv(b: State, e: Event, now: real)
    requires BridgeInv(b) && Enabled(b, e)
    ensures BridgeInv(Step(b, e, now))
  {
    match e
    case FromNative(ev) => NativeEventKeepsInv(b, ev, now);
    case FromProxy(row) => BackendEventKeepsInv(b, row, now);
    case Closure(turns, status) => ClosureEndsEveryRound(b, turns, status, now);
  }

  lemma StepFollows(b: State, e: Event, x: Id, now: real)
    requires BridgeInv(b) && Enabled(b, e) && ToolsKnown(b)
    ensures Follows(b, Step(b, e, now), x, RestartsIt(b, e, x))
  {
    match e
    case FromNative(ev) => NativeEventFollows(b, ev, x, now);
    case FromProxy(row) =>
      BackendEventKeepsInv(b, row, now);
      SameToolsFollow(b, BackendEvent(b, row, now).b, x);
    case Closure(turns, status) =>
      ClosureEndsEveryRound(b, turns, status, now);
      CloseRoundsKeepsInv(b, turns, status, now);
      SameToolsFollow(b, CloseRounds(b, turns, status, now).b, x);
  }

  lemma {:induction false} RunKeepsInv(b: State, events: seq<Timed>)
    requires BridgeInv(b) && IsRun(b, events)
    ensures BridgeInv(Execute(b, events))
    decreases |events|
  {
    if events != [] {
      StepKeepsInv(b, events[0].event, events[0].at);
      RunKeepsInv(Step(b, events[0].event, events[0].at), events[1..]);
    }
  }

  lemma {:induction false} RunBreaksExactlyRestarted(b: State, events: seq<Timed>, id: Id)
    requires BridgeInv(b) && ToolsKnown(b) && IsRun(b, events)
    ensures ToolsKnown(Execute(b, events))
    ensures Broken(Execute(b, events), id) <==> Broken(b, id) || Restarted(b, events, id)
    decreases |events|
  {
    if events != [] {
      var e := events[0];
      var c := Step(b, e.event, e.at);
      StepKeepsInv(b, e.event, e.at);
      forall x
        ensures Mirrored(c, x) || Broken(c, x)
        ensures Broken(c, x) <==> Broken(b, x) || RestartsIt(b, e.event, x)
      {
        StepFollows(b, e.event, x, e.at);
        assert Mirrored(b, x) || Broken(b, x);
      }
      RunBreaksExactlyRestarted(c, events[1..], id);
    }
  }

  /** Over every run, a tool is mirrored unless it was started again after its end; from then on it stays broken. */
  lemma ToolIsMirroredUnlessRestarted(events: seq<Timed>, id: Id)
    requires IsRun(Initial, events)
    ensures var b := Execute(Initial, events);
            && (Mirrored(b, id) <==> !Restarted(Initial, events, id))
            && (Broken(b, id) <==> Restarted(Initial, events, id))
  {
    assert BridgeInv(Initial) && ToolsKnown(Initial);
    RunBreaksExactlyRestarted(Initial, events, id);
    assert Mirrored(Execute(Initial, events), id) || Broken(Execute(Initial, events), id);
  }

  /** The whole-run theorem, for every interleaving of native events, proxy events and closures. */
  lemma BridgeRefinesCollector(events: seq<Timed>)
    requires IsRun(Initial, events)
    ensures var b := Execute(Initial, events);
            && b.activeRound.Values == (set id | id in b.collector.rounds && b.collector.rounds[id].end.None?)
            && (forall id :: id in b.collector.rounds <==> Named(b, id))
            && b.attemptRound.Keys == b.collector.attempts.Keys
            && (forall a :: a in b.attemptRound ==>
                  b.collector.attempts[a].round == b.attemptRound[a] && OfAnnouncedTurn(b, b.attemptRound[a]))
            && PendingIsEarly(b)
            && (forall id :: Mirrored(b, id) <==> !Restarted(Initial, events, id))
  {
    assert BridgeInv(Initial);
    RunKeepsInv(Initial, events);
    forall id
      ensures Mirrored(Execute(Initial, events), id) <==> !Restarted(Initial, events, id)
    {
      ToolIsMirroredUnlessRestarted(events, id);
    }
  }

  /** A run that restarts a finished tool; reporting its end once more then raises. */
  lemma RestartedToolExample(name: string, status: string, at: real)
    requires !IsBlank(name) && !IsBlank(status)
    ensures var done := ItemCompleted(None, "x", name, status);
            var events := [Timed(FromNative(done), at), Timed(FromNative(ItemStarted(None, "x", name)), at)];
            && IsRun(Initial, events) && Broken(Execute(Initial, events), "x")
            && NativeEvent(Execute(Initial, events), done, at).raised
  {
    var done, again := ItemCompleted(None, "x", name, status), ItemStarted(None, "x", name);
    assert !IsSpace("x"[0]);
    var b := NativeEvent(Initial, done, at).b;
    var c := NativeEvent(b, again, at).b;
    assert b.toolPhase["x"].Done? && b.collector.tools["x"].end.Some?;
    assert c.toolPhase["x"].Started? && c.collector == b.collector;
    var events := [Timed(FromNative(done), at), Timed(FromNative(again), at)];
    assert events[1..] == [Timed(FromNative(again), at)] && events[1..][1..] == [];
    assert Execute(Initial, events) == Execute(b, events[1..]) == Execute(c, []) == c;
  }

  // ----- The retry loop as the code runs it -----

  method DrainPending(b0: State, now: real) returns (b: State, raised: bool)
    ensures Out(b, raised) == Drain(b0, now)
  {
    b, raised := b0, false;
    if b.activeTurn.None? || b.pending == [] {
      return;
    }
    var pending := b.pending;
    b := b.(pending := []);
    while pending != []
      invariant !raised && Sweeps(b, pending, now) == Drain(b0, now)
      decreases |pending|
    {
      PassNeverGrows(b, pending, now);
      var p := SweepOnce(b, pending, now);
      b := p.b;
      if p.raised {
        raised := true;
        return;
      }
      var progress := |p.deferred| != |pending|;
      if !progress {
        b := b.(pending := b.pending + p.deferred);
        return;
      }
      pending := p.deferred;
    }
  }

  method SweepOnce(b0: State, rows: seq<Row>, now: real) returns (p: PassResult)
    ensures p == Pass(b0, rows, now)
  {
    var b := b0;
    var deferred: seq<Row> := [];
    var i := 0;
    assert rows[0..] == rows;
    while i < |rows|
      invariant 0 <= i <= |rows|
      invariant Pass(b0, rows, now) == Prefixed(deferred, Pass(b, rows[i..], now))
    {
      ghost var rest := Pass(b, rows[i..], now);
      var r := Record(b, rows[i], now);
      assert rows[i..][1..] == rows[i + 1..];
      b := r.b;
      if r.raised {
        return PassResult(b, deferred, true);
      }
      if !r.done {
        assert deferred + ([rows[i]] + Pass(b, rows[i + 1..], now).deferred)
            == (deferred + [rows[i]]) + Pass(b, rows[i + 1..], now).deferred;
        deferred := deferred + [rows[i]];
      }
      i := i + 1;
    }
    return PassResult(b, deferred, false);
  }

  function Prefixed(deferred: seq<Row>, p: PassResult): PassResult {
    p.(deferred := deferred + p.deferred)
  }
}
