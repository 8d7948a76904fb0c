/**
 Which turn the bridge takes for the active one, said on the events alone, and to which turn's round it binds
 each attempt.
 */
module BridgeTurns {
  import opened Sequences
  import opened Bridge
  import opened BridgeEnds
  import Lifecycle
  import Text

  // ----- Runs, one event more -----

  lemma {:induction false} RunMore(b: State, events: seq<Timed>, e: Timed)
    requires IsRun(b, events + [e])
    ensures IsRun(b, events) && Enabled(Execute(b, events), e.event)
    ensures Execute(b, events + [e]) == Step(Execute(b, events), e.event, e.at)
    decreases |events|
  {
    var all := events + [e];
    if events == [] {
      assert all == [e] && all[1..] == [];
      assert Execute(Step(b, e.event, e.at), []) == Step(b, e.event, e.at);
    } else {
      assert all[0] == events[0] && all[1..] == events[1..] + [e];
      RunMore(Step(b, events[0].event, events[0].at), events[1..], e);
    }
  }

  lemma ReachableInv(events: seq<Timed>)
    requires IsRun(Initial, events)
    ensures BridgeInv(Execute(Initial, events))
  {
    assert BridgeInv(Initial);
    RunKeepsInv(Initial, events);
  }

  // ----- The active turn, on the events alone -----

  predicate Starts(e: Event, turn: Id) {
    e.FromNative? && e.ev == TurnStarted(turn)
  }

  /** The turn is over: it is completed, another one starts, or the frontend closes. */
  predicate Ends(e: Event, turn: Id) {
    || e.Closure?
    || (e.FromNative? && (e.ev.TurnStarted? || e.ev == TurnCompleted(Some(turn))))
  }

  ghost predicate StartedAt(events: seq<Timed>, turn: Id, k: nat) {
    k < |events| && Starts(events[k].event, turn) && forall j :: k < j < |events| ==> !Ends(events[j].event, turn)
  }

  /** The turn has started, and nothing has ended it since. */
  ghost predicate IsActive(events: seq<Timed>, turn: Id) {
    exists k :: StartedAt(events, turn, k)
  }

  lemma StartedBeforeOrNow(events: seq<Timed>, e: Timed, turn: Id, k: nat)
    requires StartedAt(events + [e], turn, k)
    ensures if k == |events| then Starts(e.event, turn) else StartedAt(events, turn, k) && !Ends(e.event, turn)
  {
    var all, n := events + [e], |events|;
    assert all[n] == e && forall j :: 0 <= j < n ==> all[j] == events[j];
    assert k < n ==> !Ends(all[n].event, turn);
  }

  lemma ActiveAfterMore(events: seq<Timed>, e: Timed, turn: Id)
    ensures IsActive(events + [e], turn) <==> Starts(e.event, turn) || (IsActive(events, turn) && !Ends(e.event, turn))
  {
    var all, n := events + [e], |events|;
    assert all[n] == e && forall j :: 0 <= j < n ==> all[j] == events[j];
    if Starts(e.event, turn) {
      assert StartedAt(all, turn, n);
    } else if IsActive(events, turn) && !Ends(e.event, turn) {
      var k: nat :| StartedAt(events, turn, k);
      assert StartedAt(all, turn, k);
    }
    if IsActive(all, turn) {
      var k: nat :| StartedAt(all, turn, k);
      StartedBeforeOrNow(events, e, turn, k);
    }
  }

  /** What an event does to the active turn. */
  ghost predicate TurnMoves(b: State, e: Event, c: State) {
    match e
    case FromNative(ev) =>
      if ev.TurnStarted? then c.activeTurn == Some(ev.turnId)
      else if ev.TurnCompleted? && ev.turn == b.activeTurn then c.activeTurn == None
      else c.activeTurn == b.activeTurn
    case FromProxy(_) => c.activeTurn == b.activeTurn
    case Closure(_, _) => c.activeTurn == None
  }

  lemma ToolEventKeepsTurn(b: State, ev: Native, now: real)
    requires ev.FunctionCallOutput? || ev.ItemStarted? || ev.ItemCompleted?
    ensures NativeEvent(b, ev, now).b.activeTurn == b.activeTurn
  {
    if ev.FunctionCallOutput? {
      CallOutputKeepsRounds(b, ev, now);
    } else if ev.ItemStarted? {
      ItemStartedKeepsRounds(b, ev, now);
    } else {
      ItemCompletedKeepsRounds(b, ev, now);
    }
  }

  lemma NativeMovesTurn(b: State, ev: Native, now: real)
    requires BridgeInv(b) && WellFormed(ev)
    ensures TurnMoves(b, FromNative(ev), NativeEvent(b, ev, now).b)
  {
    if ev.TurnStarted? {
      TurnStartLinks(b, ev.turnId);
      DrainLinks(b.(activeTurn := Some(ev.turnId), announced := b.announced + {ev.turnId}), now);
    } else if ev.FunctionCall? {
      EnsureRoundFrame(b, ev.turn, now);
      FunctionCallKeepsRounds(b, ev, now);
    } else if ev.ResponseCompleted? {
      CompletionKeepsTurn(b, ev, now);
    } else if ev.FunctionCallOutput? || ev.ItemStarted? || ev.ItemCompleted? {
      ToolEventKeepsTurn(b, ev, now);
    }
  }

  /** Nothing about turns, attempts or the buffer. */
  ghost predicate SameTurns(b: State, c: State) {
    c.activeTurn == b.activeTurn && c.attemptRound == b.attemptRound && c.pending == b.pending
  }

  lemma EnsureRoundKeepsTurns(b: State, turn: Option<Id>, now: real)
    ensures SameTurns(b, EnsureRound(b, turn, now).b)
  {
    EnsureRoundFrame(b, turn, now);
  }

  lemma ClosingKeepsTurns(e: State, t: Id, now: real)
    requires t in e.activeRound
    ensures SameTurns(e, Closing(e, t, "completed", now).b)
  {
  }

  lemma CompletionKeepsTurn(b: State, ev: Native, now: real)
    requires ev.ResponseCompleted?
    ensures SameTurns(b, OnResponseCompleted(b, ev, now).b)
  {
    EnsureRoundKeepsTurns(b, ev.turn, now);
    CompletionClosesOrNot(b, EnsureRound(b, ev.turn, now), ev, now);
  }

  lemma CompletionClosesOrNot(b: State, e: Out, ev: Native, now: real)
    requires ev.ResponseCompleted? && e == EnsureRound(b, ev.turn, now)
    ensures SameTurns(e.b, OnResponseCompleted(b, ev, now).b)
  {
    var resolved := Resolved(b, ev.turn);
    if resolved.Some? && resolved.value in e.b.activeRound {
      ClosingKeepsTurns(e.b, resolved.value, now);
    }
  }

  lemma EventMovesTurn(b: State, e: Event, now: real)
    requires BridgeInv(b) && Enabled(b, e)
    ensures TurnMoves(b, e, Step(b, e, now))
  {
    match e
    case FromNative(ev) => NativeMovesTurn(b, ev, now);
    case FromProxy(row) => BackendEventKeepsInv(b, row, now);
    case Closure(turns, status) => ClosureEndsEveryRound(b, turns, status, now);
  }

  /** Over every run: the bridge holds a turn for active exactly when the events say so. */
  lemma {:induction false} ActiveTurnIsRight(events: seq<Timed>, turn: Id)
    requires IsRun(Initial, events)
    ensures Execute(Initial, events).activeTurn == Some(turn) <==> IsActive(events, turn)
  {
    if events != [] {
      var init, last := events[..|events| - 1], events[|events| - 1];
      assert events == init + [last];
      RunMore(Initial, init, last);
      ActiveTurnIsRight(init, turn);
      ReachableInv(init);
      EventMovesTurn(Execute(Initial, init), last.event, last.at);
      ActiveAfterMore(init, last, turn);
    }
  }

  // ----- Rounds are opened in turn -----

  /** The bound rounds of attempts that are new in c: the round open for the active turn. */
  ghost predicate BindsToActive(b: State, c: State) {
    && (forall a <- b.attemptRound :: a in c.attemptRound && c.attemptRound[a] == b.attemptRound[a])
    && (forall a <- c.attemptRound :: a !in b.attemptRound ==> BoundToActive(c, c.attemptRound[a]))
  }

  ghost predicate BoundToActive(c: State, round: Id) {
    && c.activeTurn.Some? && c.activeTurn.value in c.activeRound && round == c.activeRound[c.activeTurn.value]
  }

  lemma EnsureRoundKeepsOpen(b: State, turn: Option<Id>, now: real)
    ensures var e := EnsureRound(b, turn, now).b;
            e.activeTurn == b.activeTurn && forall t <- b.activeRound :: t in e.activeRound
                                                                        && e.activeRound[t] == b.activeRound[t]
  {
  }

  /** Recording rows opens rounds for the active turn only, and binds to them only. */
  ghost predicate Binds(b: State, c: State) {
    && BindsToActive(b, c) && c.activeTurn == b.activeTurn
    && (forall t <- b.activeRound :: t in c.activeRound && c.activeRound[t] == b.activeRound[t])
  }

  lemma EnsureRoundBinds(b: State, now: real)
    ensures Binds(b, EnsureRound(b, None, now).b)
  {
    EnsureRoundFrame(b, None, now);
    EnsureRoundKeepsOpen(b, None, now);
  }

  lemma BindAttemptBinds(e: State, a: Id, round: Id, now: real)
    requires BoundToActive(e, round) && a !in e.attemptRound
    ensures Binds(e, BindAttempt(e, a, round, now).b)
  {
    BindFrame(e, a, round, now);
  }

  lemma StartRowBindsToActive(b: State, row: Row, now: real)
    requires row.kind.AttemptStart? && row.attempt != ""
    ensures Binds(b, Record(b, row, now).b)
  {
    EnsureRoundBinds(b, now);
    EnsureRoundFrame(b, None, now);
    var e := EnsureRound(b, None, now);
    if !e.raised && RoundOf(e.b, None).Some? && row.attempt !in b.attemptRound {
      BindAttemptBinds(e.b, row.attempt, RoundOf(e.b, None).value, now);
      BindsTransitively(b, e.b, BindAttempt(e.b, row.attempt, RoundOf(e.b, None).value, now).b);
    }
  }

  lemma RecordBinds(b: State, row: Row, now: real)
    requires Linked(b) && Trimmed(row.attempt)
    ensures Binds(b, Record(b, row, now).b)
  {
    if row.attempt != "" {
      match row.kind
      case AttemptStart => StartRowBindsToActive(b, row, now);
      case FirstToken =>
        if row.attempt in b.attemptRound {
          TokenRowIsTokenFor(b, row, now);
          TokenFrame(b, b.attemptRound[row.attempt], now);
        }
      case AttemptEnd =>
        if row.attempt in b.attemptRound {
          EndRowIsEndBound(b, row, now);
          EndFrame(b, row.attempt, EndStatus(row), now);
        }
      case Other =>
    }
  }

  lemma BindsTransitively(b: State, c: State, d: State)
    requires Binds(b, c) && Binds(c, d)
    ensures Binds(b, d)
  {
  }

  lemma {:induction false} PassBinds(b: State, rows: seq<Row>, now: real)
    requires Linked(b) && AllTrimmed(rows)
    ensures Binds(b, Pass(b, rows, now).b)
    decreases |rows|
  {
    if rows != [] {
      assert rows == [rows[0]] + rows[1..];
      RecordLinks(b, rows[0], now);
      RecordBinds(b, rows[0], now);
      var r := Record(b, rows[0], now);
      if !r.raised {
        PassBinds(r.b, rows[1..], now);
        BindsTransitively(b, r.b, Pass(r.b, rows[1..], now).b);
      }
    }
  }

  lemma {:induction false} SweepsBind(b: State, rows: seq<Row>, now: real)
    requires Linked(b) && AllTrimmed(rows)
    ensures Binds(b, Sweeps(b, rows, now).b)
    decreases |rows|
  {
    if rows != [] {
      var p := Pass(b, rows, now);
      PassBinds(b, rows, now);
      PassLinks(b, rows, now);
      if !p.raised && |p.deferred| < |rows| {
        SweepsBind(p.b, p.deferred, now);
        BindsTransitively(b, p.b, Sweeps(p.b, p.deferred, now).b);
      }
    }
  }

  lemma DrainBinds(b: State, now: real)
    requires Linked(b) && AllTrimmed(b.pending)
    ensures Binds(b, Drain(b, now).b)
  {
    if b.activeTurn.Some? && b.pending != [] {
      PendingAside(b, []);
      SweepsBind(b.(pending := []), b.pending, now);
    }
  }

  lemma DrainAfterBinds(b: State, c: State, now: real)
    requires Binds(b, c) && Linked(c) && AllTrimmed(c.pending)
    ensures Binds(b, Drain(c, now).b)
  {
    DrainBinds(c, now);
    BindsTransitively(b, c, Drain(c, now).b);
  }

  lemma BackendEventBinds(b: State, row: Row, now: real)
    requires BridgeInv(b) && Trimmed(row.attempt)
    ensures Binds(b, BackendEvent(b, row, now).b)
  {
    if row.attempt != "" && !(b.activeTurn.None? && row.attempt !in b.attemptRound) {
      var r := Record(b, row, now);
      RecordLinks(b, row, now);
      RecordBinds(b, row, now);
      if !r.raised && r.done && row.kind.AttemptStart? {
        DrainAfterBinds(b, r.b, now);
      }
    }
  }

  lemma TurnStartBinds(b: State, turn: Id, now: real)
    requires BridgeInv(b)
    ensures BindsToActive(b, NativeEvent(b, TurnStarted(turn), now).b)
  {
    TurnStartLinks(b, turn);
    DrainBinds(b.(activeTurn := Some(turn), announced := b.announced + {turn}), now);
  }

  /** Bindings and the buffer are as they were. */
  ghost predicate BindsNothing(b: State, c: State) {
    c.attemptRound == b.attemptRound && c.pending == b.pending
  }

  lemma FunctionCallBindsNothing(b: State, ev: Native, now: real)
    requires BridgeInv(b) && WellFormed(ev) && ev.FunctionCall?
    ensures BindsNothing(b, OnFunctionCall(b, ev, now).b)
  {
    EnsureRoundFrame(b, ev.turn, now);
    FunctionCallKeepsRounds(b, ev, now);
  }

  lemma ToolEventBindsNothing(b: State, ev: Native, now: real)
    requires ev.FunctionCallOutput? || ev.ItemStarted? || ev.ItemCompleted?
    ensures BindsNothing(b, NativeEvent(b, ev, now).b)
  {
    if ev.FunctionCallOutput? {
      CallOutputKeepsRounds(b, ev, now);
    } else if ev.ItemStarted? {
      ItemStartedKeepsRounds(b, ev, now);
    } else {
      ItemCompletedKeepsRounds(b, ev, now);
    }
  }

  lemma OtherNativeBindsNothing(b: State, ev: Native, now: real)
    requires BridgeInv(b) && WellFormed(ev) && !ev.TurnStarted?
    ensures BindsNothing(b, NativeEvent(b, ev, now).b)
  {
    if ev.FunctionCall? {
      FunctionCallBindsNothing(b, ev, now);
    } else if ev.ResponseCompleted? {
      CompletionKeepsTurn(b, ev, now);
    } else if ev.FunctionCallOutput? || ev.ItemStarted? || ev.ItemCompleted? {
      ToolEventBindsNothing(b, ev, now);
    }
  }

  lemma {:induction false} ClosingRoundsBindsNothing(b: State, turns: seq<Id>, status: string, now: real)
    requires BridgeInv(b) && Distinct(turns) && Elements(turns) <= b.activeRound.Keys && !Text.IsBlank(status)
    ensures forall t :: t in turns ==> t in b.activeRound
    ensures CloseRounds(b, turns, status, now).b.attemptRound == b.attemptRound
    decreases |turns|
  {
    assert forall t :: t in turns ==> t in Elements(turns);
    if turns != [] {
      ClosingKeepsInv(b, turns[0], status, now);
      ClosingFrame(b, turns[0], status, now);
      TailElements(turns);
      ClosingRoundsBindsNothing(Closing(b, turns[0], status, now).b, turns[1..], status, now);
    }
  }

  lemma EventBinds(b: State, e: Event, now: real)
    requires BridgeInv(b) && Enabled(b, e)
    ensures BindsToActive(b, Step(b, e, now))
  {
    match e
    case FromNative(ev) =>
      if ev.TurnStarted? {
        TurnStartBinds(b, ev.turnId, now);
      } else {
        OtherNativeBindsNothing(b, ev, now);
      }
    case FromProxy(row) => BackendEventBinds(b, row, now);
    case Closure(turns, status) =>
      ClosureEndsEveryRound(b, turns, status, now);
      ClosingRoundsBindsNothing(b, turns, status, now);
  }

  /**
   At event k the attempt is bound, to a round of the turn that is active then according to the events, the one
   open for it; before, it was not bound.
   */
  ghost predicate BoundAt(events: seq<Timed>, a: Id, round: Id, k: nat) {
    && k < |events| && IsRun(Initial, events[..k]) && IsRun(Initial, events[..k + 1])
    && a !in Execute(Initial, events[..k]).attemptRound
    && var c := Execute(Initial, events[..k + 1]);
       && a in c.attemptRound && c.attemptRound[a] == round
       && exists turn :: IsActive(events[..k + 1], turn) && turn in c.activeRound && c.activeRound[turn] == round
                         && turn in c.roundCount && round == RoundName(turn, c.roundCount[turn])
  }

  ghost predicate WasBound(events: seq<Timed>, a: Id, round: Id) {
    exists k :: BoundAt(events, a, round, k)
  }

  lemma BoundInMore(events: seq<Timed>, e: Timed, a: Id, round: Id)
    requires WasBound(events, a, round)
    ensures WasBound(events + [e], a, round)
  {
    var k: nat :| BoundAt(events, a, round, k);
    assert (events + [e])[..k] == events[..k] && (events + [e])[..k + 1] == events[..k + 1];
    assert BoundAt(events + [e], a, round, k);
  }

  lemma BoundNow(events: seq<Timed>, e: Timed, a: Id)
    requires IsRun(Initial, events) && IsRun(Initial, events + [e])
    requires a !in Execute(Initial, events).attemptRound
    requires var c := Execute(Initial, events + [e]); a in c.attemptRound && BoundToActive(c, c.attemptRound[a])
    ensures WasBound(events + [e], a, Execute(Initial, events + [e]).attemptRound[a])
  {
    var all := events + [e];
    var c := Execute(Initial, all);
    ReachableInv(all);
    ActiveTurnIsRight(all, c.activeTurn.value);
    assert all[..|events|] == events && all[..|events| + 1] == all;
    assert BoundAt(all, a, c.attemptRound[a], |events|);
  }

  /** Over every run: each attempt is bound to the round then open for the turn active when its start was recorded. */
  lemma {:induction false} AttemptsBelongToTheirTurn(events: seq<Timed>, a: Id)
    requires IsRun(Initial, events) && a in Execute(Initial, events).attemptRound
    ensures WasBound(events, a, Execute(Initial, events).attemptRound[a])
  {
    if events != [] {
      var init, last := events[..|events| - 1], events[|events| - 1];
      assert events == init + [last];
      RunMore(Initial, init, last);
      ReachableInv(init);
      var b := Execute(Initial, init);
      EventBinds(b, last.event, last.at);
      if a in b.attemptRound {
        AttemptsBelongToTheirTurn(init, a);
        BoundInMore(init, last, a, b.attemptRound[a]);
      } else {
        BoundNow(init, last, a);
      }
    }
  }

  // ----- A start that comes before its turn -----

  lemma InactiveBuffersStart(b: State, row: Row, now: real)
    requires b.activeTurn.None? && row.kind.AttemptStart? && row.attempt != ""
    ensures BackendEvent(b, row, now) == Out(b.(pending := b.pending + [row]), false)
  {
  }

  lemma InactiveKeepsBuffer(b: State, e: Event, row: Row, now: real)
    requires BridgeInv(b) && Enabled(b, e) && b.activeTurn.None? && row in b.pending
    requires !e.Closure? && !(e.FromNative? && e.ev.TurnStarted?)
    ensures Step(b, e, now).activeTurn.None? && row in Step(b, e, now).pending
  {
    match e
    case FromNative(ev) =>
      NativeMovesTurn(b, ev, now);
      OtherNativeBindsNothing(b, ev, now);
    case FromProxy(other) =>
      BackendEventKeepsInv(b, other, now);
      InactiveEventKeepsRows(b, other, now);
  }

  lemma InactiveEventKeepsRows(b: State, other: Row, now: real)
    requires BridgeInv(b) && Trimmed(other.attempt) && b.activeTurn.None?
    ensures forall row <- b.pending :: row in BackendEvent(b, other, now).b.pending
  {
    if other.attempt != "" && other.attempt in b.attemptRound {
      RecordLinks(b, other, now);
      if other.kind.AttemptStart? {
        InactiveBuffersStart(b, other, now);
      }
    }
  }

  lemma {:induction false} InactiveRunKeepsBuffer(b: State, later: seq<Timed>, row: Row)
    requires BridgeInv(b) && IsRun(b, later) && b.activeTurn.None? && row in b.pending
    requires forall e <- later :: !e.event.Closure? && !(e.event.FromNative? && e.event.ev.TurnStarted?)
    ensures BridgeInv(Execute(b, later))
    ensures Execute(b, later).activeTurn.None? && row in Execute(b, later).pending
    decreases |later|
  {
    if later != [] {
      assert later[0] in later && forall e <- later[1..] :: e in later;
      StepKeepsInv(b, later[0].event, later[0].at);
      InactiveKeepsBuffer(b, later[0].event, row, later[0].at);
      InactiveRunKeepsBuffer(Step(b, later[0].event, later[0].at), later[1..], row);
    }
  }

  lemma {:induction false} PassBindsStarts(b: State, rows: seq<Row>, row: Row, now: real)
    requires Linked(b) && AllTrimmed(rows) && b.activeTurn.Some? && !Pass(b, rows, now).raised
    requires row in rows && row.kind.AttemptStart? && row.attempt != ""
    ensures row.attempt in Pass(b, rows, now).b.attemptRound
    decreases |rows|
  {
    assert rows == [rows[0]] + rows[1..];
    var r := Record(b, rows[0], now);
    RecordLinks(b, rows[0], now);
    PassLinks(r.b, rows[1..], now);
    if rows[0] == row {
      StartRowBinds(b, row, row.attempt, now);
      assert row.attempt in Pass(r.b, rows[1..], now).b.attemptRound.Keys;
    } else {
      PassBindsStarts(r.b, rows[1..], row, now);
    }
  }

  lemma SweepsBindStarts(b: State, rows: seq<Row>, row: Row, now: real)
    requires Linked(b) && AllTrimmed(rows) && b.activeTurn.Some? && !Sweeps(b, rows, now).raised
    requires row in rows && row.kind.AttemptStart? && row.attempt != ""
    ensures row.attempt in Sweeps(b, rows, now).b.attemptRound
  {
    var p := Pass(b, rows, now);
    PassLinks(b, rows, now);
    PassBindsStarts(b, rows, row, now);
    if |p.deferred| < |rows| {
      SweepsBind(p.b, p.deferred, now);
    }
  }

  lemma TurnStartBindsBuffered(b: State, turn: Id, row: Row, now: real)
    requires BridgeInv(b) && !NativeEvent(b, TurnStarted(turn), now).raised
    requires row in b.pending && row.kind.AttemptStart? && row.attempt != ""
    ensures row.attempt in NativeEvent(b, TurnStarted(turn), now).b.attemptRound
  {
    var c := b.(activeTurn := Some(turn), announced := b.announced + {turn});
    TurnStartLinks(b, turn);
    PendingAside(c, []);
    SweepsBindStarts(c.(pending := []), c.pending, row, now);
  }

  /**
   A start fed while no turn is active is buffered, stays so whatever happens, and goes to the next turn that starts
   (unless the frontend closes before): if that start does not raise, the attempt is bound to the turn's open round.
   */
  lemma EarlyStartGoesToNextTurn(events: seq<Timed>, row: Row, later: seq<Timed>, turn: Id, at: real)
    requires IsRun(Initial, events) && (forall t :: !IsActive(events, t))
    requires row.kind.AttemptStart? && !Text.IsBlank(row.attempt)
    requires row.attempt !in Execute(Initial, events).attemptRound
    requires forall e <- later :: !e.event.Closure? && !(e.event.FromNative? && e.event.ev.TurnStarted?)
    requires var b := BackendEvent(Execute(Initial, events), row, at).b;
             IsRun(b, later) && !NativeEvent(Execute(b, later), TurnStarted(turn), at).raised
    ensures var b := BackendEvent(Execute(Initial, events), row, at).b; var c := Execute(b, later);
            && b.attemptRound == Execute(Initial, events).attemptRound && row in c.pending
            && (row.attempt !in c.attemptRound ==>
                  var d := NativeEvent(c, TurnStarted(turn), at).b;
                  && row.attempt in d.attemptRound && turn in d.activeRound
                  && d.attemptRound[row.attempt] == d.activeRound[turn])
  {
    var a := Execute(Initial, events);
    ReachableInv(events);
    if a.activeTurn.Some? {
      ActiveTurnIsRight(events, a.activeTurn.value);
    }
    InactiveBuffersStart(a, row, at);
    BackendEventKeepsInv(a, row, at);
    var b := BackendEvent(a, row, at).b;
    assert row in b.pending;
    InactiveRunKeepsBuffer(b, later, row);
    var c := Execute(b, later);
    TurnStartBindsBuffered(c, turn, row, at);
    TurnStartBinds(c, turn, at);
    NativeMovesTurn(c, TurnStarted(turn), at);
  }

  /** The next turn's attempt, its start reported before the turn's: it waits, and is not bound to the old turn. */
  lemma EarlyStartExample(at: real)
    ensures var start := FromNative(TurnStarted("t1")); var done := FromNative(TurnCompleted(Some("t1")));
            var events := [Timed(start, at), Timed(done, at), Timed(FromProxy(START), at)];
            && IsRun(Initial, events)
            && Execute(Initial, events).pending == [START] && Execute(Initial, events).attemptRound == map[]
  {
    var start, done := FromNative(TurnStarted("t1")), FromNative(TurnCompleted(Some("t1")));
    RowsAreTrimmed();
    ThreeEvents(start, done, FromProxy(START), at);
    var b := Step(Initial, start, at);
    assert b == Initial.(activeTurn := Some("t1"), announced := {"t1"});
    var c := Step(b, done, at);
    InactiveBuffersStart(c, START, at);
  }
}
