/**
 When an event makes the bridge raise: ends of attempts recorded, buffered and drained.
 */
module BridgeEnds {
  import opened Sequences
  import opened Bridge
  import Lifecycle
  import Text

  // ----- What one row ends -----

  ghost predicate Ended(b: State, a: Id) {
    a in b.collector.attempts && b.collector.attempts[a].end.Some?
  }

  lemma BindEndsNothing(b: State, a: Id, round: Id, now: real)
    ensures forall x :: Ended(BindAttempt(b, a, round, now).b, x) ==> Ended(b, x)
  {
  }

  lemma EndBoundEndsOne(b: State, a: Id, status: string, now: real)
    ensures forall x :: Ended(EndBound(b, a, status, now).b, x) ==> Ended(b, x) || x == a
  {
  }

  lemma RecordEndsOnlyItsAttempt(b: State, row: Row, now: real)
    ensures var r := Record(b, row, now);
            forall a :: Ended(r.b, a) ==> Ended(b, a) || (row.kind.AttemptEnd? && row.attempt == a && r.done)
  {
    if row.attempt != "" {
      match row.kind
      case AttemptStart =>
        EnsureRoundFrame(b, None, now);
        var e := EnsureRound(b, None, now).b;
        if RoundOf(e, None).Some? {
          BindEndsNothing(e, row.attempt, RoundOf(e, None).value, now);
        }
      case FirstToken =>
        if row.attempt in b.attemptRound {
          TokenRowIsTokenFor(b, row, now);
          TokenFrame(b, b.attemptRound[row.attempt], now);
        }
      case AttemptEnd =>
        if row.attempt in b.attemptRound {
          EndRowIsEndBound(b, row, now);
          EndBoundEndsOne(b, row.attempt, EndStatus(row), now);
        }
      case Other =>
    }
  }

  /** The round has its first token, or has ended without one being due. */
  predicate TokenSeen(b: State, round: Id) {
    && round in b.collector.rounds
    && (b.collector.rounds[round].firstToken.Some? || b.collector.rounds[round].end.Some?)
  }

  /** The row's effect on the collector is there. */
  ghost predicate HasEffect(b: State, row: Row) {
    match row.kind
    case AttemptStart => row.attempt in b.attemptRound
    case FirstToken => row.attempt in b.attemptRound && TokenSeen(b, b.attemptRound[row.attempt])
    case AttemptEnd =>
      && Ended(b, row.attempt)
      && b.collector.attempts[row.attempt].status == if row.success then "completed" else "error"
    case Other => true
  }

  ghost predicate NothingUndone(b: State, c: State) {
    && (forall a <- b.attemptRound :: a in c.attemptRound && c.attemptRound[a] == b.attemptRound[a])
    && (forall a :: Ended(b, a) ==> Ended(c, a) && c.collector.attempts[a] == b.collector.attempts[a])
    && (forall round :: TokenSeen(b, round) ==> TokenSeen(c, round))
  }

  lemma UndoingNothingIsTransitive(b: State, c: State, d: State)
    requires NothingUndone(b, c) && NothingUndone(c, d)
    ensures NothingUndone(b, d)
  {
  }

  lemma BindUndoesNothing(b: State, a: Id, round: Id, now: real)
    requires a !in b.attemptRound
    ensures NothingUndone(b, BindAttempt(b, a, round, now).b)
  {
  }

  lemma EndUndoesNothing(b: State, a: Id, status: string, now: real)
    requires !Text.IsBlank(status)
    ensures var o := EndBound(b, a, status, now);
            && NothingUndone(b, o.b)
            && (!o.raised ==> Ended(o.b, a) && o.b.collector.attempts[a].status == status)
            && (Ended(b, a) ==> o.raised)
  {
  }

  lemma TokenUndoesNothing(b: State, round: Id, now: real)
    requires Lifecycle.Running(b.collector) && round in b.collector.rounds
    ensures NothingUndone(b, TokenFor(b, round, now).b) && TokenSeen(TokenFor(b, round, now).b, round)
  {
  }

  lemma OpeningUndoesNothing(b: State, now: real)
    ensures NothingUndone(b, EnsureRound(b, None, now).b)
  {
  }

  lemma RecordHasEffect(b: State, row: Row, now: real)
    requires Linked(b) && Trimmed(row.attempt) && row.attempt != ""
    ensures var r := Record(b, row, now);
            NothingUndone(b, r.b) && (r.done && !r.raised ==> HasEffect(r.b, row))
  {
    RecordLinks(b, row, now);
    match row.kind
    case AttemptStart => StartHasEffect(b, row, now);
    case FirstToken =>
      if row.attempt in b.attemptRound {
        TokenRowIsTokenFor(b, row, now);
        TokenUndoesNothing(b, b.attemptRound[row.attempt], now);
      }
    case AttemptEnd =>
      if row.attempt in b.attemptRound {
        EndRowIsEndBound(b, row, now);
        EndUndoesNothing(b, row.attempt, EndStatus(row), now);
      }
    case Other =>
  }

  lemma StartHasEffect(b: State, row: Row, now: real)
    requires row.kind.AttemptStart? && row.attempt != ""
    ensures var r := Record(b, row, now);
            NothingUndone(b, r.b) && (r.done && !r.raised ==> row.attempt in r.b.attemptRound)
  {
    EnsureRoundFrame(b, None, now);
    OpeningUndoesNothing(b, now);
    var e := EnsureRound(b, None, now).b;
    if RoundOf(e, None).Some? && row.attempt !in b.attemptRound {
      BindUndoesNothing(e, row.attempt, RoundOf(e, None).value, now);
      UndoingNothingIsTransitive(b, e, BindAttempt(e, row.attempt, RoundOf(e, None).value, now).b);
    }
  }

  lemma EndRaises(b: State, row: Row, now: real)
    requires Linked(b) && row.kind.AttemptEnd? && row.attempt != "" && row.attempt in b.attemptRound
    ensures Record(b, row, now).raised <==> Ended(b, row.attempt)
  {
    EndRowIsEndBound(b, row, now);
    EndUndoesNothing(b, row.attempt, EndStatus(row), now);
    EndFrame(b, row.attempt, EndStatus(row), now);
  }

  /** The end of a bound attempt raises exactly when the attempt has ended before. */
  lemma EndRaisesExactlyWhenRepeated(b: State, row: Row, now: real)
    requires BridgeInv(b) && row.kind.AttemptEnd? && row.attempt != "" && row.attempt in b.attemptRound
    ensures BackendEvent(b, row, now).raised <==> Ended(b, row.attempt)
  {
    EndRaises(b, row, now);
  }

  // ----- How many ends await an attempt -----

  /** How many of the rows report the attempt's end. */
  function EndRows(rows: seq<Row>, a: Id): nat
    decreases |rows|
  {
    if rows == [] then 0
    else EndRows(rows[1..], a) + if rows[0].kind.AttemptEnd? && rows[0].attempt == a then 1 else 0
  }

  predicate StartOf(row: Row, a: Id) {
    row.kind.AttemptStart? && row.attempt == a
  }

  ghost predicate Starts(rows: seq<Row>, a: Id) {
    exists row :: row in rows && StartOf(row, a)
  }

  /** Ends recorded or waiting. */
  ghost function EndCount(b: State, rows: seq<Row>, a: Id): nat {
    EndRows(rows, a) + if Ended(b, a) then 1 else 0
  }

  /** The attempt is bound, or its start is among the rows. */
  ghost predicate WillBind(b: State, rows: seq<Row>, a: Id) {
    a in b.attemptRound || Starts(rows, a)
  }

  /** Recording all these rows in an active turn gives the attempt a second end. */
  ghost predicate EndsTwice(b: State, rows: seq<Row>, a: Id) {
    a != "" && WillBind(b, rows, a) && EndCount(b, rows, a) >= 2
  }

  ghost predicate SomeEndsTwice(b: State, rows: seq<Row>) {
    exists a :: EndsTwice(b, rows, a)
  }

  lemma StartsOfMore(row: Row, rows: seq<Row>, a: Id)
    ensures Starts([row] + rows, a) <==> StartOf(row, a) || Starts(rows, a)
  {
    var all := [row] + rows;
    if StartOf(row, a) {
      assert row in all;
    } else if Starts(rows, a) {
      var x :| x in rows && StartOf(x, a);
      assert x in all;
    }
  }

  lemma EndRowsOfMore(row: Row, rows: seq<Row>, a: Id)
    ensures EndRows([row] + rows, a) == EndRows(rows, a) + if row.kind.AttemptEnd? && row.attempt == a then 1 else 0
  {
    assert ([row] + rows)[1..] == rows;
  }

  /** The same attempts are bound, and ended. */
  ghost predicate SameEnds(b: State, c: State, a: Id) {
    (a in b.attemptRound <==> a in c.attemptRound) && (Ended(b, a) <==> Ended(c, a))
  }

  lemma StartRowBinds(b: State, row: Row, a: Id, now: real)
    requires Linked(b) && b.activeTurn.Some? && row.kind.AttemptStart? && !Text.IsBlank(row.attempt)
    ensures var r := Record(b, row, now);
            && r.done && !r.raised && row.attempt in r.b.attemptRound
            && (a != row.attempt ==> SameEnds(b, r.b, a)) && (Ended(b, a) <==> Ended(r.b, a))
  {
    StartRowLinks(b, row, now);
    RecordEndsOnlyItsAttempt(b, row, now);
    RecordHasEffect(b, row, now);
    EnsureRoundFrame(b, None, now);
    var e := EnsureRound(b, None, now).b;
    BindFrame(e, row.attempt, RoundOf(e, None).value, now);
  }

  /** The row has moved: a start to the bound attempts, an end to the ended ones. */
  ghost predicate Moved(b: State, c: State, row: Row, a: Id) {
    && (a in c.attemptRound <==> a in b.attemptRound || StartOf(row, a))
    && (if row.kind.AttemptEnd? && row.attempt == a then !Ended(b, a) && Ended(c, a) else Ended(b, a) <==> Ended(c, a))
  }

  lemma EndRowMoves(b: State, row: Row, a: Id, now: real)
    requires Linked(b) && row.kind.AttemptEnd? && row.attempt != "" && row.attempt in b.attemptRound
    requires !Record(b, row, now).raised
    ensures Moved(b, Record(b, row, now).b, row, a)
  {
    EndRaises(b, row, now);
    EndRowLinks(b, row, now);
    RecordEndsOnlyItsAttempt(b, row, now);
    EndRowIsEndBound(b, row, now);
    EndUndoesNothing(b, row.attempt, EndStatus(row), now);
  }

  lemma TokenRowMoves(b: State, row: Row, a: Id, now: real)
    requires Linked(b) && row.kind.FirstToken? && row.attempt != "" && row.attempt in b.attemptRound
    ensures Moved(b, Record(b, row, now).b, row, a)
  {
    TokenRowIsTokenFor(b, row, now);
    TokenFrame(b, b.attemptRound[row.attempt], now);
  }

  lemma DeferredRowChangesNothing(b: State, row: Row, now: real)
    requires Linked(b) && b.activeTurn.Some? && Trimmed(row.attempt)
    ensures var r := Record(b, row, now);
            !r.done && !r.raised ==> r.b == b && !row.kind.AttemptStart?
  {
    RecordLinks(b, row, now);
  }

  /** In an active turn, a row that is recorded has moved. */
  lemma RecordMoves(b: State, row: Row, a: Id, now: real)
    requires Linked(b) && b.activeTurn.Some? && Trimmed(row.attempt) && a != ""
    requires Record(b, row, now).done && !Record(b, row, now).raised
    ensures Moved(b, Record(b, row, now).b, row, a)
  {
    if row.attempt != "" {
      match row.kind
      case AttemptStart => StartRowBinds(b, row, a, now);
      case FirstToken => TokenRowMoves(b, row, a, now);
      case AttemptEnd => EndRowMoves(b, row, a, now);
      case Other =>
    }
  }

  lemma CountsOfMore(b: State, row: Row, rows: seq<Row>, a: Id)
    ensures EndCount(b, [row] + rows, a)
            == EndCount(b, rows, a) + if row.kind.AttemptEnd? && row.attempt == a then 1 else 0
    ensures WillBind(b, [row] + rows, a) <==> StartOf(row, a) || WillBind(b, rows, a)
  {
    StartsOfMore(row, rows, a);
    EndRowsOfMore(row, rows, a);
  }

  lemma MovedKeepsCounts(b: State, c: State, row: Row, rows: seq<Row>, a: Id)
    requires Moved(b, c, row, a)
    ensures EndCount(b, [row] + rows, a) == EndCount(c, rows, a)
    ensures WillBind(b, [row] + rows, a) <==> WillBind(c, rows, a)
  {
    CountsOfMore(b, row, rows, a);
  }

  lemma RecordKeepsCounts(b: State, row: Row, rows: seq<Row>, a: Id, now: real)
    requires Linked(b) && b.activeTurn.Some? && Trimmed(row.attempt) && a != ""
    ensures var r := Record(b, row, now);
            r.done && !r.raised ==>
              && EndCount(b, [row] + rows, a) == EndCount(r.b, rows, a)
              && (WillBind(b, [row] + rows, a) <==> WillBind(r.b, rows, a))
  {
    var r := Record(b, row, now);
    if r.done && !r.raised {
      RecordMoves(b, row, a, now);
      MovedKeepsCounts(b, r.b, row, rows, a);
    }
  }

  lemma RaisingEndsTwice(b: State, row: Row, tail: seq<Row>, now: real)
    requires Linked(b) && Trimmed(row.attempt) && Record(b, row, now).raised
    ensures EndsTwice(b, [row] + tail, row.attempt)
  {
    RecordLinks(b, row, now);
    EndRowsOfMore(row, tail, row.attempt);
  }

  /** A sweep that does not raise neither adds nor removes an end. */
  lemma {:induction false} PassKeepsEnds(b: State, rows: seq<Row>, a: Id, now: real)
    requires Linked(b) && b.activeTurn.Some? && AllTrimmed(rows) && a != "" && !Pass(b, rows, now).raised
    ensures var p := Pass(b, rows, now);
            && EndCount(b, rows, a) == EndCount(p.b, p.deferred, a)
            && (WillBind(b, rows, a) <==> WillBind(p.b, p.deferred, a))
    decreases |rows|
  {
    if rows != [] {
      var row, tail := rows[0], rows[1..];
      assert rows == [row] + tail;
      var r := Record(b, row, now);
      RecordLinks(b, row, now);
      PassKeepsEnds(r.b, tail, a, now);
      if r.done {
        RecordKeepsCounts(b, row, tail, a, now);
      } else {
        var rest := Pass(r.b, tail, now);
        CountsOfMore(b, row, tail, a);
        CountsOfMore(rest.b, row, rest.deferred, a);
      }
    }
  }

  lemma {:induction false} RaisingPassEndsTwice(b: State, rows: seq<Row>, now: real)
    requires Linked(b) && b.activeTurn.Some? && AllTrimmed(rows) && Pass(b, rows, now).raised
    ensures SomeEndsTwice(b, rows)
    decreases |rows|
  {
    var row, tail := rows[0], rows[1..];
    assert rows == [row] + tail;
    var r := Record(b, row, now);
    if r.raised {
      RaisingEndsTwice(b, row, tail, now);
    } else {
      RecordLinks(b, row, now);
      RaisingPassEndsTwice(r.b, tail, now);
      var a :| EndsTwice(r.b, tail, a);
      RecordKeepsCounts(b, row, tail, a, now);
      CountsOfMore(b, row, tail, a);
      assert EndsTwice(b, rows, a);
    }
  }

  lemma {:induction false} EarlyRowsEndNothing(b: State, rows: seq<Row>, a: Id)
    requires forall row :: row in rows ==> Early(b, row)
    requires a in b.attemptRound
    ensures EndRows(rows, a) == 0
    decreases |rows|
  {
    if rows != [] {
      assert rows[0] in rows;
      EarlyRowsEndNothing(b, rows[1..], a);
    }
  }

  lemma EarlyRowsEndOnce(b: State, rows: seq<Row>)
    requires forall row :: row in rows ==> Early(b, row)
    ensures !SomeEndsTwice(b, rows)
  {
    forall a | WillBind(b, rows, a)
      ensures EndCount(b, rows, a) < 2
    {
      EarlyRowsEndNothing(b, rows, a);
    }
  }

  /** The retry loop raises exactly when some attempt, bound or started among the rows, would end twice. */
  lemma {:induction false} SweepsRaiseExactlyWhen(b: State, rows: seq<Row>, now: real)
    requires Linked(b) && b.activeTurn.Some? && AllTrimmed(rows)
    ensures Sweeps(b, rows, now).raised <==> SomeEndsTwice(b, rows)
    decreases |rows|
  {
    var p := Pass(b, rows, now);
    if rows == [] {
      EarlyRowsEndOnce(b, rows);
    } else if p.raised {
      RaisingPassEndsTwice(b, rows, now);
    } else {
      PassLinks(b, rows, now);
      if |p.deferred| == |rows| {
        EarlyRowsEndOnce(b, rows);
      } else {
        SweepsRaiseExactlyWhen(p.b, p.deferred, now);
        forall a | a != ""
          ensures EndsTwice(b, rows, a) <==> EndsTwice(p.b, p.deferred, a)
        {
          PassKeepsEnds(b, rows, a, now);
        }
      }
    }
  }

  lemma SameAttemptsEndTwice(b: State, c: State, rows: seq<Row>)
    requires c.attemptRound == b.attemptRound && c.collector.attempts == b.collector.attempts
    ensures SomeEndsTwice(b, rows) <==> SomeEndsTwice(c, rows)
  {
    forall a
      ensures EndsTwice(b, rows, a) <==> EndsTwice(c, rows, a)
    {
    }
  }

  lemma DrainRaisesExactlyWhen(b: State, now: real)
    requires Linked(b) && AllTrimmed(b.pending)
    ensures Drain(b, now).raised <==> b.activeTurn.Some? && SomeEndsTwice(b, b.pending)
  {
    if b.activeTurn.Some? {
      if b.pending == [] {
        EarlyRowsEndOnce(b, b.pending);
      } else {
        PendingAside(b, []);
        SweepsRaiseExactlyWhen(b.(pending := []), b.pending, now);
        SameAttemptsEndTwice(b, b.(pending := []), b.pending);
      }
    }
  }

  // ----- Which event raises -----

  /** The end of an attempt that has ended. */
  ghost predicate RepeatsEnd(b: State, row: Row) {
    row.kind.AttemptEnd? && row.attempt != "" && Ended(b, row.attempt)
  }

  /** The start, in an active turn, that binds an attempt with two buffered ends. */
  predicate BindsTwoEnds(b: State, row: Row) {
    && row.kind.AttemptStart? && row.attempt != "" && b.activeTurn.Some?
    && row.attempt !in b.attemptRound && EndRows(b.pending, row.attempt) >= 2
  }

  /** With early rows buffered, binding one more attempt makes that one end twice, or none. */
  lemma BindingEndsTwice(b: State, c: State, row: Row)
    requires BridgeInv(b) && b.activeTurn.Some? && row.kind.AttemptStart? && row.attempt != ""
    requires c.pending == b.pending && row.attempt in c.attemptRound
    requires forall a :: (a != row.attempt ==> SameEnds(b, c, a)) && (Ended(b, a) <==> Ended(c, a))
    ensures SomeEndsTwice(c, c.pending) <==> BindsTwoEnds(b, row)
  {
    forall a
      ensures EndsTwice(c, c.pending, a) <==> a == row.attempt && BindsTwoEnds(b, row)
    {
      assert !Starts(b.pending, a);
      if a in b.attemptRound {
        EarlyRowsEndNothing(b, b.pending, a);
      }
    }
    assert BindsTwoEnds(b, row) ==> EndsTwice(c, c.pending, row.attempt);
  }

  lemma StartBindsOne(b: State, row: Row, now: real)
    requires BridgeInv(b) && b.activeTurn.Some? && row.kind.AttemptStart? && !Text.IsBlank(row.attempt)
    ensures var c := Record(b, row, now).b;
            SomeEndsTwice(c, c.pending) <==> BindsTwoEnds(b, row)
  {
    var c := Record(b, row, now).b;
    StartRowLinks(b, row, now);
    forall a
      ensures (a != row.attempt ==> SameEnds(b, c, a)) && (Ended(b, a) <==> Ended(c, a))
      ensures row.attempt in c.attemptRound
    {
      StartRowBinds(b, row, a, now);
    }
    StartRowBinds(b, row, "", now);
    BindingEndsTwice(b, c, row);
  }

  lemma StartEventDrains(b: State, row: Row, now: real)
    requires Linked(b) && b.activeTurn.Some? && row.kind.AttemptStart? && !Text.IsBlank(row.attempt)
    ensures BackendEvent(b, row, now) == Drain(Record(b, row, now).b, now)
  {
    StartRowBinds(b, row, row.attempt, now);
    assert row.attempt != "";
  }

  lemma StartLeavesDrainable(b: State, row: Row, now: real)
    requires BridgeInv(b) && b.activeTurn.Some? && row.kind.AttemptStart? && !Text.IsBlank(row.attempt)
    ensures var c := Record(b, row, now).b;
            Linked(c) && AllTrimmed(c.pending) && c.activeTurn.Some?
  {
    StartRowLinks(b, row, now);
  }

  lemma StartRaisesExactlyWhen(b: State, row: Row, now: real)
    requires BridgeInv(b) && b.activeTurn.Some? && row.kind.AttemptStart? && !Text.IsBlank(row.attempt)
    ensures BackendEvent(b, row, now).raised <==> BindsTwoEnds(b, row)
  {
    StartEventDrains(b, row, now);
    StartLeavesDrainable(b, row, now);
    DrainRaisesExactlyWhen(Record(b, row, now).b, now);
    StartBindsOne(b, row, now);
  }

  /**
   A proxy event raises exactly for the end of an ended attempt, or for the start that binds an attempt with
   two buffered ends.
   */
  lemma BackendEventRaisesExactlyWhen(b: State, row: Row, now: real)
    requires BridgeInv(b) && Trimmed(row.attempt)
    ensures BackendEvent(b, row, now).raised <==> RepeatsEnd(b, row) || BindsTwoEnds(b, row)
  {
    if row.attempt != "" {
      RecordLinks(b, row, now);
      if row.kind.AttemptEnd? && row.attempt in b.attemptRound {
        EndRaisesExactlyWhenRepeated(b, row, now);
      } else if row.kind.AttemptStart? && b.activeTurn.Some? {
        StartRaisesExactlyWhen(b, row, now);
      }
    }
  }

  /** A turn's start raises exactly when some attempt, bound or started in the buffer, would end twice. */
  lemma TurnStartRaisesExactlyWhen(b: State, turn: Id, now: real)
    requires BridgeInv(b)
    ensures NativeEvent(b, TurnStarted(turn), now).raised <==> SomeEndsTwice(b, b.pending)
  {
    var c := b.(activeTurn := Some(turn), announced := b.announced + {turn});
    TurnStartLinks(b, turn);
    DrainRaisesExactlyWhen(c, now);
    SameAttemptsEndTwice(b, c, b.pending);
  }

  predicate Raises(b: State, e: Event, now: real)
    requires e.Closure? ==> Distinct(e.turns) && forall t :: t in e.turns ==> t in b.activeRound
  {
    match e
    case FromNative(ev) => NativeEvent(b, ev, now).raised
    case FromProxy(row) => BackendEvent(b, row, now).raised
    case Closure(turns, status) => CloseActiveRounds(b, turns, status, now).raised
  }

  ghost predicate Faulty(b: State, e: Event) {
    match e
    case FromNative(ev) => if ev.TurnStarted? then SomeEndsTwice(b, b.pending) else EndsBrokenTool(b, ev)
    case FromProxy(row) => RepeatsEnd(b, row) || BindsTwoEnds(b, row)
    case Closure(_, _) => false
  }

  /** After any run: which event makes the bridge raise. */
  lemma EventRaisesExactlyWhen(events: seq<Timed>, e: Event, now: real)
    requires IsRun(Initial, events) && Enabled(Execute(Initial, events), e)
    ensures e.Closure? ==> forall t :: t in e.turns ==> t in Execute(Initial, events).activeRound
    ensures Raises(Execute(Initial, events), e, now) <==> Faulty(Execute(Initial, events), e)
  {
    var b := Execute(Initial, events);
    assert BridgeInv(Initial) && ToolsKnown(Initial);
    RunKeepsInv(Initial, events);
    RunBreaksExactlyRestarted(Initial, events, "");
    match e
    case FromNative(ev) =>
      if ev.TurnStarted? {
        TurnStartRaisesExactlyWhen(b, ev.turnId, now);
      } else {
        ToolEventRaisesExactlyWhenBroken(b, ev, now);
      }
    case FromProxy(row) => BackendEventRaisesExactlyWhen(b, row, now);
    case Closure(turns, status) => ClosureEndsEveryRound(b, turns, status, now);
  }

  // ----- Runs in which an end is reported twice -----

  const START := Row(AttemptStart, "a", true)
  const END := Row(AttemptEnd, "a", true)

  /** Any state in a turn, with nothing buffered and attempt "a" unknown. */
  ghost predicate Fresh(b: State) {
    BridgeInv(b) && b.activeTurn.Some? && b.pending == [] && "a" !in b.attemptRound
  }

  lemma FreshAfterTurn(at: real)
    ensures Fresh(NativeEvent(Initial, TurnStarted("t"), at).b)
  {
    assert BridgeInv(Initial);
    TurnStartKeepsInv(Initial, "t", at);
  }

  lemma RowsAreTrimmed()
    ensures Trimmed(START.attempt) && Trimmed(END.attempt) && !Text.IsBlank("a")
  {
    assert !Text.IsSpace("a"[0]);
  }

  /** A start, an end, and the same end again: the third row raises. */
  lemma SecondEndRaises(b: State, at: real)
    requires Fresh(b)
    ensures var b1 := BackendEvent(b, START, at); var b2 := BackendEvent(b1.b, END, at);
            !b1.raised && !b2.raised && BackendEvent(b2.b, END, at).raised
  {
    RowsAreTrimmed();
    BackendEventRaisesExactlyWhen(b, START, at);
    BackendEventKeepsInv(b, START, at);
    var b1 := BackendEvent(b, START, at).b;
    StartEventDrains(b, START, at);
    StartRowBinds(b, START, "a", at);
    StartRowLinks(b, START, at);
    assert b1 == Record(b, START, at).b;
    EndAfterStart(b1, at);
  }

  lemma EndAfterStart(b: State, at: real)
    requires BridgeInv(b) && "a" in b.attemptRound && !Ended(b, "a")
    ensures var b2 := BackendEvent(b, END, at);
            !b2.raised && BackendEvent(b2.b, END, at).raised
  {
    RowsAreTrimmed();
    EndRaises(b, END, at);
    RecordHasEffect(b, END, at);
    BackendEventKeepsInv(b, END, at);
    EndRowIsEndBound(b, END, at);
    BackendEventRaisesExactlyWhen(BackendEvent(b, END, at).b, END, at);
  }

  /** Whatever has been reported before: the end of an unbound attempt is buffered and nothing else. */
  lemma UnboundEndIsBuffered(b: State, row: Row, at: real)
    requires row.kind.AttemptEnd? && row.attempt != "" && row.attempt !in b.attemptRound
    ensures BackendEvent(b, row, at) == Out(b.(pending := b.pending + [row]), false)
  {
  }

  /** Two ends before the start: both are buffered, and the start raises. */
  lemma StartAfterTwoEndsRaises(b: State, at: real)
    requires Fresh(b)
    ensures var b1 := BackendEvent(b, END, at); var b2 := BackendEvent(b1.b, END, at);
            && !b1.raised && !b2.raised && b2.b == b.(pending := [END, END])
            && BackendEvent(b2.b, START, at).raised
  {
    RowsAreTrimmed();
    var b1, b2 := b.(pending := [END]), b.(pending := [END, END]);
    UnboundEndIsBuffered(b, END, at);
    UnboundEndIsBuffered(b1, END, at);
    assert b.pending + [END] == [END] && [END] + [END] == [END, END];
    BackendEventKeepsInv(b, END, at);
    BackendEventKeepsInv(b1, END, at);
    assert [END, END][1..] == [END] && EndRows([END], "a") == 1;
    BackendEventRaisesExactlyWhen(b2, START, at);
  }

  lemma ThreeEvents(e: Event, f: Event, g: Event, at: real)
    ensures var events := [Timed(e, at), Timed(f, at), Timed(g, at)];
            var b1 := Step(Initial, e, at); var b2 := Step(b1, f, at);
            && Execute(Initial, events) == Step(b2, g, at)
            && (IsRun(Initial, events) <==> Enabled(Initial, e) && Enabled(b1, f) && Enabled(b2, g))
  {
    var events := [Timed(e, at), Timed(f, at), Timed(g, at)];
    var b1 := Step(Initial, e, at);
    var b2 := Step(b1, f, at);
    assert events[1..] == [Timed(f, at), Timed(g, at)];
    assert events[1..][1..] == [Timed(g, at)] && events[1..][1..][1..] == [];
    assert Execute(b2, [Timed(g, at)]) == Execute(Step(b2, g, at), []) == Step(b2, g, at);
    assert Execute(b1, events[1..]) == Execute(b2, [Timed(g, at)]);
    assert IsRun(b2, [Timed(g, at)]) == Enabled(b2, g);
    assert IsRun(b1, events[1..]) == (Enabled(b1, f) && IsRun(b2, [Timed(g, at)]));
  }

  /** From the start: a turn, attempt "a" with its end, and the end once more; and the start after two ends. */
  lemma SecondEndExample(at: real)
    ensures var turn := FromNative(TurnStarted("t"));
            var once := [Timed(turn, at), Timed(FromProxy(START), at), Timed(FromProxy(END), at)];
            var early := [Timed(turn, at), Timed(FromProxy(END), at), Timed(FromProxy(END), at)];
            && IsRun(Initial, once) && Raises(Execute(Initial, once), FromProxy(END), at)
            && IsRun(Initial, early) && Raises(Execute(Initial, early), FromProxy(START), at)
  {
    var turn := FromNative(TurnStarted("t"));
    RowsAreTrimmed();
    FreshAfterTurn(at);
    var b := NativeEvent(Initial, TurnStarted("t"), at).b;
    SecondEndRaises(b, at);
    StartAfterTwoEndsRaises(b, at);
    ThreeEvents(turn, FromProxy(START), FromProxy(END), at);
    ThreeEvents(turn, FromProxy(END), FromProxy(END), at);
  }

  // ----- No exception escapes when every attempt reports its end once -----

  ghost predicate Ends(rows: seq<Row>, a: Id) {
    exists row :: row in rows && row.kind.AttemptEnd? && row.attempt == a
  }

  /** No attempt ends twice, counting what the collector has already seen. */
  ghost predicate EndsOnce(b: State, rows: seq<Row>) {
    && (forall i, j :: 0 <= i < j < |rows| && rows[i].kind.AttemptEnd? && rows[j].kind.AttemptEnd? ==>
          rows[i].attempt != rows[j].attempt)
    && (forall row :: row in rows && row.kind.AttemptEnd? ==> !Ended(b, row.attempt))
  }

  lemma EndsOnceStays(b: State, c: State, rows: seq<Row>)
    requires EndsOnce(b, rows)
    requires forall row :: row in rows && row.kind.AttemptEnd? && Ended(c, row.attempt) ==> Ended(b, row.attempt)
    ensures EndsOnce(c, rows)
  {
  }

  lemma {:induction false} PassDoesNotRaise(b: State, rows: seq<Row>, now: real)
    requires Linked(b) && AllTrimmed(rows) && EndsOnce(b, rows)
    ensures var p := Pass(b, rows, now);
            && !p.raised && EndsOnce(p.b, p.deferred)
            && (forall row :: row in p.deferred ==> row in rows)
            && (forall a :: Ended(p.b, a) ==> Ended(b, a) || Ends(rows, a))
    decreases |rows|
  {
    if rows != [] {
      var row, tail := rows[0], rows[1..];
      assert row in rows && rows == [row] + tail;
      RecordLinks(b, row, now);
      RecordEndsOnlyItsAttempt(b, row, now);
      var r := Record(b, row, now);
      forall k | 0 <= k < |tail| && tail[k].kind.AttemptEnd?
        ensures !Ended(r.b, tail[k].attempt)
      {
        assert rows[k + 1] in rows;
      }
      PassDoesNotRaise(r.b, tail, now);
      var rest := Pass(r.b, tail, now);
      forall a | Ended(rest.b, a)
        ensures Ended(b, a) || Ends(rows, a)
      {
        if Ends(tail, a) {
          var x :| x in tail && x.kind.AttemptEnd? && x.attempt == a;
          assert x in rows;
        }
      }
      if !r.done {
        DeferredEndsOnce(rest.b, r.b, row, tail, rest.deferred);
      }
    }
  }

  lemma DeferredEndsOnce(p: State, b: State, row: Row, tail: seq<Row>, deferred: seq<Row>)
    requires EndsOnce(p, deferred) && EndsOnce(b, [row] + tail)
    requires forall x :: x in deferred ==> x in tail
    requires forall a :: Ended(p, a) ==> Ended(b, a) || Ends(tail, a)
    ensures EndsOnce(p, [row] + deferred)
  {
    assert ([row] + tail)[0] == row && row in [row] + tail;
    forall x | x in tail && x.kind.AttemptEnd? && row.kind.AttemptEnd?
      ensures x.attempt != row.attempt
    {
      var k :| 0 <= k < |tail| && tail[k] == x;
      assert ([row] + tail)[k + 1] == x;
    }
    forall k | 0 <= k < |deferred| && deferred[k].kind.AttemptEnd? && row.kind.AttemptEnd?
      ensures deferred[k].attempt != row.attempt
    {
      assert deferred[k] in tail;
    }
  }

  lemma {:induction false} SweepsDoNotRaise(b: State, rows: seq<Row>, now: real)
    requires Linked(b) && AllTrimmed(rows) && EndsOnce(b, rows) && b.pending == []
    ensures !Sweeps(b, rows, now).raised && EndsOnce(Sweeps(b, rows, now).b, Sweeps(b, rows, now).b.pending)
    decreases |rows|
  {
    if rows != [] {
      PassLinks(b, rows, now);
      PassDoesNotRaise(b, rows, now);
      var p := Pass(b, rows, now);
      if |p.deferred| < |rows| {
        SweepsDoNotRaise(p.b, p.deferred, now);
      } else {
        assert p.b.pending + p.deferred == p.deferred;
        EndsOnceStays(p.b, p.b.(pending := p.deferred), p.deferred);
      }
    }
  }

  lemma EndsOnceSplits(b: State, rows: seq<Row>, row: Row)
    requires EndsOnce(b, rows + [row])
    ensures EndsOnce(b, rows)
    ensures row.kind.AttemptEnd? ==> !Ended(b, row.attempt)
    ensures forall x :: x in rows && x.kind.AttemptEnd? && row.kind.AttemptEnd? ==> x.attempt != row.attempt
  {
    var all := rows + [row];
    assert forall k :: 0 <= k < |rows| ==> all[k] == rows[k];
    assert all[|rows|] == row && row in all;
    assert forall x :: x in rows ==> x in all;
  }

  lemma DrainDoesNotRaise(b: State, now: real)
    requires Linked(b) && AllTrimmed(b.pending) && EndsOnce(b, b.pending)
    ensures !Drain(b, now).raised && EndsOnce(Drain(b, now).b, Drain(b, now).b.pending)
  {
    PendingAside(b, []);
    EndsOnceStays(b, b.(pending := []), b.pending);
    if b.activeTurn.Some? && b.pending != [] {
      SweepsDoNotRaise(b.(pending := []), b.pending, now);
    }
  }

  /** If no attempt ends twice, counting the buffered rows, a proxy event does not raise. */
  lemma BackendEventDoesNotRaise(b: State, row: Row, now: real)
    requires BridgeInv(b) && Trimmed(row.attempt) && EndsOnce(b, b.pending + [row])
    ensures var o := BackendEvent(b, row, now);
            !o.raised && EndsOnce(o.b, o.b.pending)
  {
    EndsOnceSplits(b, b.pending, row);
    EndsOnceStays(b, b.(pending := b.pending + [row]), b.pending + [row]);
    if row.attempt != "" && !(b.activeTurn.None? && row.attempt !in b.attemptRound) {
      RecordLinks(b, row, now);
      RecordEndsOnlyItsAttempt(b, row, now);
      var r := Record(b, row, now);
      if r.done {
        EndsOnceStays(b, r.b, b.pending);
        DrainDoesNotRaise(r.b, now);
      }
    }
  }
}
