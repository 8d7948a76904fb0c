/**
 What becomes of the proxy's rows over a whole run: none is lost, and if every
 attempt's end is reported once, none makes the bridge raise.
 */
module BridgeRuns {
  import opened Sequences
  import opened Bridge
  import opened BridgeEnds
  import Text

  // ----- No row is lost -----

  /** The rows that one sweep records. */
  function TakenInPass(b: State, rows: seq<Row>, now: real): seq<Row>
    decreases |rows|
  {
    if rows == [] then []
    else
      var r := Record(b, rows[0], now);
      if r.raised then []
      else (if r.done then [rows[0]] else []) + TakenInPass(r.b, rows[1..], now)
  }

  /** The rows that the retry loop records. */
  function TakenInSweeps(b: State, rows: seq<Row>, now: real): seq<Row>
    decreases |rows|
  {
    if rows == [] then []
    else
      var p := Pass(b, rows, now);
      TakenInPass(b, rows, now) + if p.raised || |p.deferred| >= |rows| then [] else TakenInSweeps(p.b, p.deferred, now)
  }

  function TakenInDrain(b: State, now: real): seq<Row> {
    if b.activeTurn.None? || b.pending == [] then [] else TakenInSweeps(b.(pending := []), b.pending, now)
  }

  /** The rows that a proxy event records: its own, and buffered ones whose attempt it starts. */
  function Taken(b: State, row: Row, now: real): seq<Row> {
    if b.activeTurn.None? && row.attempt !in b.attemptRound then []
    else
      var r := Record(b, row, now);
      if r.raised || !r.done then []
      else [row] + if row.kind.AttemptStart? then TakenInDrain(r.b, now) else []
  }

  lemma {:induction false} PassSplits(b: State, rows: seq<Row>, now: real)
    ensures var p := Pass(b, rows, now);
            !p.raised ==> multiset(rows) == multiset(TakenInPass(b, rows, now)) + multiset(p.deferred)
    decreases |rows|
  {
    if rows != [] {
      var r := Record(b, rows[0], now);
      assert rows == [rows[0]] + rows[1..];
      PassSplits(r.b, rows[1..], now);
    }
  }

  lemma {:induction false} SweepsSplit(b: State, rows: seq<Row>, now: real)
    requires Linked(b) && AllTrimmed(rows) && b.pending == []
    ensures var o := Sweeps(b, rows, now);
            !o.raised ==> multiset(rows) == multiset(TakenInSweeps(b, rows, now)) + multiset(o.b.pending)
    decreases |rows|
  {
    if rows != [] {
      var p := Pass(b, rows, now);
      PassSplits(b, rows, now);
      PassLinks(b, rows, now);
      if !p.raised && |p.deferred| < |rows| {
        SweepsSplit(p.b, p.deferred, now);
      } else {
        assert p.b.pending + p.deferred == p.deferred;
        assert TakenInPass(b, rows, now) + [] == TakenInPass(b, rows, now);
      }
    }
  }

  lemma DrainSplits(b: State, now: real)
    requires Linked(b) && AllTrimmed(b.pending)
    ensures var o := Drain(b, now);
            !o.raised ==> multiset(b.pending) == multiset(TakenInDrain(b, now)) + multiset(o.b.pending)
  {
    if b.activeTurn.Some? && b.pending != [] {
      PendingAside(b, []);
      SweepsSplit(b.(pending := []), b.pending, now);
    }
  }

  /** Buffered rows and the new one are, exactly, the rows recorded and the rows still buffered. */
  lemma NoRowIsLost(b: State, row: Row, now: real)
    requires BridgeInv(b) && Trimmed(row.attempt) && row.attempt != ""
    requires !BackendEvent(b, row, now).raised
    ensures multiset(b.pending) + multiset{row}
            == multiset(Taken(b, row, now)) + multiset(BackendEvent(b, row, now).b.pending)
  {
    if !(b.activeTurn.None? && row.attempt !in b.attemptRound) {
      var r := Record(b, row, now);
      RecordLinks(b, row, now);
      if r.done && row.kind.AttemptStart? {
        DrainSplits(r.b, now);
      }
    }
  }

  // ----- What is recorded has its effect -----

  ghost predicate AllNamed(rows: seq<Row>) {
    forall row <- rows :: Trimmed(row.attempt) && row.attempt != ""
  }

  ghost predicate AllHaveEffect(b: State, rows: seq<Row>) {
    forall row <- rows :: HasEffect(b, row)
  }

  lemma EffectStays(b: State, c: State, rows: seq<Row>)
    requires NothingUndone(b, c) && AllHaveEffect(b, rows)
    ensures AllHaveEffect(c, rows)
  {
    forall row | row in rows
      ensures HasEffect(c, row)
    {
      assert HasEffect(b, row);
    }
  }

  lemma {:induction false} PassHasEffect(b: State, rows: seq<Row>, now: real)
    requires Linked(b) && AllNamed(rows)
    ensures var p := Pass(b, rows, now);
            && NothingUndone(b, p.b) && AllNamed(p.deferred)
            && (!p.raised ==> AllHaveEffect(p.b, TakenInPass(b, rows, now)))
    decreases |rows|
  {
    if rows != [] {
      var r := Record(b, rows[0], now);
      assert rows == [rows[0]] + rows[1..];
      RecordLinks(b, rows[0], now);
      RecordHasEffect(b, rows[0], now);
      if !r.raised {
        PassHasEffect(r.b, rows[1..], now);
        if r.done && !Pass(r.b, rows[1..], now).raised {
          EffectStays(r.b, Pass(r.b, rows[1..], now).b, [rows[0]]);
        }
      }
    }
  }

  lemma EffectOfBoth(b: State, rows: seq<Row>, more: seq<Row>)
    requires AllHaveEffect(b, rows) && AllHaveEffect(b, more)
    ensures AllHaveEffect(b, rows + more)
  {
  }

  lemma {:induction false} SweepsHaveEffect(b: State, rows: seq<Row>, now: real)
    requires Linked(b) && AllNamed(rows)
    ensures var o := Sweeps(b, rows, now);
            NothingUndone(b, o.b) && (!o.raised ==> AllHaveEffect(o.b, TakenInSweeps(b, rows, now)))
    decreases |rows|
  {
    if rows != [] {
      var p := Pass(b, rows, now);
      PassHasEffect(b, rows, now);
      PassLinks(b, rows, now);
      if !p.raised && |p.deferred| < |rows| {
        SweepsHaveEffect(p.b, p.deferred, now);
        var o := Sweeps(p.b, p.deferred, now);
        if !o.raised {
          EffectStays(p.b, o.b, TakenInPass(b, rows, now));
          EffectOfBoth(o.b, TakenInPass(b, rows, now), TakenInSweeps(p.b, p.deferred, now));
        }
      }
    }
  }

  lemma DrainHasEffect(b: State, now: real)
    requires Linked(b) && AllNamed(b.pending)
    ensures var o := Drain(b, now);
            NothingUndone(b, o.b) && (!o.raised ==> AllHaveEffect(o.b, TakenInDrain(b, now)))
  {
    if b.activeTurn.Some? && b.pending != [] {
      PendingAside(b, []);
      SweepsHaveEffect(b.(pending := []), b.pending, now);
    }
  }

  lemma EffectOfFirst(b: State, row: Row, more: seq<Row>)
    requires HasEffect(b, row) && AllHaveEffect(b, more)
    ensures AllHaveEffect(b, [row] + more)
  {
  }

  lemma NamedPrefix(rows: seq<Row>, row: Row)
    requires AllNamed(rows + [row])
    ensures AllNamed(rows) && Trimmed(row.attempt) && row.attempt != ""
  {
    assert row in rows + [row];
    forall x | x in rows
      ensures Trimmed(x.attempt) && x.attempt != ""
    {
      assert x in rows + [row];
    }
  }

  /** Every row counted as recorded did what it says: its attempt is bound, or has ended. */
  lemma TakenRowsHaveEffect(b: State, row: Row, now: real)
    requires BridgeInv(b) && AllNamed(b.pending + [row]) && !BackendEvent(b, row, now).raised
    ensures AllHaveEffect(BackendEvent(b, row, now).b, Taken(b, row, now))
  {
    NamedPrefix(b.pending, row);
    var r := Record(b, row, now);
    RecordLinks(b, row, now);
    RecordHasEffect(b, row, now);
    if Taken(b, row, now) != [] && row.kind.AttemptStart? {
      DrainHasEffect(r.b, now);
      EffectStays(r.b, Drain(r.b, now).b, [row]);
      EffectOfFirst(Drain(r.b, now).b, row, TakenInDrain(r.b, now));
    }
  }

  // ----- Whole runs -----

  ghost predicate DistinctEnds(rows: seq<Row>) {
    forall i, j :: 0 <= i < j < |rows| && rows[i].kind.AttemptEnd? && rows[j].kind.AttemptEnd? ==>
        rows[i].attempt != rows[j].attempt
  }

  /** The proxy's rows in a run, in order. */
  function Fed(events: seq<Timed>): seq<Row>
    decreases |events|
  {
    if events == [] then []
    else (if events[0].event.FromProxy? then [events[0].event.row] else []) + Fed(events[1..])
  }

  ghost predicate NoProxyEventRaises(b: State, events: seq<Timed>)
    decreases |events|
  {
    events == [] ||
    (&& (events[0].event.FromProxy? ==> !BackendEvent(b, events[0].event.row, events[0].at).raised)
     && NoProxyEventRaises(Step(b, events[0].event, events[0].at), events[1..]))
  }

  /** No end is still to come for an attempt that has ended, or twice. */
  ghost predicate Due(b: State, rest: seq<Row>) {
    EndsOnce(b, b.pending + rest)
  }

  lemma DistinctParts(a: seq<Row>, b: seq<Row>)
    requires DistinctEnds(a + b)
    ensures DistinctEnds(a) && DistinctEnds(b)
    ensures forall x, y :: x in a && y in b && x.kind.AttemptEnd? && y.kind.AttemptEnd? ==> x.attempt != y.attempt
  {
    var all := a + b;
    assert forall k :: 0 <= k < |a| ==> all[k] == a[k];
    assert forall k :: 0 <= k < |b| ==> all[|a| + k] == b[k];
  }

  lemma NotEndedBefore(before: seq<Row>, rest: seq<Row>, row: Row)
    requires DistinctEnds(before + rest) && row in rest && row.kind.AttemptEnd?
    ensures !Ends(before, row.attempt)
  {
    DistinctParts(before, rest);
  }

  lemma DistinctJoin(a: seq<Row>, b: seq<Row>)
    requires DistinctEnds(a) && DistinctEnds(b)
    requires forall x, y :: x in a && y in b && x.kind.AttemptEnd? && y.kind.AttemptEnd? ==> x.attempt != y.attempt
    ensures DistinctEnds(a + b)
  {
    forall i, j | 0 <= i < j < |a + b| && (a + b)[i].kind.AttemptEnd? && (a + b)[j].kind.AttemptEnd?
      ensures (a + b)[i].attempt != (a + b)[j].attempt
    {
      if i < |a| <= j {
        assert a[i] in a && b[j - |a|] in b;
      }
    }
  }

  /**
   From rows `before` due, a transition that keeps some of them buffered, and ends only attempts whose
   end it took from them, leaves the kept ones and the rest due.
   */
  lemma DueStays(b: State, before: seq<Row>, rest: seq<Row>, c: State)
    requires EndsOnce(b, before + rest) && EndsOnce(c, c.pending)
    requires forall row :: row in c.pending ==> row in before
    requires forall a :: Ended(c, a) ==> Ended(b, a) || Ends(before, a)
    ensures Due(c, rest)
  {
    DistinctParts(before, rest);
    DistinctJoin(c.pending, rest);
    forall row | row in c.pending + rest && row.kind.AttemptEnd?
      ensures !Ended(c, row.attempt)
    {
      if row in c.pending {
      } else {
        assert row in before + rest;
        NotEndedBefore(before, rest, row);
      }
    }
  }

  lemma {:induction false} SweepsEndOnly(b: State, rows: seq<Row>, now: real)
    requires Linked(b) && AllTrimmed(rows) && EndsOnce(b, rows) && b.pending == []
    ensures var o := Sweeps(b, rows, now);
            && (forall row :: row in o.b.pending ==> row in rows)
            && (forall a :: Ended(o.b, a) ==> Ended(b, a) || Ends(rows, a))
    decreases |rows|
  {
    if rows != [] {
      PassLinks(b, rows, now);
      PassDoesNotRaise(b, rows, now);
      var p := Pass(b, rows, now);
      if |p.deferred| < |rows| {
        SweepsEndOnly(p.b, p.deferred, now);
        forall a | Ends(p.deferred, a)
          ensures Ends(rows, a)
        {
          var x :| x in p.deferred && x.kind.AttemptEnd? && x.attempt == a;
          assert x in rows;
        }
      } else {
        assert p.b.pending + p.deferred == p.deferred;
        assert forall a :: Ended(Sweeps(b, rows, now).b, a) <==> Ended(p.b, a);
      }
    }
  }

  lemma DrainEndsOnly(b: State, now: real)
    requires Linked(b) && AllTrimmed(b.pending) && EndsOnce(b, b.pending)
    ensures var o := Drain(b, now);
            && (forall row :: row in o.b.pending ==> row in b.pending)
            && (forall a :: Ended(o.b, a) ==> Ended(b, a) || Ends(b.pending, a))
  {
    PendingAside(b, []);
    EndsOnceStays(b, b.(pending := []), b.pending);
    assert forall a :: Ended(b.(pending := []), a) <==> Ended(b, a);
    if b.activeTurn.Some? && b.pending != [] {
      SweepsEndOnly(b.(pending := []), b.pending, now);
    }
  }

  lemma EndsOnceParts(b: State, before: seq<Row>, rest: seq<Row>)
    requires EndsOnce(b, before + rest)
    ensures EndsOnce(b, before)
  {
    DistinctParts(before, rest);
    forall row | row in before && row.kind.AttemptEnd?
      ensures !Ended(b, row.attempt)
    {
      assert row in before + rest;
    }
  }

  /** Only attempts whose end is among the rows have ended meanwhile. */
  ghost predicate EndsWithin(b: State, c: State, rows: seq<Row>) {
    forall a :: Ended(c, a) ==> Ended(b, a) || Ends(rows, a)
  }

  lemma EndsWithinMore(b: State, c: State, d: State, row: Row, rows: seq<Row>)
    requires EndsWithin(b, c, [row]) && EndsWithin(c, d, rows)
    ensures EndsWithin(b, d, rows + [row])
  {
    forall a | Ended(d, a)
      ensures Ended(b, a) || Ends(rows + [row], a)
    {
      if Ends(rows, a) {
        var x :| x in rows && x.kind.AttemptEnd? && x.attempt == a;
        assert x in rows + [row];
      } else if Ends([row], a) {
        assert row in rows + [row];
      }
    }
  }

  lemma RecordEndsWithin(b: State, row: Row, now: real)
    ensures EndsWithin(b, Record(b, row, now).b, [row])
  {
    RecordEndsOnlyItsAttempt(b, row, now);
    assert row in [row];
  }

  lemma NothingEndsWithin(b: State, c: State, rows: seq<Row>)
    requires c.collector.attempts == b.collector.attempts
    ensures EndsWithin(b, c, rows)
  {
  }

  lemma EventEndsOnly(b: State, row: Row, now: real)
    requires BridgeInv(b) && Trimmed(row.attempt) && EndsOnce(b, b.pending + [row])
    ensures var o := BackendEvent(b, row, now);
            && (forall x :: x in o.b.pending ==> x in b.pending + [row])
            && EndsWithin(b, o.b, b.pending + [row])
  {
    var r := Record(b, row, now);
    EndsOnceParts(b, b.pending, [row]);
    RecordLinks(b, row, now);
    RecordEndsWithin(b, row, now);
    if r.done && row.kind.AttemptStart? {
      RecordEndsOnlyItsAttempt(b, row, now);
      EndsOnceStays(b, r.b, b.pending);
      DrainEndsOnly(r.b, now);
      EndsWithinMore(b, r.b, Drain(r.b, now).b, row, b.pending);
    }
    EndsWithinMore(b, r.b, r.b, row, b.pending);
    NothingEndsWithin(b, b.(pending := b.pending + [row]), b.pending + [row]);
  }

  lemma ProxyStepKeepsDue(b: State, row: Row, rest: seq<Row>, now: real)
    requires BridgeInv(b) && Trimmed(row.attempt) && Due(b, [row] + rest)
    ensures !BackendEvent(b, row, now).raised && Due(BackendEvent(b, row, now).b, rest)
  {
    assert b.pending + ([row] + rest) == (b.pending + [row]) + rest;
    EndsOnceParts(b, b.pending + [row], rest);
    BackendEventDoesNotRaise(b, row, now);
    EventEndsOnly(b, row, now);
    DueStays(b, b.pending + [row], rest, BackendEvent(b, row, now).b);
  }

  lemma TurnStartKeepsDue(b: State, turn: Id, rest: seq<Row>, now: real)
    requires BridgeInv(b) && Due(b, rest)
    ensures Due(NativeEvent(b, TurnStarted(turn), now).b, rest)
  {
    var c := b.(activeTurn := Some(turn), announced := b.announced + {turn});
    TurnStartLinks(b, turn);
    assert forall a :: Ended(c, a) <==> Ended(b, a);
    EndsOnceStays(b, c, b.pending + rest);
    EndsOnceParts(c, c.pending, rest);
    DrainDoesNotRaise(c, now);
    DrainEndsOnly(c, now);
    DueStays(c, c.pending, rest, Drain(c, now).b);
  }

  /** Attempts and buffer as they were. */
  ghost predicate SameAttempts(b: State, c: State) {
    c.collector.attempts == b.collector.attempts && c.pending == b.pending
  }

  lemma FunctionCallKeepsAttempts(b: State, ev: Native, now: real)
    requires Linked(b) && WellFormed(ev) && ev.FunctionCall?
    ensures SameAttempts(b, OnFunctionCall(b, ev, now).b)
  {
    EnsureRoundFrame(b, ev.turn, now);
    FunctionCallKeepsRounds(b, ev, now);
  }

  lemma ToolEventKeepsAttempts(b: State, ev: Native, now: real)
    requires ev.FunctionCallOutput? || ev.ItemStarted? || ev.ItemCompleted?
    ensures SameAttempts(b, NativeEvent(b, ev, now).b)
  {
    if ev.FunctionCallOutput? {
      CallOutputKeepsRounds(b, ev, now);
    } else if ev.ItemStarted? {
      ItemStartedKeepsRounds(b, ev, now);
    } else {
      ItemCompletedKeepsRounds(b, ev, now);
    }
  }

  lemma OtherNativeKeepsAttempts(b: State, ev: Native, now: real)
    requires Linked(b) && WellFormed(ev) && !ev.TurnStarted?
    ensures SameAttempts(b, NativeEvent(b, ev, now).b)
  {
    if ev.FunctionCall? {
      FunctionCallKeepsAttempts(b, ev, now);
    } else if ev.ResponseCompleted? {
      CompletionKeepsAttempts(b, ev, now);
    } else if ev.FunctionCallOutput? || ev.ItemStarted? || ev.ItemCompleted? {
      ToolEventKeepsAttempts(b, ev, now);
    }
  }

  lemma ClosingKeepsAttempts(e: State, t: Id, now: real)
    requires Linked(e) && t in e.activeRound
    ensures SameAttempts(e, Closing(e, t, "completed", now).b)
  {
    assert !Text.IsSpace("completed"[0]);
    ClosingFrame(e, t, "completed", now);
  }

  lemma CompletionKeepsAttempts(b: State, ev: Native, now: real)
    requires Linked(b) && ev.ResponseCompleted?
    ensures SameAttempts(b, OnResponseCompleted(b, ev, now).b)
  {
    EnsureRoundFrame(b, ev.turn, now);
    EnsureRoundLinks(b, ev.turn, now);
    var e, resolved := EnsureRound(b, ev.turn, now).b, Resolved(b, ev.turn);
    if resolved.Some? {
      ClosingKeepsAttempts(e, resolved.value, now);
    }
  }

  lemma {:induction false} CloseRoundsKeepsAttempts(b: State, turns: seq<Id>, status: string, now: real)
    requires BridgeInv(b) && Distinct(turns) && Elements(turns) <= b.activeRound.Keys && !Text.IsBlank(status)
    ensures forall t :: t in turns ==> t in b.activeRound
    ensures CloseRounds(b, turns, status, now).b.collector.attempts == b.collector.attempts
    decreases |turns|
  {
    assert forall t :: t in turns ==> t in Elements(turns);
    if turns != [] {
      ClosingKeepsInv(b, turns[0], status, now);
      ClosingFrame(b, turns[0], status, now);
      TailElements(turns);
      CloseRoundsKeepsAttempts(Closing(b, turns[0], status, now).b, turns[1..], status, now);
    }
  }

  lemma SameAttemptsKeepDue(b: State, c: State, rest: seq<Row>)
    requires Due(b, rest) && c.collector.attempts == b.collector.attempts && (c.pending == b.pending || c.pending == [])
    ensures Due(c, rest)
  {
    assert forall a :: Ended(c, a) <==> Ended(b, a);
    if c.pending == b.pending {
      EndsOnceStays(b, c, b.pending + rest);
    } else {
      DistinctParts(b.pending, rest);
      assert [] + rest == rest;
      forall row | row in rest && row.kind.AttemptEnd?
        ensures !Ended(c, row.attempt)
      {
        assert row in b.pending + rest;
      }
    }
  }

  lemma StepKeepsDue(b: State, e: Event, rest: seq<Row>, now: real)
    requires BridgeInv(b) && Enabled(b, e)
    requires Due(b, (if e.FromProxy? then [e.row] else []) + rest)
    ensures Due(Step(b, e, now), rest)
    ensures e.FromProxy? ==> !BackendEvent(b, e.row, now).raised
  {
    assert [] + rest == rest;
    match e
    case FromProxy(row) => ProxyStepKeepsDue(b, row, rest, now);
    case FromNative(ev) =>
      if ev.TurnStarted? {
        TurnStartKeepsDue(b, ev.turnId, rest, now);
      } else {
        OtherNativeKeepsAttempts(b, ev, now);
        SameAttemptsKeepDue(b, Step(b, e, now), rest);
      }
    case Closure(turns, status) =>
      ClosureEndsEveryRound(b, turns, status, now);
      CloseRoundsKeepsInv(b, turns, status, now);
      CloseRoundsKeepsAttempts(b, turns, status, now);
      SameAttemptsKeepDue(b, Step(b, e, now), rest);
  }

  lemma {:induction false} RunDoesNotRaise(b: State, events: seq<Timed>)
    requires BridgeInv(b) && IsRun(b, events) && Due(b, Fed(events))
    ensures NoProxyEventRaises(b, events)
    decreases |events|
  {
    if events != [] {
      StepKeepsDue(b, events[0].event, Fed(events[1..]), events[0].at);
      StepKeepsInv(b, events[0].event, events[0].at);
      RunDoesNotRaise(Step(b, events[0].event, events[0].at), events[1..]);
    }
  }

  lemma InitialIsDue(rows: seq<Row>)
    requires DistinctEnds(rows)
    ensures Due(Initial, rows)
  {
    assert [] + rows == rows;
  }

  /** Over every run: if no attempt's end occurs twice among the rows fed, no proxy event raises. */
  lemma DistinctEndsNeverRaise(events: seq<Timed>)
    requires IsRun(Initial, events) && DistinctEnds(Fed(events))
    ensures NoProxyEventRaises(Initial, events)
  {
    InitialIsDue(Fed(events));
    assert BridgeInv(Initial);
    RunDoesNotRaise(Initial, events);
  }
}
