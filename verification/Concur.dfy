/**
 The Concur admission controller: an adaptive window over running agents, whose
 surplus agents are paused at a gate and resumed before new work is admitted.
 */
module Concur {
  import opened Sequences

  // Request identifiers are `req_` and the zero-padded emission index.
  type Id = nat

  // ----- Window control law -----

  datatype Config = Config(
    workers: nat, maxActive: nat, windowInit: int, additiveIncrease: int,
    multiplicativeDecrease: real, utilLow: real, utilHigh: real, hitRateThreshold: real)

  /** The checks made on the command line before the controller starts. */
  predicate ValidConfig(c: Config) {
    && c.workers >= 1
    && c.windowInit >= 1
    && c.additiveIncrease >= 1
    && 0.0 < c.multiplicativeDecrease <= 1.0
  }

  function WindowMax(c: Config): int {
    Max(1, Min(c.workers, if c.maxActive > 0 then c.maxActive else c.workers))
  }

  datatype Telemetry = Unavailable | Stats(usage: real, hitRate: Option<real>)

  function NextWindow(c: Config, window: int, usage: real, hitRate: Option<real>): int {
    var current := Max(1, Min(window, WindowMax(c)));
    if usage < c.utilLow then
      Min(WindowMax(c), current + c.additiveIncrease)
    else if usage > c.utilHigh && hitRate.Some? && hitRate.value < c.hitRateThreshold then
      Max(1, (current as real * c.multiplicativeDecrease).Floor)
    else
      current
  }

  function ControlledWindow(c: Config, window: int, telemetry: Telemetry): int {
    match telemetry
    case Unavailable => window
    case Stats(usage, hitRate) => NextWindow(c, window, usage, hitRate)
  }

  lemma WindowStaysInRange(c: Config, window: int, telemetry: Telemetry)
    requires ValidConfig(c)
    requires 1 <= window <= WindowMax(c)
    ensures 1 <= ControlledWindow(c, window, telemetry) <= WindowMax(c)
    ensures telemetry.Stats? && telemetry.usage >= c.utilLow ==> ControlledWindow(c, window, telemetry) <= window
  {
    FloorOfProduct(window, c.multiplicativeDecrease);
  }

  lemma FloorOfProduct(w: int, d: real)
    requires w >= 1 && 0.0 < d <= 1.0
    ensures (w as real * d).Floor <= w
  {
    var x := w as real;
    assert x * (1.0 - d) >= 0.0;
    assert x * d == x - x * (1.0 - d);
  }

  /** The bounds of the window: the most agents that both options allow. */
  lemma WindowMaxIsLargest(c: Config, n: int)
    requires ValidConfig(c)
    ensures n <= WindowMax(c) <==> n <= c.workers && (c.maxActive > 0 ==> n <= c.maxActive)
  {
  }

  predicate LowUsage(c: Config, tick: Telemetry) {
    tick.Stats? && tick.usage < c.utilLow
  }

  /** High usage while few prefixes are found in the cache, the hit rate being known. */
  predicate Thrashing(c: Config, tick: Telemetry) {
    tick.Stats? && tick.usage > c.utilHigh && tick.hitRate.Some? && tick.hitRate.value < c.hitRateThreshold
  }

  /** The largest whole number of agents within the reduced window, and at least one. */
  ghost predicate IsCut(c: Config, window: int, n: int) {
    var reduced := window as real * c.multiplicativeDecrease;
    n >= 1 && (n == 1 || n as real <= reduced) && (n + 1) as real > reduced
  }

  lemma FloorIsLess(w: int, d: real)
    requires w >= 1 && 0.0 < d < 1.0
    ensures (w as real * d).Floor < w
  {
    var x := w as real;
    assert x * (1.0 - d) > 0.0;
    assert x * d == x - x * (1.0 - d);
  }

  /** A tick grows the window exactly below the low watermark, cuts it exactly when thrashing, and else keeps it. */
  lemma TickMovesWindowExactlyWhen(c: Config, window: int, tick: Telemetry)
    requires ValidConfig(c) && 1 <= window <= WindowMax(c)
    ensures var next := ControlledWindow(c, window, tick);
            && (next > window <==> LowUsage(c, tick) && window < WindowMax(c))
            && (next < window <==> !LowUsage(c, tick) && Thrashing(c, tick) && window > 1
                                   && c.multiplicativeDecrease < 1.0)
            && (LowUsage(c, tick) ==> next == Min(WindowMax(c), window + c.additiveIncrease))
            && (!LowUsage(c, tick) && Thrashing(c, tick) ==> IsCut(c, window, next))
  {
    var d := c.multiplicativeDecrease;
    FloorOfProduct(window, d);
    if d < 1.0 {
      FloorIsLess(window, d);
    } else {
      assert window as real * d == window as real;
    }
  }

  function WindowAfter(c: Config, window: int, ticks: seq<Telemetry>): int {
    if ticks == [] then window
    else ControlledWindow(c, WindowAfter(c, window, ticks[..|ticks| - 1]), ticks[|ticks| - 1])
  }

  /** k ticks below the low watermark recover k increments, up to the maximum. */
  lemma {:induction false} LowUsageRecoversWindow(c: Config, window: int, ticks: seq<Telemetry>)
    requires ValidConfig(c) && 1 <= window <= WindowMax(c)
    requires forall tick <- ticks :: LowUsage(c, tick)
    ensures WindowAfter(c, window, ticks) == Min(WindowMax(c), window + |ticks| * c.additiveIncrease)
  {
    if ticks != [] {
      var k := |ticks| - 1;
      LowUsageRecoversWindow(c, window, ticks[..k]);
      assert ticks[k] in ticks;
      assert |ticks| * c.additiveIncrease == k * c.additiveIncrease + c.additiveIncrease;
      assert k * c.additiveIncrease >= 0;
    }
  }

  /** window * d^k. */
  function Reduced(window: int, d: real, k: nat): real {
    if k == 0 then window as real else Reduced(window, d, k - 1) * d
  }

  lemma ProductIsMonotone(x: real, y: real, d: real)
    requires x <= y && d >= 0.0
    ensures x * d <= y * d
  {
  }

  /** k thrashing ticks leave at most the window times the k-th power of the factor, or one agent. */
  lemma {:induction false} ThrashingShrinksGeometrically(c: Config, window: int, ticks: seq<Telemetry>)
    requires ValidConfig(c) && 1 <= window <= WindowMax(c)
    requires forall tick <- ticks :: Thrashing(c, tick) && !LowUsage(c, tick)
    ensures var w := WindowAfter(c, window, ticks);
            1 <= w <= window && (w == 1 || w as real <= Reduced(window, c.multiplicativeDecrease, |ticks|))
  {
    if ticks != [] {
      var k, d := |ticks| - 1, c.multiplicativeDecrease;
      ThrashingShrinksGeometrically(c, window, ticks[..k]);
      var w := WindowAfter(c, window, ticks[..k]);
      assert ticks[k] in ticks;
      TickMovesWindowExactlyWhen(c, w, ticks[k]);
      if w != 1 {
        ProductIsMonotone(w as real, Reduced(window, d, k), d);
      }
    }
  }

  /** The first window is the one asked for, as far as the maximum allows. */
  lemma WindowStartsAsAsked(c: Config)
    requires ValidConfig(c)
    ensures var w := InitialState(c).limit;
            w == c.windowInit || w == WindowMax(c) < c.windowInit
  {
  }

  // ----- State -----

  datatype Kind = Paused | Resumed | Admitted | Completed
  datatype Event = Event(kind: Kind, id: Id)

  datatype State = State(
    limit: int,
    activeAgents: set<Id>, activeOrder: seq<Id>,
    pausedAgents: set<Id>, pausedOrder: seq<Id>,
    gates: set<Id>,              // the ids whose gate file exists
    backlog: seq<Id>, futures: set<Id>, traces: seq<Id>,
    nextIndex: nat,
    log: seq<Event>)

  function InitialState(c: Config): State {
    State(Max(1, Min(c.windowInit, WindowMax(c))), {}, [], {}, [], {}, [], {}, [], 0, [])
  }

  // ----- What the audit log says on its own -----

  function AdmissionOrder(log: seq<Event>): seq<Id> {
    if log == [] then []
    else
      var rest := AdmissionOrder(log[..|log| - 1]);
      var last := log[|log| - 1];
      if last.kind.Admitted? then rest + [last.id] else rest
  }

  function PausedAfter(log: seq<Event>): set<Id> {
    if log == [] then {}
    else
      PausedNext(PausedAfter(log[..|log| - 1]), log[|log| - 1])
  }

  function PausedNext(paused: set<Id>, e: Event): set<Id> {
    match e.kind
    case Paused => paused + {e.id}
    case Resumed | Completed => paused - {e.id}
    case Admitted => paused
  }

  /** No request is admitted while, according to the log, some agent is paused. */
  ghost predicate NoOvertaking(log: seq<Event>) {
    forall i :: 0 <= i < |log| && log[i].kind.Admitted? ==> PausedAfter(log[..i]) == {}
  }

  lemma LogExtended(log: seq<Event>, e: Event)
    ensures AdmissionOrder(log + [e]) == AdmissionOrder(log) + (if e.kind.Admitted? then [e.id] else [])
    ensures PausedAfter(log + [e]) == PausedNext(PausedAfter(log), e)
    ensures NoOvertaking(log) && (e.kind.Admitted? ==> PausedAfter(log) == {}) ==> NoOvertaking(log + [e])
  {
    var longer := log + [e];
    assert longer[..|longer| - 1] == log;
    forall i | 0 <= i < |longer|
      ensures longer[..i] == log[..i]
    {
    }
    assert log[..|log|] == log;
  }

  // ----- Invariant -----

  ghost predicate Enumerates(order: seq<Id>, agents: set<Id>) {
    Distinct(order) && Elements(order) == agents
  }

  ghost predicate Inv(c: Config, s: State) {
    && 1 <= s.limit <= WindowMax(c) <= c.workers
    && Enumerates(s.activeOrder, s.activeAgents)
    && Enumerates(s.pausedOrder, s.pausedAgents)
    && s.activeAgents !! s.pausedAgents
    && s.gates == s.activeAgents
    && s.futures == s.activeAgents + s.pausedAgents
    && |s.activeOrder| + |s.pausedOrder| <= WindowMax(c)
    && Accounted(s)
    && PausedAfter(s.log) == s.pausedAgents
    && NoOvertaking(s.log)
  }

  /** Every emitted request is in exactly one place, and admissions follow emission order. */
  ghost predicate Accounted(s: State) {
    && |s.backlog| <= s.nextIndex
    && s.backlog == Range(s.nextIndex - |s.backlog|, s.nextIndex)
    && AdmissionOrder(s.log) == Range(0, s.nextIndex - |s.backlog|)
    && Distinct(s.traces)
    && s.futures !! Elements(s.traces)
    && s.futures + Elements(s.traces) == Elements(AdmissionOrder(s.log))
  }

  // ----- The three moves of reconciliation -----

  function PauseNewest(s: State): State
    requires s.activeOrder != []
  {
    var n := |s.activeOrder| - 1;
    var id := s.activeOrder[n];
    s.(activeOrder := s.activeOrder[..n], activeAgents := s.activeAgents - {id},
       pausedOrder := s.pausedOrder + [id], pausedAgents := s.pausedAgents + {id},
       gates := s.gates - {id}, log := s.log + [Event(Paused, id)])
  }

  function ResumeOldest(s: State): State
    requires s.pausedOrder != []
  {
    var id := s.pausedOrder[0];
    s.(pausedOrder := s.pausedOrder[1..], pausedAgents := s.pausedAgents - {id},
       activeOrder := s.activeOrder + [id], activeAgents := s.activeAgents + {id},
       gates := s.gates + {id}, log := s.log + [Event(Resumed, id)])
  }

  function AdmitOldest(s: State): State
    requires s.backlog != []
  {
    var id := s.backlog[0];
    s.(backlog := s.backlog[1..], futures := s.futures + {id},
       activeOrder := s.activeOrder + [id], activeAgents := s.activeAgents + {id},
       gates := s.gates + {id}, log := s.log + [Event(Admitted, id)])
  }

  lemma EnumeratesAppended(order: seq<Id>, agents: set<Id>, id: Id)
    requires Enumerates(order, agents) && id !in agents
    ensures Enumerates(order + [id], agents + {id})
  {
    DistinctConcat(order, [id]);
  }

  lemma EnumeratesTail(order: seq<Id>, agents: set<Id>)
    requires Enumerates(order, agents) && order != []
    ensures order[0] in agents
    ensures Enumerates(order[1..], agents - {order[0]})
  {
    assert order == [order[0]] + order[1..];
  }

  lemma EnumeratesFront(order: seq<Id>, agents: set<Id>)
    requires Enumerates(order, agents) && order != []
    ensures order[|order| - 1] in agents
    ensures Enumerates(order[..|order| - 1], agents - {order[|order| - 1]})
  {
    assert order == order[..|order| - 1] + [order[|order| - 1]];
  }

  lemma PauseKeepsInv(c: Config, s: State)
    requires Inv(c, s) && s.activeOrder != []
    ensures Inv(c, PauseNewest(s))
  {
    var id := s.activeOrder[|s.activeOrder| - 1];
    EnumeratesFront(s.activeOrder, s.activeAgents);
    EnumeratesAppended(s.pausedOrder, s.pausedAgents, id);
    LogExtended(s.log, Event(Paused, id));
  }

  lemma ResumeKeepsInv(c: Config, s: State)
    requires Inv(c, s) && s.pausedOrder != []
    ensures Inv(c, ResumeOldest(s))
  {
    var id := s.pausedOrder[0];
    EnumeratesTail(s.pausedOrder, s.pausedAgents);
    EnumeratesAppended(s.activeOrder, s.activeAgents, id);
    LogExtended(s.log, Event(Resumed, id));
  }

  lemma AdmitKeepsAccounted(s: State)
    requires Accounted(s) && s.backlog != []
    ensures s.backlog[0] !in s.futures
    ensures Accounted(AdmitOldest(s))
  {
    var id := s.backlog[0];
    var admitted := s.nextIndex - |s.backlog|;
    assert id == admitted;
    assert id !in Elements(AdmissionOrder(s.log));
    LogExtended(s.log, Event(Admitted, id));
    assert Range(0, admitted) + [id] == Range(0, admitted + 1);
    assert s.backlog[1..] == Range(admitted + 1, s.nextIndex);
    assert Elements(AdmissionOrder(s.log) + [id]) == Elements(AdmissionOrder(s.log)) + {id};
  }

  lemma AdmitKeepsInv(c: Config, s: State)
    requires Inv(c, s) && s.backlog != [] && s.pausedOrder == [] && |s.activeOrder| < s.limit
    ensures Inv(c, AdmitOldest(s))
  {
    AdmitKeepsAccounted(s);
    EnumeratesAppended(s.activeOrder, s.activeAgents, s.backlog[0]);
    LogExtended(s.log, Event(Admitted, s.backlog[0]));
  }

  // ----- Reconciliation, in closed form -----

  function LogAll(kind: Kind, ids: seq<Id>): (r: seq<Event>)
    ensures |r| == |ids|
    ensures forall i :: 0 <= i < |ids| ==> r[i] == Event(kind, ids[i])
  {
    seq(|ids|, i requires 0 <= i < |ids| => Event(kind, ids[i]))
  }

  /** Keep the n oldest active agents; pause the others, newest first. */
  function CutTo(s: State, n: nat): State
    requires n <= |s.activeOrder|
  {
    var cut := Reversed(s.activeOrder[n..]);
    s.(activeOrder := s.activeOrder[..n],
       activeAgents := s.activeAgents - Elements(cut),
       pausedOrder := s.pausedOrder + cut,
       pausedAgents := s.pausedAgents + Elements(cut),
       gates := s.gates - Elements(cut),
       log := s.log + LogAll(Paused, cut))
  }

  /** Resume the n agents that have been paused longest. */
  function ResumeN(s: State, n: nat): State
    requires n <= |s.pausedOrder|
  {
    var back := s.pausedOrder[..n];
    s.(pausedOrder := s.pausedOrder[n..],
       pausedAgents := s.pausedAgents - Elements(back),
       activeOrder := s.activeOrder + back,
       activeAgents := s.activeAgents + Elements(back),
       gates := s.gates + Elements(back),
       log := s.log + LogAll(Resumed, back))
  }

  /** Admit the n oldest backlog entries. */
  function AdmitN(s: State, n: nat): State
    requires n <= |s.backlog|
  {
    var head := s.backlog[..n];
    s.(backlog := s.backlog[n..],
       activeOrder := s.activeOrder + head,
       activeAgents := s.activeAgents + Elements(head),
       futures := s.futures + Elements(head),
       gates := s.gates + Elements(head),
       log := s.log + LogAll(Admitted, head))
  }

  function Shrunk(s: State): State
    requires s.limit >= 0
  {
    if |s.activeOrder| > s.limit then CutTo(s, s.limit) else s
  }

  function ResumeCount(s: State): nat {
    Max(0, Min(s.limit - |s.activeOrder|, |s.pausedOrder|))
  }

  function AdmitCount(s: State): nat {
    if s.pausedOrder != [] then 0 else Max(0, Min(s.limit - |s.activeOrder|, |s.backlog|))
  }

  function Refilled(s: State): State {
    var resumed := ResumeN(s, ResumeCount(s));
    AdmitN(resumed, AdmitCount(resumed))
  }

  function Reconciled(s: State): State
    requires s.limit >= 0
  {
    Refilled(Shrunk(s))
  }

  // ----- Completion and emission -----

  function CompleteOne(s: State, id: Id): State {
    s.(activeAgents := s.activeAgents - {id}, pausedAgents := s.pausedAgents - {id},
       activeOrder := RemoveFirst(s.activeOrder, id), pausedOrder := RemoveFirst(s.pausedOrder, id),
       gates := s.gates - {id}, futures := s.futures - {id},
       traces := s.traces + [id], log := s.log + [Event(Completed, id)])
  }

  function CompleteAll(s: State, done: seq<Id>): State {
    if done == [] then s
    else CompleteOne(CompleteAll(s, done[..|done| - 1]), done[|done| - 1])
  }

  function Emitted(s: State): State {
    s.(backlog := s.backlog + [s.nextIndex], nextIndex := s.nextIndex + 1)
  }

  // ----- The closed forms absorb one move of the loops -----

  lemma NothingMoved(s: State)
    ensures CutTo(s, |s.activeOrder|) == s && ResumeN(s, 0) == s && AdmitN(s, 0) == s
  {
    assert s.log + [] == s.log;
    assert Reversed(s.activeOrder[|s.activeOrder|..]) == [];
  }

  lemma ShrunkAbsorbsPause(s: State)
    requires 0 <= s.limit < |s.activeOrder|
    ensures Shrunk(PauseNewest(s)) == Shrunk(s)
  {
    var n, last := s.limit, |s.activeOrder| - 1;
    var m, id := PauseNewest(s), s.activeOrder[last];
    var cut, rest := Reversed(s.activeOrder[n..]), Reversed(m.activeOrder[n..]);
    assert cut == [id] + rest;
    assert Elements(cut) == {id} + Elements(rest);
    assert s.activeOrder[..n] == m.activeOrder[..n];
    assert s.pausedOrder + cut == m.pausedOrder + rest;
    assert s.log + LogAll(Paused, cut) == m.log + LogAll(Paused, rest);
    NothingMoved(m);
  }

  function RefillMove(s: State): State {
    if s.pausedOrder != [] then ResumeOldest(s) else if s.backlog != [] then AdmitOldest(s) else s
  }

  lemma PrefixSplit(order: seq<Id>, n: nat, kind: Kind)
    requires 0 < n <= |order|
    ensures order[..n] == [order[0]] + order[1..][..n - 1]
    ensures order[n..] == order[1..][n - 1..]
    ensures Elements(order[..n]) == {order[0]} + Elements(order[1..][..n - 1])
    ensures LogAll(kind, order[..n]) == [Event(kind, order[0])] + LogAll(kind, order[1..][..n - 1])
  {
    var head, rest := order[..n], order[1..][..n - 1];
    assert head == [order[0]] + rest;
  }

  lemma AppendAssociates<T>(a: seq<T>, x: T, b: seq<T>)
    ensures a + ([x] + b) == (a + [x]) + b
  {
  }

  lemma ResumeNAbsorbsResume(s: State, n: nat)
    requires 0 < n <= |s.pausedOrder|
    ensures ResumeN(ResumeOldest(s), n - 1) == ResumeN(s, n)
  {
    var id, rest := s.pausedOrder[0], s.pausedOrder[1..][..n - 1];
    PrefixSplit(s.pausedOrder, n, Resumed);
    AppendAssociates(s.activeOrder, id, rest);
    AppendAssociates(s.log, Event(Resumed, id), LogAll(Resumed, rest));
  }

  lemma AdmitNAbsorbsAdmit(s: State, n: nat)
    requires 0 < n <= |s.backlog|
    ensures AdmitN(AdmitOldest(s), n - 1) == AdmitN(s, n)
  {
    var id, rest := s.backlog[0], s.backlog[1..][..n - 1];
    PrefixSplit(s.backlog, n, Admitted);
    AppendAssociates(s.activeOrder, id, rest);
    AppendAssociates(s.log, Event(Admitted, id), LogAll(Admitted, rest));
  }

  lemma RefilledAbsorbsResume(s: State)
    requires |s.activeOrder| < s.limit && s.pausedOrder != []
    ensures Refilled(ResumeOldest(s)) == Refilled(s)
  {
    var n := ResumeCount(s);
    assert ResumeCount(ResumeOldest(s)) == n - 1;
    ResumeNAbsorbsResume(s, n);
  }

  lemma RefilledIsAdmitted(s: State)
    requires s.pausedOrder == []
    ensures Refilled(s) == AdmitN(s, AdmitCount(s))
  {
    NothingMoved(s);
  }

  lemma RefilledAbsorbsAdmit(s: State)
    requires |s.activeOrder| < s.limit && s.pausedOrder == [] && s.backlog != []
    ensures Refilled(AdmitOldest(s)) == Refilled(s)
  {
    RefilledIsAdmitted(s);
    RefilledIsAdmitted(AdmitOldest(s));
    AdmitNAbsorbsAdmit(s, AdmitCount(s));
  }

  lemma RefilledAbsorbsMove(s: State)
    requires |s.activeOrder| < s.limit
    ensures Refilled(RefillMove(s)) == Refilled(s)
  {
    if s.pausedOrder != [] {
      RefilledAbsorbsResume(s);
    } else if s.backlog != [] {
      RefilledAbsorbsAdmit(s);
    }
  }

  lemma RefilledWhenDone(s: State)
    requires |s.activeOrder| >= s.limit || (s.pausedOrder == [] && s.backlog == [])
    ensures Refilled(s) == s
  {
    NothingMoved(s);
  }

  lemma RefillMoveKeepsInv(c: Config, s: State)
    requires Inv(c, s) && |s.activeOrder| < s.limit
    ensures Inv(c, RefillMove(s))
  {
    if s.pausedOrder != [] {
      ResumeKeepsInv(c, s);
    } else if s.backlog != [] {
      AdmitKeepsInv(c, s);
    }
  }

  lemma {:induction false} ShrunkKeepsInv(c: Config, s: State)
    requires Inv(c, s)
    ensures Inv(c, Shrunk(s))
    decreases |s.activeOrder|
  {
    if |s.activeOrder| > s.limit {
      PauseKeepsInv(c, s);
      ShrunkKeepsInv(c, PauseNewest(s));
      ShrunkAbsorbsPause(s);
    }
  }

  lemma {:induction false} RefilledKeepsInv(c: Config, s: State)
    requires Inv(c, s)
    ensures Inv(c, Refilled(s))
    decreases s.limit - |s.activeOrder|
  {
    if |s.activeOrder| >= s.limit || (s.pausedOrder == [] && s.backlog == []) {
      RefilledWhenDone(s);
    } else {
      RefillMoveKeepsInv(c, s);
      RefilledKeepsInv(c, RefillMove(s));
      RefilledAbsorbsMove(s);
    }
  }

  lemma ReconcileKeepsInv(c: Config, s: State)
    requires Inv(c, s)
    ensures Inv(c, Shrunk(s))
    ensures Inv(c, Reconciled(s))
  {
    ShrunkKeepsInv(c, s);
    RefilledKeepsInv(c, Shrunk(s));
  }

  lemma ActiveCount(c: Config, s: State)
    requires Inv(c, s)
    ensures |s.activeAgents| == |s.activeOrder|
    ensures s.activeOrder != [] ==> s.activeOrder[|s.activeOrder| - 1] in s.activeAgents
    ensures s.pausedOrder != [] ==> s.pausedOrder[0] in s.pausedAgents
  {
    DistinctCardinality(s.activeOrder);
    if s.activeOrder != [] { EnumeratesFront(s.activeOrder, s.activeAgents); }
    if s.pausedOrder != [] { EnumeratesTail(s.pausedOrder, s.pausedAgents); }
  }

  /** The first loop as repeated pauses, and its agreement with the closed form. */
  function Shrinking(s: State): State
    decreases |s.activeOrder|
  {
    if s.activeOrder != [] && |s.activeOrder| > s.limit then Shrinking(PauseNewest(s)) else s
  }

  lemma {:induction false} ShrinkingIsShrunk(s: State)
    requires s.limit >= 0
    ensures Shrinking(s) == Shrunk(s)
    decreases |s.activeOrder|
  {
    if |s.activeOrder| > s.limit {
      ShrinkingIsShrunk(PauseNewest(s));
      ShrunkAbsorbsPause(s);
    }
  }

  /** Throughout the first loop the order list and the set agree on how many agents run. */
  ghost predicate TidyShrinking(s: State)
    decreases |s.activeOrder|
  {
    && |s.activeAgents| == |s.activeOrder|
    && (s.activeOrder != [] ==>
          && s.activeOrder[|s.activeOrder| - 1] in s.activeAgents
          && (|s.activeOrder| > s.limit ==> TidyShrinking(PauseNewest(s))))
  }

  lemma {:induction false} InvIsTidy(c: Config, s: State)
    requires Inv(c, s)
    ensures TidyShrinking(s)
    decreases |s.activeOrder|
  {
    ActiveCount(c, s);
    if |s.activeOrder| > s.limit {
      PauseKeepsInv(c, s);
      InvIsTidy(c, PauseNewest(s));
    }
  }

  /** The second loop as repeated resumes, then admissions. */
  function Refilling(s: State): State
    decreases s.limit - |s.activeOrder|
  {
    if |s.activeOrder| < s.limit && (s.pausedOrder != [] || s.backlog != []) then Refilling(RefillMove(s)) else s
  }

  lemma {:induction false} RefillingIsRefilled(s: State)
    ensures Refilling(s) == Refilled(s)
    decreases s.limit - |s.activeOrder|
  {
    if |s.activeOrder| < s.limit && (s.pausedOrder != [] || s.backlog != []) {
      RefillingIsRefilled(RefillMove(s));
      RefilledAbsorbsMove(s);
    } else {
      RefilledWhenDone(s);
    }
  }

  lemma ReconciledShape(s: State)
    requires s.limit >= 0
    ensures var r := Reconciled(s); var queue := Shrunk(s).pausedOrder;
            && r.limit == s.limit
            && |r.activeOrder| <= s.limit
            && (|r.activeOrder| < s.limit ==> r.pausedOrder == [] && r.backlog == [])
            && |r.pausedOrder| <= |queue| && r.pausedOrder == queue[|queue| - |r.pausedOrder|..]
            && s.pausedOrder <= queue
  {
  }

  lemma CompleteOneKeepsInv(c: Config, s: State, id: Id)
    requires Inv(c, s)
    requires id in s.futures
    ensures Inv(c, CompleteOne(s, id))
  {
    RemoveFirstProperties(s.activeOrder, id);
    RemoveFirstProperties(s.pausedOrder, id);
    DistinctConcat(s.traces, [id]);
    LogExtended(s.log, Event(Completed, id));
  }

  lemma {:induction false} CompleteAllKeepsInv(c: Config, s: State, done: seq<Id>)
    requires Inv(c, s)
    requires Distinct(done) && Elements(done) <= s.futures
    ensures Inv(c, CompleteAll(s, done))
    ensures CompleteAll(s, done).futures == s.futures - Elements(done)
  {
    if done != [] {
      var init, last := done[..|done| - 1], done[|done| - 1];
      assert done == init + [last];
      CompleteAllKeepsInv(c, s, init);
      assert last in Elements(done) && last !in Elements(init);
      CompleteOneKeepsInv(c, CompleteAll(s, init), last);
    }
  }

  // ----- Whole runs -----

  /** One turn of the scheduling loop does these in some order, with these inputs from outside. */
  datatype Step = Emit | Collect(done: seq<Id>) | Process(tick: Option<Telemetry>)

  ghost predicate Enabled(s: State, step: Step) {
    step.Collect? ==> Distinct(step.done) && Elements(step.done) <= s.futures
  }

  function Apply(c: Config, s: State, step: Step): State {
    match step
    case Emit => Emitted(s)
    case Collect(done) => CompleteAll(s, done)
    case Process(tick) =>
      var s' := if tick.Some? then s.(limit := ControlledWindow(c, s.limit, tick.value)) else s;
      if s'.limit >= 0 then Reconciled(s') else s'
  }

  ghost predicate IsRun(c: Config, s: State, steps: seq<Step>)
    decreases |steps|
  {
    steps == [] || (Enabled(s, steps[0]) && IsRun(c, Apply(c, s, steps[0]), steps[1..]))
  }

  function Execute(c: Config, s: State, steps: seq<Step>): State
    decreases |steps|
  {
    if steps == [] then s else Execute(c, Apply(c, s, steps[0]), steps[1..])
  }

  lemma StepKeepsInv(c: Config, s: State, step: Step)
    requires ValidConfig(c) && Inv(c, s) && Enabled(s, step)
    ensures Inv(c, Apply(c, s, step))
  {
    match step
    case Emit =>
      var s' := Emitted(s);
      assert s'.backlog == Range(s'.nextIndex - |s'.backlog|, s'.nextIndex);
    case Collect(done) =>
      CompleteAllKeepsInv(c, s, done);
    case Process(tick) =>
      if tick.Some? {
        WindowStaysInRange(c, s.limit, tick.value);
        ReconcileKeepsInv(c, s.(limit := ControlledWindow(c, s.limit, tick.value)));
      } else {
        ReconcileKeepsInv(c, s);
      }
  }

  lemma {:induction false} RunKeepsInv(c: Config, s: State, steps: seq<Step>)
    requires ValidConfig(c) && Inv(c, s) && IsRun(c, s, steps)
    ensures Inv(c, Execute(c, s, steps))
    decreases |steps|
  {
    if steps != [] {
      StepKeepsInv(c, s, steps[0]);
      RunKeepsInv(c, Apply(c, s, steps[0]), steps[1..]);
    }
  }

  /** The whole-run theorem, for every configuration, telemetry and interleaving. */
  lemma EveryReachableStateIsSafe(c: Config, steps: seq<Step>)
    requires ValidConfig(c) && IsRun(c, InitialState(c), steps)
    ensures var s := Execute(c, InitialState(c), steps);
            && Inv(c, s)
            && |s.activeAgents| + |s.pausedAgents| == |s.futures| <= WindowMax(c) <= c.workers
            && AdmissionOrder(s.log) == Range(0, s.nextIndex - |s.backlog|)
            && NoOvertaking(s.log)
  {
    assert Inv(c, InitialState(c));
    RunKeepsInv(c, InitialState(c), steps);
    var s := Execute(c, InitialState(c), steps);
    DistinctCardinality(s.activeOrder);
    DistinctCardinality(s.pausedOrder);
  }

  // ----- The window over a run -----

  /** The telemetry of the control ticks in a run, in order. */
  function TicksOf(steps: seq<Step>): seq<Telemetry> {
    if steps == [] then []
    else (if steps[0].Process? && steps[0].tick.Some? then [steps[0].tick.value] else []) + TicksOf(steps[1..])
  }

  lemma {:induction false} WindowAfterFirst(c: Config, window: int, tick: Telemetry, rest: seq<Telemetry>)
    ensures WindowAfter(c, window, [tick] + rest) == WindowAfter(c, ControlledWindow(c, window, tick), rest)
  {
    var all := [tick] + rest;
    if rest == [] {
      assert all[..0] == [] && all == [tick];
    } else {
      WindowAfterFirst(c, window, tick, rest[..|rest| - 1]);
      assert all[..|all| - 1] == [tick] + rest[..|rest| - 1];
    }
  }

  lemma {:induction false} CompletionKeepsLimit(s: State, done: seq<Id>)
    ensures CompleteAll(s, done).limit == s.limit
  {
    if done != [] {
      CompletionKeepsLimit(s, done[..|done| - 1]);
    }
  }

  /** The window at the end of a run is what its control ticks make of the first one. */
  lemma {:induction false} WindowFollowsTicks(c: Config, s: State, steps: seq<Step>)
    ensures Execute(c, s, steps).limit == WindowAfter(c, s.limit, TicksOf(steps))
    decreases |steps|
  {
    if steps != [] {
      var t := Apply(c, s, steps[0]);
      WindowFollowsTicks(c, t, steps[1..]);
      assert [] + TicksOf(steps[1..]) == TicksOf(steps[1..]);
      match steps[0]
      case Emit =>
      case Collect(done) => CompletionKeepsLimit(s, done);
      case Process(tick) =>
        if tick.Some? { WindowAfterFirst(c, s.limit, tick.value, TicksOf(steps[1..])); }
    }
  }

  // ----- What reconciliation achieves -----

  lemma ReconcileIsWorkConserving(c: Config, s: State)
    requires Inv(c, s)
    ensures var r := Reconciled(s);
            && |r.activeAgents| <= r.limit == s.limit
            && (|r.activeAgents| < r.limit ==> r.pausedOrder == [] && r.backlog == [])
            && (r.futures != {} || r.backlog != [] ==> r.gates != {})
  {
    ReconcileKeepsInv(c, s);
    ReconciledShape(s);
    var r := Reconciled(s);
    SomeGateOpen(c, r);
  }

  lemma SomeGateOpen(c: Config, r: State)
    requires Inv(c, r)
    requires |r.activeOrder| < r.limit ==> r.pausedOrder == [] && r.backlog == []
    ensures |r.activeAgents| == |r.activeOrder|
    ensures r.futures != {} || r.backlog != [] ==> r.gates != {}
  {
    ActiveCount(c, r);
    if r.activeOrder != [] {
      assert r.activeOrder[0] in r.activeAgents;
    }
  }

  /** An agent that stays paused never loses its place in the queue. */
  lemma PausedAgentsKeepTheirPlace(c: Config, s: State, step: Step, i: nat)
    requires ValidConfig(c) && Inv(c, s) && Enabled(s, step)
    requires i < |s.pausedOrder|
    requires s.pausedOrder[i] in Apply(c, s, step).pausedOrder
    ensures AmongFirst(s.pausedOrder[i], Apply(c, s, step).pausedOrder, i + 1)
  {
    match step
    case Emit =>
    case Collect(done) =>
      CompletionKeepsPlace(c, s, done, s.pausedOrder[i], i);
    case Process(tick) =>
      var w := if tick.Some? then s.(limit := ControlledWindow(c, s.limit, tick.value)) else s;
      if tick.Some? { WindowStaysInRange(c, s.limit, tick.value); }
      ReconcileKeepsInv(c, w);
      ReconcileKeepsPlace(w, i);
  }

  ghost predicate AmongFirst(id: Id, order: seq<Id>, n: nat) {
    exists j :: 0 <= j < n && j < |order| && order[j] == id
  }

  lemma ReconcileKeepsPlace(w: State, i: nat)
    requires w.limit >= 0 && i < |w.pausedOrder| && Distinct(Shrunk(w).pausedOrder)
    requires w.pausedOrder[i] in Reconciled(w).pausedOrder
    ensures AmongFirst(w.pausedOrder[i], Reconciled(w).pausedOrder, i + 1)
  {
    ReconciledShape(w);
    var queue, left := Shrunk(w).pausedOrder, Reconciled(w).pausedOrder;
    var j :| 0 <= j < |left| && left[j] == w.pausedOrder[i];
    assert queue[i] == queue[|queue| - |left| + j];
  }

  lemma {:induction false} RemovalKeepsPlace(order: seq<Id>, x: Id, id: Id, i: nat)
    requires i < |order| && order[i] == id != x
    ensures AmongFirst(id, RemoveFirst(order, x), i + 1)
  {
    var rest := RemoveFirst(order, x);
    if order[0] == x {
      assert rest[i - 1] == id;
    } else if i == 0 {
      assert rest[0] == id;
    } else {
      RemovalKeepsPlace(order[1..], x, id, i - 1);
      var tail := RemoveFirst(order[1..], x);
      var j :| 0 <= j < i && j < |tail| && tail[j] == id;
      assert rest[j + 1] == id;
    }
  }

  lemma {:induction false} CompletionKeepsPlace(c: Config, s: State, done: seq<Id>, id: Id, i: nat)
    requires Inv(c, s) && Distinct(done) && Elements(done) <= s.futures
    requires i < |s.pausedOrder| && s.pausedOrder[i] == id
    requires id in CompleteAll(s, done).pausedOrder
    ensures AmongFirst(id, CompleteAll(s, done).pausedOrder, i + 1)
  {
    if done == [] {
    } else {
      var init, last := done[..|done| - 1], done[|done| - 1];
      assert done == init + [last];
      var m := CompleteAll(s, init);
      CompleteAllKeepsInv(c, s, init);
      RemoveFirstProperties(m.pausedOrder, last);
      assert id in Elements(RemoveFirst(m.pausedOrder, last));
      CompletionKeepsPlace(c, s, init, id, i);
      var j :| 0 <= j < i + 1 && j < |m.pausedOrder| && m.pausedOrder[j] == id;
      RemovalKeepsPlace(m.pausedOrder, last, id, j);
    }
  }

  /** With nothing else happening, a shrink and the matching growth only reverse the cut agents. */
  lemma ShrinkThenGrow(s: State, small: int)
    requires s.pausedOrder == [] && |s.activeOrder| == s.limit
    requires 1 <= small <= s.limit
    ensures var t := Reconciled(Reconciled(s.(limit := small)).(limit := s.limit));
            && t.activeOrder == s.activeOrder[..small] + Reversed(s.activeOrder[small..])
            && t.pausedOrder == [] && t.backlog == s.backlog
  {
    var w := s.(limit := small);
    var cut := Reversed(s.activeOrder[small..]);
    var r := Shrunk(w);
    assert r.activeOrder == s.activeOrder[..small] && r.pausedOrder == cut;
    RefilledWhenDone(r);
    var g := r.(limit := s.limit);
    assert Shrunk(g) == g && ResumeCount(g) == |cut|;
    assert g.pausedOrder[..|cut|] == cut;
    NothingMoved(ResumeN(g, |cut|));
  }

  // ----- The scheduling loop's own code, proved against the functions above -----

  method Reconcile(c: Config, s0: State) returns (s: State)
    requires Inv(c, s0)
    ensures s == Reconciled(s0)
  {
    ShrunkKeepsInv(c, s0);
    s := Shrink(c, s0);
    s := Refill(c, s);
  }

  // The first loop of the reconciliation.
  method Shrink(c: Config, s0: State) returns (s: State)
    requires Inv(c, s0)
    ensures s == Shrunk(s0)
  {
    s := s0;
    InvIsTidy(c, s0);
    while |s.activeAgents| > s.limit && s.activeOrder != []
      invariant TidyShrinking(s) && Shrinking(s) == Shrinking(s0)
      decreases |s.activeOrder|
    {
      var id, rest := s.activeOrder[|s.activeOrder| - 1], s.activeOrder[..|s.activeOrder| - 1];
      if id !in s.activeAgents {
        s := s.(activeOrder := rest);
        continue;
      }
      s := s.(activeOrder := rest, activeAgents := s.activeAgents - {id},
              pausedAgents := s.pausedAgents + {id}, pausedOrder := s.pausedOrder + [id],
              gates := s.gates - {id}, log := s.log + [Event(Paused, id)]);
    }
    ShrinkingIsShrunk(s0);
  }

  // The second loop of the reconciliation.
  method Refill(c: Config, s0: State) returns (s: State)
    requires Inv(c, s0)
    ensures s == Refilled(s0)
  {
    s := s0;
    while |s.activeAgents| < s.limit
      invariant Inv(c, s) && Refilling(s) == Refilling(s0)
      decreases s.limit - |s.activeOrder|
    {
      ActiveCount(c, s);
      RefillMoveKeepsInv(c, s);
      var next, left := PopPaused(s.pausedOrder, s.pausedAgents);
      if next.Some? {
        var id := next.value;
        s := s.(pausedOrder := left, pausedAgents := s.pausedAgents - {id},
                activeAgents := s.activeAgents + {id}, activeOrder := s.activeOrder + [id],
                gates := s.gates + {id}, log := s.log + [Event(Resumed, id)]);
        continue;
      }
      if s.backlog == [] {
        break;
      }
      var id := s.backlog[0];
      s := s.(backlog := s.backlog[1..],
              activeAgents := s.activeAgents + {id}, activeOrder := s.activeOrder + [id],
              gates := s.gates + {id}, futures := s.futures + {id},
              log := s.log + [Event(Admitted, id)]);
    }
    ActiveCount(c, s);
    RefillingIsRefilled(s0);
  }

  /** Take the first entry of the paused order that is still a paused agent. */
  method PopPaused(order: seq<Id>, agents: set<Id>) returns (next: Option<Id>, left: seq<Id>)
    requires order != [] ==> order[0] in agents
    ensures order == [] ==> next == None && left == []
    ensures order != [] ==> next == Some(order[0]) && left == order[1..]
  {
    next, left := None, order;
    while left != [] && next.None?
      invariant next.None? ==> left == order
      invariant next.Some? ==> order != [] && next.value == order[0] && left == order[1..]
      decreases |left|
    {
      var candidate := left[0];
      left := left[1..];
      if candidate in agents {
        next := Some(candidate);
      }
    }
  }

  method CollectCompleted(s0: State, done: seq<Id>) returns (s: State)
    ensures s == CompleteAll(s0, done)
  {
    s := s0;
    for i := 0 to |done|
      invariant s == CompleteAll(s0, done[..i])
    {
      var id := done[i];
      assert done[..i + 1][..i] == done[..i];
      s := s.(activeAgents := s.activeAgents - {id}, pausedAgents := s.pausedAgents - {id},
              activeOrder := RemoveFirst(s.activeOrder, id), pausedOrder := RemoveFirst(s.pausedOrder, id),
              gates := s.gates - {id}, futures := s.futures - {id},
              traces := s.traces + [id], log := s.log + [Event(Completed, id)]);
    }
    assert done[..|done|] == done;
  }
}
