/**
 Live tool accounting: the normaliser that brackets streamed tool rows, and the
 statistics object that counts open tools for the admission controller.
 */
module LiveTools {
  import opened Sequences
  import opened Text

  type Id = string

  datatype Kind = ToolStart | ToolEnd
  datatype LiveEvent = LiveEvent(kind: Kind, id: Id)

  // ----- The normaliser -----

  datatype ItemType = TodoList | Command | OtherInterval | NotATool
  datatype Phase = Started | Updated | Completed | OtherPhase

  /** A raw row, reduced to the fields that decide what is emitted. */
  datatype Raw =
    | CodexItem(id: Id, itemType: ItemType, phase: Phase)
    | OpenCodeTool(id: Id, isBash: bool, terminal: bool)
    | Unrelated

  datatype Config = Config(codexShellTiming: bool, opencodeShellTiming: bool)

  /** `active` lists the open tools in the order of their starts. */
  datatype State = State(active: seq<Id>, finished: set<Id>, updates: map<Id, nat>)

  const Fresh := State([], {}, map[])

  datatype Out = Out(state: State, events: seq<LiveEvent>)

  function Start(s: State, id: Id): Out {
    if id in s.active || id in s.finished then Out(s, [])
    else Out(s.(active := s.active + [id]), [LiveEvent(ToolStart, id)])
  }

  function End(s: State, id: Id): Out {
    if id in s.finished then Out(s, [])
    else Out(s.(active := RemoveFirst(s.active, id), finished := s.finished + {id}), [LiveEvent(ToolEnd, id)])
  }

  /** A start, then an end, each only if it is still due. */
  function Bracket(s: State, id: Id): Out {
    var a := Start(s, id);
    var b := End(a.state, id);
    Out(b.state, a.events + b.events)
  }

  function UpdateId(id: Id, n: nat): Id {
    id + ":update:" + Padded(n)
  }

  function Feed(c: Config, s: State, raw: Raw): Out {
    match raw
    case Unrelated => Out(s, [])
    case CodexItem(id, itemType, phase) =>
      if id == "" then Out(s, [])
      else if itemType.TodoList? && (phase.Started? || phase.Updated?) then
        var n := if id in s.updates then s.updates[id] else 0;
        Bracket(s.(updates := s.updates[id := n + 1]), UpdateId(id, n))
      else if itemType.TodoList? || itemType.NotATool? || (itemType.Command? && c.codexShellTiming) then Out(s, [])
      else if phase.Started? then Start(s, id)
      else if phase.Completed? then Bracket(s, id)
      else Out(s, [])
    case OpenCodeTool(id, isBash, terminal) =>
      if id == "" || (isBash && c.opencodeShellTiming) then Out(s, [])
      else if terminal then Bracket(s, id)
      else Start(s, id)
  }

  function FeedAll(c: Config, s: State, raws: seq<Raw>): Out {
    if raws == [] then Out(s, [])
    else
      var before := FeedAll(c, s, raws[..|raws| - 1]);
      var last := Feed(c, before.state, raws[|raws| - 1]);
      Out(last.state, before.events + last.events)
  }

  /** Abort what is still open. */
  function EndAll(s: State, ids: seq<Id>): Out {
    if ids == [] then Out(s, [])
    else
      var before := EndAll(s, ids[..|ids| - 1]);
      var last := End(before.state, ids[|ids| - 1]);
      Out(last.state, before.events + last.events)
  }

  function Finish(s: State): Out {
    EndAll(s, s.active)
  }

  /** What the emitted events say about one tool. */
  function Project(events: seq<LiveEvent>, id: Id): seq<Kind> {
    if events == [] then []
    else
      var rest, last := Project(events[..|events| - 1], id), events[|events| - 1];
      if last.id == id then rest + [last.kind] else rest
  }

  lemma {:induction false} ProjectConcat(a: seq<LiveEvent>, b: seq<LiveEvent>, id: Id)
    ensures Project(a + b, id) == Project(a, id) + Project(b, id)
  {
    if b == [] {
      assert a + b == a;
    } else {
      ProjectConcat(a, b[..|b| - 1], id);
      assert (a + b)[..|a + b| - 1] == a + b[..|b| - 1];
    }
  }

  function Expected(s: State, id: Id): seq<Kind> {
    if id in s.finished then [ToolStart, ToolEnd]
    else if id in s.active then [ToolStart]
    else []
  }

  ghost predicate Tidy(s: State) {
    Distinct(s.active) && Elements(s.active) !! s.finished
  }

  /** The events so far bracket every tool exactly as the state records. */
  ghost predicate Tracks(s: State, events: seq<LiveEvent>) {
    Tidy(s) && forall id :: Project(events, id) == Expected(s, id)
  }

  lemma OneEvent(id: Id, kind: Kind, x: Id)
    ensures Project([LiveEvent(kind, id)], x) == if x == id then [kind] else []
  {
    assert [LiveEvent(kind, id)][..0] == [];
    assert Project([], x) == [];
  }

  lemma StartTracks(s: State, events: seq<LiveEvent>, id: Id)
    requires Tracks(s, events)
    ensures Tracks(Start(s, id).state, events + Start(s, id).events)
    ensures id in Start(s, id).state.active || id in s.finished
  {
    if id in s.active || id in s.finished {
      assert events + [] == events;
    } else {
      DistinctConcat(s.active, [id]);
      forall x
        ensures Project(events + [LiveEvent(ToolStart, id)], x) == Expected(Start(s, id).state, x)
      {
        ProjectConcat(events, [LiveEvent(ToolStart, id)], x);
        OneEvent(id, ToolStart, x);
      }
    }
  }

  lemma EndStaysTidy(s: State, id: Id)
    requires Tidy(s) && id in s.active
    ensures Tidy(End(s, id).state)
    ensures forall x :: Expected(End(s, id).state, x) == if x == id then [ToolStart, ToolEnd] else Expected(s, x)
  {
    RemoveFirstProperties(s.active, id);
    assert id !in s.finished by { assert id in Elements(s.active); }
  }

  lemma EndTracks(s: State, events: seq<LiveEvent>, id: Id)
    requires Tracks(s, events) && (id in s.active || id in s.finished)
    ensures Tracks(End(s, id).state, events + End(s, id).events)
  {
    if id in s.finished {
      assert events + [] == events;
    } else {
      EndStaysTidy(s, id);
      forall x
        ensures Project(events + [LiveEvent(ToolEnd, id)], x) == Expected(End(s, id).state, x)
      {
        ProjectConcat(events, [LiveEvent(ToolEnd, id)], x);
        OneEvent(id, ToolEnd, x);
        assert Project(events, x) == Expected(s, x);
      }
    }
  }

  lemma BracketTracks(s: State, events: seq<LiveEvent>, id: Id)
    requires Tracks(s, events)
    ensures Tracks(Bracket(s, id).state, events + Bracket(s, id).events)
  {
    var a := Start(s, id);
    StartTracks(s, events, id);
    EndTracks(a.state, events + a.events, id);
    assert events + a.events + End(a.state, id).events == events + Bracket(s, id).events;
  }

  lemma CountingKeepsTracks(s: State, events: seq<LiveEvent>, updates: map<Id, nat>)
    requires Tracks(s, events)
    ensures Tracks(s.(updates := updates), events)
  {
    forall x
      ensures Project(events, x) == Expected(s.(updates := updates), x)
    {
      assert Project(events, x) == Expected(s, x);
    }
  }

  lemma FeedTracks(c: Config, s: State, events: seq<LiveEvent>, raw: Raw)
    requires Tracks(s, events)
    ensures Tracks(Feed(c, s, raw).state, events + Feed(c, s, raw).events)
  {
    if Feed(c, s, raw) == Out(s, []) {
      assert events + [] == events;
    } else if raw.CodexItem? && raw.itemType.TodoList? {
      var n := if raw.id in s.updates then s.updates[raw.id] else 0;
      CountingKeepsTracks(s, events, s.updates[raw.id := n + 1]);
      BracketTracks(s.(updates := s.updates[raw.id := n + 1]), events, UpdateId(raw.id, n));
    } else if Feed(c, s, raw) == Start(s, raw.id) {
      StartTracks(s, events, raw.id);
    } else {
      BracketTracks(s, events, raw.id);
    }
  }

  lemma {:induction false} FeedAllTracks(c: Config, raws: seq<Raw>)
    ensures Tracks(FeedAll(c, Fresh, raws).state, FeedAll(c, Fresh, raws).events)
  {
    if raws == [] {
    } else {
      FeedAllTracks(c, raws[..|raws| - 1]);
      var before := FeedAll(c, Fresh, raws[..|raws| - 1]);
      FeedTracks(c, before.state, before.events, raws[|raws| - 1]);
    }
  }

  lemma {:induction false} EndAllTracks(s: State, events: seq<LiveEvent>, ids: seq<Id>)
    requires Tracks(s, events) && forall id :: id in ids ==> id in s.active
    ensures var o := EndAll(s, ids);
            && Tracks(o.state, events + o.events)
            && (forall id :: id in o.state.active <==> id in s.active && id !in ids)
            && (forall id :: id in o.state.finished <==> id in s.finished || id in ids)
  {
    if ids == [] {
      assert events + [] == events;
    } else {
      var init, last := ids[..|ids| - 1], ids[|ids| - 1];
      assert ids == init + [last];
      EndAllTracks(s, events, init);
      var before := EndAll(s, init);
      EndTracks(before.state, events + before.events, last);
      RemoveFirstProperties(before.state.active, last);
      assert (events + before.events) + End(before.state, last).events == events + EndAll(s, ids).events;
    }
  }

  /** Any raw stream followed by `finish` yields, per tool id, nothing or exactly one start then one end. */
  lemma EveryToolIsBracketedOnce(c: Config, raws: seq<Raw>, id: Id)
    ensures var fed := FeedAll(c, Fresh, raws); var done := Finish(fed.state);
            && done.state.active == []
            && Project(fed.events + done.events, id) == (if id in done.state.finished then [ToolStart, ToolEnd] else [])
            && (id in done.state.finished <==> LiveEvent(ToolStart, id) in fed.events)
  {
    FeedAllTracks(c, raws);
    var fed := FeedAll(c, Fresh, raws);
    EndAllTracks(fed.state, fed.events, fed.state.active);
    var done := Finish(fed.state);
    assert Elements(done.state.active) == {};
    DistinctCardinality(done.state.active);
    StartedMeansProjected(fed.events, id);
  }

  lemma {:induction false} StartedMeansProjected(events: seq<LiveEvent>, id: Id)
    ensures LiveEvent(ToolStart, id) in events <==> ToolStart in Project(events, id)
  {
    if events != [] {
      StartedMeansProjected(events[..|events| - 1], id);
      assert events == events[..|events| - 1] + [events[|events| - 1]];
    }
  }

  /** The normaliser object; `Current` is its abstract state. */
  class Normalizer {
    const config: Config
    var active: seq<Id>
    var finished: set<Id>
    var updates: map<Id, nat>

    function Current(): State
      reads this
    {
      State(active, finished, updates)
    }

    constructor (c: Config)
      ensures config == c && Current() == Fresh
    {
      config, active, finished, updates := c, [], {}, map[];
    }

    method StartTool(id: Id) returns (events: seq<LiveEvent>)
      modifies this
      ensures Out(Current(), events) == Start(old(Current()), id)
    {
      if id in active || id in finished {
        return [];
      }
      active := active + [id];
      events := [LiveEvent(ToolStart, id)];
    }

    method EndTool(id: Id) returns (events: seq<LiveEvent>)
      modifies this
      ensures Out(Current(), events) == End(old(Current()), id)
    {
      if id in finished {
        return [];
      }
      active := RemoveFirst(active, id);
      finished := finished + {id};
      events := [LiveEvent(ToolEnd, id)];
    }

    method BracketTool(id: Id) returns (events: seq<LiveEvent>)
      modifies this
      ensures Out(Current(), events) == Bracket(old(Current()), id)
    {
      var start := StartTool(id);
      var end := EndTool(id);
      events := start + end;
    }

    method FeedRow(raw: Raw) returns (events: seq<LiveEvent>)
      modifies this
      ensures Out(Current(), events) == Feed(config, old(Current()), raw)
    {
      if raw.Unrelated? || raw.id == "" {
        return [];
      }
      if raw.OpenCodeTool? {
        if raw.isBash && config.opencodeShellTiming {
          return [];
        }
        if raw.terminal {
          events := BracketTool(raw.id);
        } else {
          events := StartTool(raw.id);
        }
        return;
      }
      if raw.itemType.TodoList? && (raw.phase.Started? || raw.phase.Updated?) {
        var n := if raw.id in updates then updates[raw.id] else 0;
        updates := updates[raw.id := n + 1];
        events := BracketTool(UpdateId(raw.id, n));
        return;
      }
      if raw.itemType.TodoList? || raw.itemType.NotATool? || (raw.itemType.Command? && config.codexShellTiming) {
        return [];
      }
      match raw.phase
      case Started => events := StartTool(raw.id);
      case Completed => events := BracketTool(raw.id);
      case _ => events := [];
    }

    method FinishStream() returns (events: seq<LiveEvent>)
      modifies this
      ensures Out(Current(), events) == Finish(old(Current()))
    {
      var ids := active;
      events := [];
      for i := 0 to |ids|
        invariant Out(Current(), events) == EndAll(old(Current()), ids[..i])
      {
        var end := EndTool(ids[i]);
        events := events + end;
        assert ids[..i + 1][..i] == ids[..i];
      }
      assert ids[..|ids|] == ids;
    }
  }

  // ----- The statistics -----

  type Open = map<string, set<Id>>

  function OpenPairs(open: Open): set<(string, Id)> {
    set r, t | r in open && t in open[r] :: (r, t)
  }

  function ActiveOf(open: Open, r: string): set<Id> {
    if r in open then open[r] else {}
  }

  function Applied(open: Open, r: string, e: LiveEvent): Open {
    if e.id == "" then open[r := ActiveOf(open, r)]
    else match e.kind
      case ToolStart => open[r := ActiveOf(open, r) + {e.id}]
      case ToolEnd => open[r := ActiveOf(open, r) - {e.id}]
  }

  lemma PairsAfter(open: Open, r: string, ids: set<Id>)
    ensures forall q, t :: (q, t) in OpenPairs(open[r := ids]) <==>
                           if q == r then t in ids else (q, t) in OpenPairs(open)
  {
  }

  lemma OnePairMore(open: Open, r: string, t: Id)
    ensures |OpenPairs(open[r := ActiveOf(open, r) + {t}])|
            == |OpenPairs(open)| + if t in ActiveOf(open, r) then 0 else 1
  {
    var more := OpenPairs(open[r := ActiveOf(open, r) + {t}]);
    PairsAfter(open, r, ActiveOf(open, r) + {t});
    if t in ActiveOf(open, r) {
      assert more == OpenPairs(open);
    } else {
      assert more == OpenPairs(open) + {(r, t)};
    }
  }

  lemma OnePairLess(open: Open, r: string, t: Id)
    ensures |OpenPairs(open[r := ActiveOf(open, r) - {t}])|
            == |OpenPairs(open)| - if t in ActiveOf(open, r) then 1 else 0
  {
    var less := OpenPairs(open[r := ActiveOf(open, r) - {t}]);
    PairsAfter(open, r, ActiveOf(open, r) - {t});
    if t in ActiveOf(open, r) {
      assert less == OpenPairs(open) - {(r, t)};
    } else {
      assert less == OpenPairs(open);
    }
  }

  function PairsOf(r: string, ids: set<Id>): set<(string, Id)> {
    set t | t in ids :: (r, t)
  }

  lemma {:induction false} PairsCount(r: string, ids: set<Id>)
    ensures |PairsOf(r, ids)| == |ids|
  {
    if ids != {} {
      var t :| t in ids;
      PairsCount(r, ids - {t});
      assert PairsOf(r, ids) == PairsOf(r, ids - {t}) + {(r, t)};
    }
  }

  lemma AllPairsGone(open: Open, r: string)
    ensures |OpenPairs(open - {r})| == |OpenPairs(open)| - |ActiveOf(open, r)|
  {
    PairsCount(r, ActiveOf(open, r));
    assert OpenPairs(open) == OpenPairs(open - {r}) + PairsOf(r, ActiveOf(open, r));
    assert OpenPairs(open - {r}) !! PairsOf(r, ActiveOf(open, r));
  }

  class LiveToolStats {
    var paths: set<string>
    var open: Open
    var inflight: int
    var ema: Option<real>
    const alpha: real

    /** The counter is the number of distinct open tools. */
    ghost predicate Valid()
      reads this
    {
      inflight == |OpenPairs(open)| && paths <= open.Keys && 0.01 <= alpha <= 1.0
    }

    constructor (emaAlpha: real)
      ensures Valid() && open == map[] && paths == {} && ema == None
    {
      paths, open, inflight, ema := {}, map[], 0, None;
      alpha := if emaAlpha > 1.0 then 1.0 else if emaAlpha < 0.01 then 0.01 else emaAlpha;
      new;
      assert OpenPairs(open) == {};
    }

    method Register(r: string)
      requires Valid()
      modifies this
      ensures Valid() && open == old(open)[r := ActiveOf(old(open), r)] && paths == old(paths) + {r}
      ensures inflight == old(inflight) && ema == old(ema)
    {
      paths := paths + {r};
      if r !in open {
        open := open[r := {}];
        assert OpenPairs(open) == OpenPairs(old(open));
      }
    }

    method Unregister(r: string)
      requires Valid()
      modifies this
      ensures Valid() && open == old(open) - {r} && paths == old(paths) - {r} && ema == old(ema)
      ensures inflight == old(inflight) - |ActiveOf(old(open), r)|
    {
      AllPairsGone(open, r);
      var active := ActiveOf(open, r);
      open := open - {r};
      if active != {} {
        inflight := Max(0, inflight - |active|);
      }
      paths := paths - {r};
    }

    method ApplyEvent(r: string, e: LiveEvent, wait: Option<real>)
      requires Valid()
      modifies this
      ensures Valid() && open == Applied(old(open), r, e) && paths == old(paths)
      ensures ema == if e.kind.ToolStart? && wait.Some? then Some(Smoothed(alpha, old(ema), wait.value)) else old(ema)
    {
      if r !in open {
        open := open[r := {}];
        assert OpenPairs(open) == OpenPairs(old(open));
      }
      ghost var before := open;
      if e.kind.ToolStart? {
        OnePairMore(open, r, e.id);
        if e.id != "" && e.id !in open[r] {
          open := open[r := open[r] + {e.id}];
          inflight := inflight + 1;
        }
        if wait.Some? {
          ema := Some(Smoothed(alpha, ema, wait.value));
        }
        assert e.id in before[r] ==> before[r] + {e.id} == before[r];
        return;
      }
      OnePairLess(open, r, e.id);
      if e.id != "" && e.id in open[r] {
        open := open[r := open[r] - {e.id}];
        inflight := Max(0, inflight - 1);
      }
      assert e.id !in before[r] ==> before[r] - {e.id} == before[r];
    }
  }

  // ----- The smoothed wait -----

  function Blend(alpha: real, x: real, y: real): real {
    alpha * x + (1.0 - alpha) * y
  }

  function Smoothed(alpha: real, ema: Option<real>, wait: real): real {
    if ema.None? then wait else Blend(alpha, wait, ema.value)
  }

  /** The smoothed wait never leaves the range of the waits seen. */
  lemma SmoothedStaysInRange(alpha: real, ema: Option<real>, wait: real, lo: real, hi: real)
    requires 0.0 <= alpha <= 1.0 && lo <= wait <= hi && (ema.Some? ==> lo <= ema.value <= hi)
    ensures lo <= Smoothed(alpha, ema, wait) <= hi
  {
    if ema.Some? {
      Weighted(alpha, wait - lo);
      Weighted(1.0 - alpha, ema.value - lo);
      Weighted(alpha, hi - wait);
      Weighted(1.0 - alpha, hi - ema.value);
    }
  }

  lemma Weighted(weight: real, gap: real)
    requires weight >= 0.0 && gap >= 0.0
    ensures weight * gap >= 0.0
  {
  }

  /** The smoothed wait after these waits. */
  function SmoothedAll(alpha: real, waits: seq<real>): Option<real> {
    if waits == [] then None
    else Some(Smoothed(alpha, SmoothedAll(alpha, waits[..|waits| - 1]), waits[|waits| - 1]))
  }

  /** What k steps leave of a gap. */
  function Faded(alpha: real, gap: real, k: nat): real {
    if k == 0 then gap else (1.0 - alpha) * Faded(alpha, gap, k - 1)
  }

  lemma GapFades(alpha: real, ema: real, wait: real)
    ensures Smoothed(alpha, Some(ema), wait) - wait == (1.0 - alpha) * (ema - wait)
  {
  }

  lemma FirstWaitIsTaken(alpha: real, wait: real)
    ensures SmoothedAll(alpha, [wait]) == Some(wait)
  {
    assert [wait][..0] == [];
  }

  /** Under a steady wait the gap to it fades by the same factor each time. */
  lemma {:induction false} SteadyWaitIsApproached(alpha: real, waits: seq<real>, wait: real, k: nat)
    requires waits != []
    ensures var all := SmoothedAll(alpha, waits + seq(k, _ => wait));
            all.Some? && all.value - wait == Faded(alpha, SmoothedAll(alpha, waits).value - wait, k)
  {
    var all := waits + seq(k, _ => wait);
    if k == 0 {
      assert all == waits;
    } else {
      SteadyWaitIsApproached(alpha, waits, wait, k - 1);
      assert all[..|all| - 1] == waits + seq(k - 1, _ => wait) && all[|all| - 1] == wait;
      GapFades(alpha, SmoothedAll(alpha, all[..|all| - 1]).value, wait);
    }
  }

  // ----- The two together -----

  function AppliedAll(open: Open, r: string, events: seq<LiveEvent>): Open {
    if events == [] then open
    else Applied(AppliedAll(open, r, events[..|events| - 1]), r, events[|events| - 1])
  }

  lemma {:induction false} AppliedIsProjected(open: Open, r: string, events: seq<LiveEvent>, id: Id)
    requires ActiveOf(open, r) == {} && id != ""
    ensures id in ActiveOf(AppliedAll(open, r, events), r) <==>
            (Project(events, id) != [] && Project(events, id)[|Project(events, id)| - 1].ToolStart?)
  {
    if events != [] {
      AppliedIsProjected(open, r, events[..|events| - 1], id);
    }
  }

  /** Fed with the normaliser's events, the statistics hold exactly the tools the normaliser has open. */
  lemma StatisticsFollowNormaliser(c: Config, raws: seq<Raw>, open: Open, r: string, id: Id)
    requires ActiveOf(open, r) == {} && id != ""
    ensures var fed := FeedAll(c, Fresh, raws);
            && (id in ActiveOf(AppliedAll(open, r, fed.events), r) <==> id in fed.state.active)
            && id !in ActiveOf(AppliedAll(open, r, fed.events + Finish(fed.state).events), r)
  {
    FeedAllTracks(c, raws);
    var fed := FeedAll(c, Fresh, raws);
    EveryToolIsBracketedOnce(c, raws, id);
    AppliedIsProjected(open, r, fed.events, id);
    AppliedIsProjected(open, r, fed.events + Finish(fed.state).events, id);
    assert Project(fed.events, id) == Expected(fed.state, id);
  }
}
