/**
 Which tools a stream of raw rows starts and ends, said on the rows.
 */
module LiveRows {
  import opened Sequences
  import opened LiveTools

  /** A row that reports an update of a to-do list. */
  predicate IsTodo(raw: Raw) {
    raw.CodexItem? && raw.id != "" && raw.itemType.TodoList? && (raw.phase.Started? || raw.phase.Updated?)
  }

  /** How many of the rows update this list. */
  function Todos(raws: seq<Raw>, id: Id): nat {
    if raws == [] then 0
    else
      var last := raws[|raws| - 1];
      Todos(raws[..|raws| - 1], id) + if IsTodo(last) && last.id == id then 1 else 0
  }

  /** Tools that the wrapper times itself are left to it. */
  predicate IsTimedElsewhere(c: Config, raw: Raw) {
    match raw
    case CodexItem(_, itemType, _) => itemType.Command? && c.codexShellTiming
    case OpenCodeTool(_, isBash, _) => isBash && c.opencodeShellTiming
    case Unrelated => false
  }

  /** The tool that the row is about, after these earlier rows: an update has an id of its own, by its number. */
  predicate Shows(c: Config, before: seq<Raw>, raw: Raw, id: Id) {
    if IsTodo(raw) then id == UpdateId(raw.id, Todos(before, raw.id))
    else
      && !raw.Unrelated? && raw.id != "" && raw.id == id && !IsTimedElsewhere(c, raw)
      && (raw.CodexItem? ==>
            && (raw.itemType.Command? || raw.itemType.OtherInterval?)
            && (raw.phase.Started? || raw.phase.Completed?))
  }

  predicate Closes(c: Config, before: seq<Raw>, raw: Raw, id: Id) {
    && Shows(c, before, raw, id)
    && (IsTodo(raw) || (raw.CodexItem? && raw.phase.Completed?) || (raw.OpenCodeTool? && raw.terminal))
  }

  ghost predicate IsShown(c: Config, raws: seq<Raw>, id: Id) {
    exists i :: 0 <= i < |raws| && Shows(c, raws[..i], raws[i], id)
  }

  ghost predicate IsClosed(c: Config, raws: seq<Raw>, id: Id) {
    exists i :: 0 <= i < |raws| && Closes(c, raws[..i], raws[i], id)
  }

  lemma OneMoreRow(c: Config, raws: seq<Raw>, raw: Raw, id: Id)
    ensures IsShown(c, raws + [raw], id) <==> IsShown(c, raws, id) || Shows(c, raws, raw, id)
    ensures IsClosed(c, raws + [raw], id) <==> IsClosed(c, raws, id) || Closes(c, raws, raw, id)
    ensures Todos(raws + [raw], id) == Todos(raws, id) + if IsTodo(raw) && raw.id == id then 1 else 0
  {
    var all := raws + [raw];
    assert all[..|raws|] == raws && all[|raws|] == raw;
    assert forall i :: 0 <= i < |raws| ==> all[..i] == raws[..i] && all[i] == raws[i];
    if IsShown(c, raws, id) {
      var i :| 0 <= i < |raws| && Shows(c, raws[..i], raws[i], id);
      assert Shows(c, all[..i], all[i], id);
    }
    if IsClosed(c, raws, id) {
      var i :| 0 <= i < |raws| && Closes(c, raws[..i], raws[i], id);
      assert Closes(c, all[..i], all[i], id);
    }
    if Shows(c, raws, raw, id) {
      assert Shows(c, all[..|raws|], all[|raws|], id);
    }
    if Closes(c, raws, raw, id) {
      assert Closes(c, all[..|raws|], all[|raws|], id);
    }
  }

  predicate IsKnown(s: State, id: Id) {
    id in s.active || id in s.finished
  }

  /** The counters are the numbers of updates so far. */
  ghost predicate Counts(s: State, raws: seq<Raw>) {
    forall id :: (if id in s.updates then s.updates[id] else 0) == Todos(raws, id)
  }

  lemma StartKnows(s: State, id: Id, x: Id)
    ensures var t := Start(s, id).state;
            && (IsKnown(t, x) <==> IsKnown(s, x) || x == id)
            && t.finished == s.finished && t.updates == s.updates
  {
  }

  lemma {:induction false} RemovalKeepsOthers(order: seq<Id>, id: Id, x: Id)
    requires x != id
    ensures x in RemoveFirst(order, id) <==> x in order
  {
    if order != [] {
      assert order == [order[0]] + order[1..];
      RemovalKeepsOthers(order[1..], id, x);
    }
  }

  lemma EndKnows(s: State, id: Id, x: Id)
    requires IsKnown(s, id)
    ensures var t := End(s, id).state;
            && (IsKnown(t, x) <==> IsKnown(s, x))
            && t.finished == s.finished + {id} && t.updates == s.updates
  {
    if x != id {
      RemovalKeepsOthers(s.active, id, x);
    }
  }

  lemma BracketKnows(s: State, id: Id, x: Id)
    ensures var t := Bracket(s, id).state;
            && (IsKnown(t, x) <==> IsKnown(s, x) || x == id)
            && t.finished == s.finished + {id} && t.updates == s.updates
  {
    StartKnows(s, id, id);
    StartKnows(s, id, x);
    EndKnows(Start(s, id).state, id, x);
  }

  lemma TodoKnows(c: Config, s: State, raws: seq<Raw>, raw: Raw, x: Id)
    requires Counts(s, raws) && IsTodo(raw)
    ensures var t := Feed(c, s, raw).state; var n := Todos(raws, raw.id);
            && (IsKnown(t, x) <==> IsKnown(s, x) || x == UpdateId(raw.id, n))
            && t.finished == s.finished + {UpdateId(raw.id, n)} && t.updates == s.updates[raw.id := n + 1]
  {
    var n := if raw.id in s.updates then s.updates[raw.id] else 0;
    BracketKnows(s.(updates := s.updates[raw.id := n + 1]), UpdateId(raw.id, n), x);
  }

  lemma RowKnows(c: Config, s: State, raws: seq<Raw>, raw: Raw, x: Id)
    requires !IsTodo(raw)
    ensures var t := Feed(c, s, raw).state;
            && (IsKnown(t, x) <==> IsKnown(s, x) || Shows(c, raws, raw, x))
            && (x in t.finished <==> x in s.finished || Closes(c, raws, raw, x))
            && t.updates == s.updates
  {
    if !raw.Unrelated? {
      BracketKnows(s, raw.id, x);
      StartKnows(s, raw.id, x);
    }
  }

  lemma FeedCounts(c: Config, s: State, raws: seq<Raw>, raw: Raw)
    requires Counts(s, raws)
    ensures Counts(Feed(c, s, raw).state, raws + [raw])
  {
    if IsTodo(raw) {
      TodoKnows(c, s, raws, raw, "");
    } else {
      RowKnows(c, s, raws, raw, "");
    }
    forall id
      ensures Todos(raws + [raw], id) == Todos(raws, id) + if IsTodo(raw) && raw.id == id then 1 else 0
    {
      OneMoreRow(c, raws, raw, id);
    }
  }

  lemma FeedKnows(c: Config, s: State, raws: seq<Raw>, raw: Raw, x: Id)
    requires Counts(s, raws)
    ensures var t := Feed(c, s, raw).state;
            && (IsKnown(t, x) <==> IsKnown(s, x) || Shows(c, raws, raw, x))
            && (x in t.finished <==> x in s.finished || Closes(c, raws, raw, x))
  {
    if IsTodo(raw) {
      TodoKnows(c, s, raws, raw, x);
    } else {
      RowKnows(c, s, raws, raw, x);
    }
  }

  lemma {:induction false} FeedAllKnows(c: Config, raws: seq<Raw>, x: Id)
    ensures var s := FeedAll(c, Fresh, raws).state;
            && (IsKnown(s, x) <==> IsShown(c, raws, x))
            && (x in s.finished <==> IsClosed(c, raws, x))
            && Counts(s, raws)
  {
    if raws != [] {
      var init, last := raws[..|raws| - 1], raws[|raws| - 1];
      assert raws == init + [last];
      FeedAllKnows(c, init, x);
      FeedKnows(c, FeedAll(c, Fresh, init).state, init, last, x);
      FeedCounts(c, FeedAll(c, Fresh, init).state, init, last);
      OneMoreRow(c, init, last, x);
    }
  }

  lemma {:induction false} ToldExactlyWhenProjected(events: seq<LiveEvent>, id: Id, kind: Kind)
    ensures LiveEvent(kind, id) in events <==> kind in Project(events, id)
  {
    if events != [] {
      ToldExactlyWhenProjected(events[..|events| - 1], id, kind);
      assert events == events[..|events| - 1] + [events[|events| - 1]];
    }
  }

  /** A tool is started exactly if some row shows it, and ended before the finish exactly if some row closes it. */
  lemma ToolsAreStartedExactlyWhenShown(c: Config, raws: seq<Raw>, id: Id)
    ensures var fed := FeedAll(c, Fresh, raws);
            && (LiveEvent(ToolStart, id) in fed.events <==> IsShown(c, raws, id))
            && (LiveEvent(ToolEnd, id) in fed.events <==> IsClosed(c, raws, id))
  {
    var fed := FeedAll(c, Fresh, raws);
    FeedAllKnows(c, raws, id);
    FeedAllTracks(c, raws);
    ToldExactlyWhenProjected(fed.events, id, ToolStart);
    ToldExactlyWhenProjected(fed.events, id, ToolEnd);
    assert Project(fed.events, id) == Expected(fed.state, id);
  }
}
