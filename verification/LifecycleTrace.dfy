/**
 What the published trace shows of a lifecycle run, said on the records: which round holds which tool
 and attempt, and in what order.
 */
module LifecycleTrace {
  import opened Sequences
  import opened Lifecycle
  import Text

  /** In this order list, x stands before y. */
  ghost predicate StandsBefore(order: seq<Id>, x: Id, y: Id) {
    exists p, q :: 0 <= p < q < |order| && order[p] == x && order[q] == y
  }

  /** The list names its ids once, in the order of the longer list. */
  ghost predicate KeepsOrder(list: seq<Id>, order: seq<Id>) {
    Distinct(list) && forall i, j :: 0 <= i < j < |list| ==> StandsBefore(order, list[i], list[j])
  }

  lemma StandsBeforeInMore(order: seq<Id>, last: Id, x: Id, y: Id)
    ensures StandsBefore(order, x, y) ==> StandsBefore(order + [last], x, y)
    ensures x in order ==> StandsBefore(order + [last], x, last)
  {
    var all := order + [last];
    assert all[|order|] == last && forall k :: 0 <= k < |order| ==> all[k] == order[k];
    if StandsBefore(order, x, y) {
      var p, q :| 0 <= p < q < |order| && order[p] == x && order[q] == y;
      assert all[p] == x && all[q] == y;
    }
    if x in order {
      var p :| 0 <= p < |order| && order[p] == x;
      assert all[p] == x;
    }
  }

  lemma OneMoreKeepsOrder(list: seq<Id>, order: seq<Id>, last: Id)
    requires KeepsOrder(list, order) && last !in order && forall x <- list :: x in order
    ensures KeepsOrder(list, order + [last]) && KeepsOrder(list + [last], order + [last])
  {
    forall i, j | 0 <= i < j < |list|
      ensures StandsBefore(order + [last], list[i], list[j])
    {
      StandsBeforeInMore(order, last, list[i], list[j]);
    }
    forall i | 0 <= i < |list|
      ensures StandsBefore(order + [last], list[i], last)
    {
      assert list[i] in order;
      StandsBeforeInMore(order, last, list[i], last);
    }
  }

  lemma {:induction false} OwnedIsChosen(order: seq<Id>, owner: map<Id, Option<Id>>, owners: set<Option<Id>>)
    requires Distinct(order)
    ensures var list := Owned(order, owner, owners);
            && KeepsOrder(list, order)
            && forall x :: x in list <==> x in order && x in owner && owner[x] in owners
  {
    if order != [] {
      var init, last := order[..|order| - 1], order[|order| - 1];
      assert order == init + [last];
      OwnedIsChosen(init, owner, owners);
      OneMoreKeepsOrder(Owned(init, owner, owners), init, last);
    }
  }

  lemma {:induction false} UnownedIsChosen(order: seq<Id>, owner: map<Id, Option<Id>>, known: set<Id>)
    requires Distinct(order)
    ensures var list := Unowned(order, owner, known);
            && KeepsOrder(list, order)
            && forall x :: x in list <==>
                 x in order && !(x in owner && owner[x].Some? && owner[x].value in known)
  {
    if order != [] {
      var init, last := order[..|order| - 1], order[|order| - 1];
      assert order == init + [last];
      UnownedIsChosen(init, owner, known);
      OneMoreKeepsOrder(Unowned(init, owner, known), init, last);
    }
  }

  /** The row shows the round, the attempts recorded for it, and the tools whose parent it is. */
  ghost predicate Shows(s: State, row: RoundRow, id: Id) {
    && row.id == id
    && (forall x :: x in row.attempts <==> x in s.attempts && s.attempts[x].round == id)
    && (forall x :: x in row.tools <==> x in s.tools && s.tools[x].parent == Some(id))
    && KeepsOrder(row.attempts, s.attemptOrder) && KeepsOrder(row.tools, s.toolOrder)
  }

  lemma RowShows(s: State, id: Id)
    requires WellKept(s)
    ensures Shows(s, RoundRow(id, Owned(s.attemptOrder, AttemptOwners(s), {Some(id)}),
                              Owned(s.toolOrder, ToolOwners(s), {Some(id)})), id)
  {
    OwnedIsChosen(s.attemptOrder, AttemptOwners(s), {Some(id)});
    OwnedIsChosen(s.toolOrder, ToolOwners(s), {Some(id)});
    InOrderExactlyWhenKnown(s.attemptOrder, s.attempts);
    InOrderExactlyWhenKnown(s.toolOrder, s.tools);
  }

  lemma InOrderExactlyWhenKnown<T>(order: seq<Id>, records: map<Id, T>)
    requires Enumerates(order, records)
    ensures forall x :: x in order <==> x in records
  {
    forall x
      ensures x in order <==> x in records
    {
      assert x in order <==> x in Elements(order);
    }
  }

  lemma {:induction false} RowsShow(s: State, order: seq<Id>)
    requires WellKept(s)
    ensures |RoundRows(s, order)| == |order|
    ensures forall k :: 0 <= k < |order| ==> Shows(s, RoundRows(s, order)[k], order[k])
  {
    if order != [] {
      RowsShow(s, order[..|order| - 1]);
      RowShows(s, order[|order| - 1]);
    }
  }

  /**
   Over every run: one row a round, in the order of the rounds; a tool is in the row of its parent, and an orphan
   exactly if it has no parent or an unknown one; an attempt is in the row of its round; lists keep their order.
   */
  lemma TraceShowsRecords(events: seq<Event>)
    ensures var s := Run(Empty, events); var t := Snapshot(s);
            && |t.rounds| == |s.roundOrder|
            && (forall k :: 0 <= k < |t.rounds| ==> Shows(s, t.rounds[k], s.roundOrder[k]))
            && (forall x :: x in t.orphanTools <==>
                  && x in s.tools
                  && (s.tools[x].parent.None? || s.tools[x].parent.value !in s.rounds))
            && KeepsOrder(t.orphanTools, s.toolOrder)
  {
    var s := Run(Empty, events);
    RunKeepsWell(Empty, events);
    RowsShow(s, s.roundOrder);
    UnownedIsChosen(s.toolOrder, ToolOwners(s), s.rounds.Keys);
    InOrderExactlyWhenKnown(s.toolOrder, s.tools);
  }

  /** A queued tool is shown under the round it was queued for. */
  lemma QueuedToolIsShownInItsRound(name: string, at: real)
    requires !Text.IsBlank(name)
    ensures var events := [Event(RoundStarted("r", true), at), Event(ToolQueued("x", name, Some("r"), true), at)];
            var t := Snapshot(Run(Empty, events));
            t.rounds == [RoundRow("r", [], ["x"])] && t.orphanTools == []
  {
    assert !Text.IsSpace("r"[0]) && !Text.IsSpace("x"[0]);
    var start, queue := RoundStarted("r", true), ToolQueued("x", name, Some("r"), true);
    TwoCalls(start, queue, at);
    var s := Do(Do(Empty, start, at).state, queue, at).state;
    assert s.roundOrder == ["r"] && s.toolOrder == ["x"] && s.attemptOrder == [];
    assert s.tools["x"].parent == Some("r");
    assert ["x"][..0] == [] && ["r"][..0] == [];
    assert ToolOwners(s)["x"] == Some("r");
    assert Owned([], ToolOwners(s), {Some("r")}) == [] && Unowned([], ToolOwners(s), s.rounds.Keys) == [];
    assert RoundRows(s, []) == [];
  }
}
