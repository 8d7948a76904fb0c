/**
 Output positions. A tool call's running events are placed by its tool index and by
 whether text has started; its done events by its rank in the final output.
 */
module StreamPositions {
  import opened Sequences
  import opened ResponsesStream
  import opened StreamChannels

  predicate IsCallBody(b: Body) {
    SubjectOf(b).TheCall?
  }

  /** Every event about a call gives the call the same output position. */
  ghost predicate Agree(events: seq<Event>) {
    forall j, k :: 0 <= j < |events| && 0 <= k < |events| && IsCallBody(events[j].body)
                   && SubjectOf(events[j].body) == SubjectOf(events[k].body) ==>
      events[j].body.outputIndex == events[k].body.outputIndex
  }

  // ----- The condition, on the atoms alone -----

  /** Text has started before this atom. */
  predicate TextBefore(atoms: seq<Atom>, j: nat)
    requires j <= |atoms|
  {
    TextOf(atoms[..j]) != ""
  }

  /** The atom makes the stream say something about its call: it is the first, or it has arguments. */
  ghost predicate Speaks(atoms: seq<Atom>, j: nat) {
    && j < |atoms| && atoms[j].Tool?
    && (atoms[j].arguments != "" || forall k :: 0 <= k < j && atoms[k].Tool? ==> atoms[k].index != atoms[j].index)
  }

  ghost function ToolIndices(atoms: seq<Atom>): set<int> {
    set j | 0 <= j < |atoms| && atoms[j].Tool? :: atoms[j].index
  }

  ghost function Rank(indices: set<int>, i: int): nat {
    |set m | m in indices && m < i|
  }

  /** The call's place in the final output: after the message, if there is one, by rank. */
  ghost function Place(atoms: seq<Atom>, i: int): int {
    (if TextOf(atoms) != "" then 1 else 0) + Rank(ToolIndices(atoms), i)
  }

  /** The atom comes before the text, and its place is its index, or after the text, and its place is one more. */
  ghost predicate Fits(atoms: seq<Atom>, j: nat)
    requires j < |atoms| && atoms[j].Tool?
  {
    var shift := Place(atoms, atoms[j].index) - atoms[j].index;
    (shift == 0 && !TextBefore(atoms, j)) || (shift == 1 && TextBefore(atoms, j))
  }

  ghost predicate AllFit(atoms: seq<Atom>) {
    forall j: nat :: Speaks(atoms, j) ==> Fits(atoms, j)
  }

  // ----- What the running events say -----

  /** The event is about the atom's call, at the position the atom gives it. */
  ghost predicate VoicedBy(atoms: seq<Atom>, j: nat, b: Body) {
    && Speaks(atoms, j) && SubjectOf(b) == TheCall(atoms[j].index)
    && b.outputIndex == atoms[j].index + if TextBefore(atoms, j) then 1 else 0
  }

  ghost predicate AllVoiced(events: seq<Event>, atoms: seq<Atom>) {
    forall k :: 0 <= k < |events| && IsCallBody(events[k].body) ==> exists j: nat :: VoicedBy(atoms, j, events[k].body)
  }

  ghost predicate HeardFrom(events: seq<Event>, atoms: seq<Atom>, j: nat) {
    exists k :: 0 <= k < |events| && VoicedBy(atoms, j, events[k].body)
  }

  lemma SpeaksInPrefix(init: seq<Atom>, last: Atom, j: nat)
    requires j < |init|
    ensures Speaks(init + [last], j) <==> Speaks(init, j)
    ensures TextBefore(init + [last], j) == TextBefore(init, j)
    ensures forall b :: VoicedBy(init + [last], j, b) <==> VoicedBy(init, j, b)
  {
    var all := init + [last];
    assert all[..j] == init[..j];
    assert forall k :: 0 <= k < |init| ==> all[k] == init[k];
  }

  lemma {:induction false} ItemsAreIndices(atoms: seq<Atom>)
    requires !Run(atoms).raised
    ensures Run(atoms).items.Keys == ToolIndices(atoms)
  {
    if atoms != [] {
      var init, last := atoms[..|atoms| - 1], atoms[|atoms| - 1];
      ItemsAreIndices(init);
      StepItems(Run(init), last);
      IndicesMore(init, last);
      assert atoms == init + [last];
    }
  }

  lemma StepItems(s: State, a: Atom)
    requires !s.raised
    ensures Step(s, a).items.Keys == s.items.Keys + if a.Tool? then {a.index} else {}
  {
  }

  lemma IndicesMore(init: seq<Atom>, last: Atom)
    ensures ToolIndices(init + [last]) == ToolIndices(init) + if last.Tool? then {last.index} else {}
  {
    var all := init + [last];
    assert all[|init|] == last;
    assert forall k :: 0 <= k < |init| ==> all[k] == init[k];
    forall i
      ensures i in ToolIndices(all) <==> i in ToolIndices(init) || (last.Tool? && i == last.index)
    {
      if i in ToolIndices(init) {
        var k :| 0 <= k < |init| && init[k].Tool? && init[k].index == i;
        assert all[k].Tool? && all[k].index == i;
      }
      if last.Tool? && i == last.index {
        assert all[|init|].Tool? && all[|init|].index == i;
      }
    }
  }

  /**
   What one step adds: for a tool atom that speaks, events about its call at its place; otherwise none about
   calls.
   */
  ghost predicate Adds(s: State, a: Atom, t: State) {
    && s.events <= t.events
    && (forall k :: |s.events| <= k < |t.events| && IsCallBody(t.events[k].body) ==>
          && a.Tool? && SubjectOf(t.events[k].body) == TheCall(a.index)
          && t.events[k].body.outputIndex == Base(s) + a.index)
  }

  lemma ToolAdds(s: State, a: Atom)
    requires !s.raised && a.Tool?
    ensures Adds(s, a, Step(s, a))
    ensures |Step(s, a).events| > |s.events| <==> a.index !in s.items || a.arguments != ""
    ensures forall k :: |s.events| <= k < |Step(s, a).events| ==> IsCallBody(Step(s, a).events[k].body)
  {
    var w := WithItem(s, a.index, a.id);
    assert s.events <= w.events && Base(w) == Base(s);
    assert w.events <= WithFunction(w, a.index, a.name, a.arguments).events;
  }

  lemma OtherAdds(s: State, a: Atom)
    requires !a.Tool?
    ensures Adds(s, a, Step(s, a))
  {
  }

  lemma LastSpeaks(init: seq<Atom>, a: Atom)
    requires a.Tool? && !Run(init).raised
    ensures Speaks(init + [a], |init|) <==> a.index !in Run(init).items || a.arguments != ""
    ensures Base(Run(init)) == if TextBefore(init + [a], |init|) then 1 else 0
  {
    var all := init + [a];
    assert all[..|init|] == init && all[|init|] == a;
    assert forall k :: 0 <= k < |init| ==> all[k] == init[k];
    ItemsAreIndices(init);
    RunReadsChannels(init);
    if a.index in ToolIndices(init) {
      var k :| 0 <= k < |init| && init[k].Tool? && init[k].index == a.index;
      assert all[k].Tool? && all[k].index == a.index;
    }
  }

  lemma {:induction false} RunIsVoiced(atoms: seq<Atom>)
    requires !Run(atoms).raised
    ensures AllVoiced(Run(atoms).events, atoms)
  {
    if atoms != [] {
      var init, last := atoms[..|atoms| - 1], atoms[|atoms| - 1];
      assert atoms == init + [last];
      RunIsVoiced(init);
      StepIsVoiced(init, last);
    }
  }

  lemma StepIsVoiced(init: seq<Atom>, last: Atom)
    requires !Run(init).raised && AllVoiced(Run(init).events, init)
    ensures AllVoiced(Step(Run(init), last).events, init + [last])
  {
    var s, t, all := Run(init), Step(Run(init), last), init + [last];
    if last.Tool? {
      ToolAdds(s, last);
      LastSpeaks(init, last);
    } else {
      OtherAdds(s, last);
    }
    forall k | 0 <= k < |t.events| && IsCallBody(t.events[k].body)
      ensures exists j: nat :: VoicedBy(all, j, t.events[k].body)
    {
      if k < |s.events| {
        assert t.events[k] == s.events[k];
        var j: nat :| VoicedBy(init, j, s.events[k].body);
        SpeaksInPrefix(init, last, j);
        assert VoicedBy(all, j, t.events[k].body);
      } else {
        assert VoicedBy(all, |init|, t.events[k].body);
      }
    }
  }

  lemma {:induction false} EverySpeakerIsHeard(atoms: seq<Atom>, j: nat)
    requires !Run(atoms).raised && Speaks(atoms, j)
    ensures HeardFrom(Run(atoms).events, atoms, j)
  {
    var init, last := atoms[..|atoms| - 1], atoms[|atoms| - 1];
    assert atoms == init + [last];
    var s, t := Run(init), Run(atoms);
    if j < |init| {
      SpeaksInPrefix(init, last, j);
      EverySpeakerIsHeard(init, j);
      var k :| 0 <= k < |s.events| && VoicedBy(init, j, s.events[k].body);
      StepAppends(s, last);
      assert t.events[k] == s.events[k];
      assert VoicedBy(atoms, j, t.events[k].body);
    } else {
      ToolAdds(s, last);
      LastSpeaks(init, last);
      assert VoicedBy(atoms, j, t.events[|s.events|].body);
    }
  }

  lemma StepAppends(s: State, atom: Atom)
    ensures s.events <= Step(s, atom).events
  {
    if !s.raised && atom.Tool? {
      var a := WithItem(s, atom.index, atom.id);
      assert s.events <= a.events;
      assert a.events <= WithFunction(a, atom.index, atom.name, atom.arguments).events;
    }
  }

  // ----- Closing events -----

  lemma {:induction false} ClosingPositions(items: seq<Item>, base: int, status: Status)
    ensures forall b <- CallClosings(items, base, status) ::
              exists k :: 0 <= k < |items| && SubjectOf(b) == TheCall(items[k].index) && b.outputIndex == base + k
  {
    if items != [] {
      var init, last, position := items[..|items| - 1], items[|items| - 1], base + |items| - 1;
      ClosingPositions(init, base, status);
      forall b | b in CallClosings(items, base, status)
        ensures exists k :: 0 <= k < |items| && SubjectOf(b) == TheCall(items[k].index) && b.outputIndex == base + k
      {
        if b in CallClosings(init, base, status) {
          var k :| 0 <= k < |init| && SubjectOf(b) == TheCall(init[k].index) && b.outputIndex == base + k;
          assert items[k] == init[k];
        } else {
          assert b in CallClosing(last, position, status);
          assert SubjectOf(b) == TheCall(items[|items| - 1].index);
        }
      }
    }
  }

  lemma {:induction false} EveryCallIsClosed(items: seq<Item>, base: int, status: Status, k: nat) returns (m: nat)
    requires k < |items|
    ensures var calls := CallClosings(items, base, status);
            m < |calls| && SubjectOf(calls[m]) == TheCall(items[k].index) && calls[m].outputIndex == base + k
  {
    var before := CallClosings(items[..|items| - 1], base, status);
    if k < |items| - 1 {
      m := EveryCallIsClosed(items[..|items| - 1], base, status, k);
    } else {
      m := |before|;
    }
  }

  lemma MessageBodiesAreNotCalls(s: State)
    ensures forall b <- MessageClosing(s) + BareClosing(s) :: !IsCallBody(b)
  {
  }

  lemma ClosingIsAppended(s: State)
    ensures var events, n := Close(s).events, |s.events|;
            && s.events <= events && |events| == n + |Closing(s)|
            && forall k :: n <= k < |events| ==> events[k].body == Closing(s)[k - n]
  {
    SayAllAppends(s, Closing(s));
  }

  /** In the closing of a finished stream the calls' done events are all the events about calls. */
  lemma ClosingIsAboutCalls(s: State)
    requires EndingOf(s).EndDone?
    ensures forall k :: 0 <= k < |Closing(s)| && IsCallBody(Closing(s)[k]) ==>
              Closing(s)[k] in CallClosings(Ordered(s), Base(s), StatusOf(s))
  {
    var calls, closing := CallClosings(Ordered(s), Base(s), StatusOf(s)), Closing(s);
    MessageBodiesAreNotCalls(s);
    forall k | 0 <= k < |closing| && IsCallBody(closing[k])
      ensures closing[k] in calls
    {
      assert closing[k] in MessageClosing(s) + calls + BareClosing(s) + [Terminal(EndingOf(s))];
    }
  }

  lemma CallClosingsAreInTheMiddle(s: State, m: nat)
    requires EndingOf(s).EndDone? && m < |CallClosings(Ordered(s), Base(s), StatusOf(s))|
    ensures var k := |MessageClosing(s)| + m;
            k < |Closing(s)| && Closing(s)[k] == CallClosings(Ordered(s), Base(s), StatusOf(s))[m]
  {
    var first, calls := MessageClosing(s), CallClosings(Ordered(s), Base(s), StatusOf(s));
    var rest := BareClosing(s) + [Terminal(EndingOf(s))];
    assert Closing(s) == first + calls + rest;
  }

  lemma CallClosingsAreSaid(s: State, m: nat) returns (k: nat)
    requires EndingOf(s).EndDone? && m < |CallClosings(Ordered(s), Base(s), StatusOf(s))|
    ensures k < |Close(s).events| && Close(s).events[k].body == CallClosings(Ordered(s), Base(s), StatusOf(s))[m]
  {
    k := |s.events| + (|MessageClosing(s)| + m);
    CallClosingsAreInTheMiddle(s, m);
    ClosingIsAppended(s);
    assert Close(s).events[k].body == Closing(s)[|MessageClosing(s)| + m];
  }

  // ----- When the positions agree -----

  ghost predicate HasCallAt(events: seq<Event>, i: int, position: int) {
    exists k :: 0 <= k < |events| && SubjectOf(events[k].body) == TheCall(i) && events[k].body.outputIndex == position
  }

  lemma TwoPositionsDisagree(events: seq<Event>, i: int, p: int, q: int)
    requires HasCallAt(events, i, p) && HasCallAt(events, i, q) && p != q
    ensures !Agree(events)
  {
    var j :| 0 <= j < |events| && SubjectOf(events[j].body) == TheCall(i) && events[j].body.outputIndex == p;
    var k :| 0 <= k < |events| && SubjectOf(events[k].body) == TheCall(i) && events[k].body.outputIndex == q;
  }

  lemma PrefixHasCall(events: seq<Event>, all: seq<Event>, i: int, position: int)
    requires events <= all && HasCallAt(events, i, position)
    ensures HasCallAt(all, i, position)
  {
    var k :| 0 <= k < |events| && SubjectOf(events[k].body) == TheCall(i) && events[k].body.outputIndex == position;
    assert all[k] == events[k];
  }

  lemma ClosedAtRank(s: State, k: nat)
    requires EndingOf(s).EndDone? && k < |Ordered(s)|
    ensures HasCallAt(Close(s).events, Ordered(s)[k].index, Base(s) + k)
  {
    var m := EveryCallIsClosed(Ordered(s), Base(s), StatusOf(s), k);
    var e := CallClosingsAreSaid(s, m);
  }

  lemma PlaceOfRank(atoms: seq<Atom>, k: nat)
    requires !Run(atoms).raised && k < |Ordered(Run(atoms))|
    ensures var s := Run(atoms); Base(s) + k == Place(atoms, Ordered(s)[k].index)
  {
    var s := Run(atoms);
    RunTellsAll(atoms);
    assert forall i <- s.items :: CallTold(s, i);
    OrderedIsInOrder(s);
    ItemsAreIndices(atoms);
    RunReadsChannels(atoms);
    RankInOrder(s.items.Keys, k);
  }

  /** In sorted order, the k-th key has rank k. */
  lemma RankInOrder(keys: set<int>, k: nat)
    requires k < |SortedKeys(keys)|
    ensures Rank(keys, SortedKeys(keys)[k]) == k
  {
    var sorted := SortedKeys(keys);
    SortedKeysAreKeys(keys);
    assert (set m | m in keys && m < sorted[k]) == Elements(sorted[..k]) by {
      forall m
        ensures (m in keys && m < sorted[k]) <==> m in sorted[..k]
      {
        if m in keys && m < sorted[k] {
          assert m in sorted;
          var n :| 0 <= n < |sorted| && sorted[n] == m;
          assert sorted[..k][n] == m;
        }
        if m in sorted[..k] {
          var n :| 0 <= n < k && sorted[n] == m;
          assert m in sorted;
        }
      }
    }
    DistinctCardinality(sorted[..k]);
  }

  ghost predicate AllAtPlace(events: seq<Event>, atoms: seq<Atom>) {
    forall k :: 0 <= k < |events| && IsCallBody(events[k].body) ==>
      events[k].body.outputIndex == Place(atoms, SubjectOf(events[k].body).index)
  }

  lemma AtPlaceMeansAgree(events: seq<Event>, atoms: seq<Atom>)
    requires AllAtPlace(events, atoms)
    ensures Agree(events)
  {
  }

  lemma FittingRunsAtPlace(atoms: seq<Atom>)
    requires !Run(atoms).raised && AllFit(atoms)
    ensures AllAtPlace(Run(atoms).events, atoms)
  {
    var events := Run(atoms).events;
    RunIsVoiced(atoms);
    forall k | 0 <= k < |events| && IsCallBody(events[k].body)
      ensures events[k].body.outputIndex == Place(atoms, SubjectOf(events[k].body).index)
    {
      var j: nat :| VoicedBy(atoms, j, events[k].body);
      assert Fits(atoms, j);
    }
  }

  lemma FittingAgrees(atoms: seq<Atom>)
    requires EndingOf(Run(atoms)).EndDone? && AllFit(atoms)
    ensures Agree(Translate(atoms))
  {
    var s, events := Run(atoms), Translate(atoms);
    FittingRunsAtPlace(atoms);
    ClosingIsAppended(s);
    ClosingIsAboutCalls(s);
    ClosingPositions(Ordered(s), Base(s), StatusOf(s));
    forall k | 0 <= k < |events| && IsCallBody(events[k].body)
      ensures events[k].body.outputIndex == Place(atoms, SubjectOf(events[k].body).index)
    {
      if k < |s.events| {
        assert events[k] == s.events[k];
      } else {
        var m :| 0 <= m < |Ordered(s)| && SubjectOf(events[k].body) == TheCall(Ordered(s)[m].index)
                 && events[k].body.outputIndex == Base(s) + m;
        PlaceOfRank(atoms, m);
      }
    }
    AtPlaceMeansAgree(events, atoms);
  }

  lemma SpeakerIsItem(atoms: seq<Atom>, j: nat) returns (k: nat)
    requires !Run(atoms).raised && Speaks(atoms, j)
    ensures k < |Ordered(Run(atoms))| && Ordered(Run(atoms))[k].index == atoms[j].index
  {
    var s := Run(atoms);
    RunTellsAll(atoms);
    assert forall i <- s.items :: CallTold(s, i);
    OrderedIsInOrder(s);
    ItemsAreIndices(atoms);
    assert atoms[j].index in ToolIndices(atoms);
    k :| 0 <= k < |Ordered(s)| && Ordered(s)[k].index == atoms[j].index;
  }

  lemma MisfitDisagrees(atoms: seq<Atom>, j: nat)
    requires EndingOf(Run(atoms)).EndDone? && Speaks(atoms, j) && !Fits(atoms, j)
    ensures !Agree(Translate(atoms))
  {
    var s, i := Run(atoms), atoms[j].index;
    var position := i + if TextBefore(atoms, j) then 1 else 0;
    EverySpeakerIsHeard(atoms, j);
    assert HasCallAt(s.events, i, position);
    ClosingIsAppended(s);
    PrefixHasCall(s.events, Close(s).events, i, position);
    var k := SpeakerIsItem(atoms, j);
    ClosedAtRank(s, k);
    PlaceOfRank(atoms, k);
    TwoPositionsDisagree(Close(s).events, i, position, Base(s) + k);
  }

  /**
   For every finished stream: positions agree exactly when every atom that speaks about its call
   fits, that is, comes before the text if the call's final place is its index, and after it if
   the place is one more.
   */
  lemma PositionsAgreeExactlyWhen(atoms: seq<Atom>)
    requires EndingOf(Run(atoms)).EndDone?
    ensures Agree(Translate(atoms)) <==> AllFit(atoms)
  {
    if AllFit(atoms) {
      FittingAgrees(atoms);
    } else {
      var j: nat :| Speaks(atoms, j) && !Fits(atoms, j);
      MisfitDisagrees(atoms, j);
    }
  }

  // ----- Punctual text and dense indices -----

  /** The first text comes after a tool call was added. */
  predicate LateText(atoms: seq<Atom>) {
    atoms != []
    && (|| LateText(atoms[..|atoms| - 1])
        || (&& atoms[|atoms| - 1].Text? && atoms[|atoms| - 1].text != ""
            && TextOf(atoms[..|atoms| - 1]) == ""
            && exists k | 0 <= k < |atoms| - 1 :: atoms[k].Tool?))
  }

  /** The tool indices are 0, 1, ..., n - 1. */
  ghost predicate Dense(s: State) {
    forall i :: i in s.items <==> 0 <= i < |s.items|
  }

  lemma TextGrows(init: seq<Atom>, last: Atom)
    ensures TextOf(init + [last]) == TextOf(init) + if last.Text? then last.text else ""
  {
    assert (init + [last])[..|init|] == init;
  }

  lemma {:induction false} TextOfPrefix(atoms: seq<Atom>, n: nat)
    requires n <= |atoms| && TextOf(atoms[..n]) != ""
    ensures TextOf(atoms) != ""
  {
    if n < |atoms| {
      var init := atoms[..|atoms| - 1];
      assert init[..n] == atoms[..n];
      TextOfPrefix(init, n);
    } else {
      assert atoms[..n] == atoms;
    }
  }

  /** With punctual text, a tool atom has text before it whenever there is text at all. */
  lemma {:induction false} PunctualTextIsBefore(atoms: seq<Atom>, j: nat)
    requires !LateText(atoms) && j < |atoms| && atoms[j].Tool?
    ensures TextBefore(atoms, j) <==> TextOf(atoms) != ""
  {
    var init, last := atoms[..|atoms| - 1], atoms[|atoms| - 1];
    assert atoms == init + [last];
    TextGrows(init, last);
    if j < |init| {
      PunctualTextIsBefore(init, j);
      assert atoms[..j] == init[..j];
    } else {
      assert atoms[..j] == init;
      assert TextOf(init) + "" == TextOf(init);
    }
  }

  lemma {:induction false} FirstTool(atoms: seq<Atom>, k: nat) returns (j: nat)
    requires k < |atoms| && atoms[k].Tool?
    ensures j <= k && atoms[j].Tool? && Speaks(atoms, j)
  {
    if m :| 0 <= m < k && atoms[m].Tool? {
      j := FirstTool(atoms, m);
    } else {
      j := k;
    }
  }

  /** With late text, some atom speaks before the text. */
  lemma {:induction false} LateTextIsAfter(atoms: seq<Atom>) returns (j: nat)
    requires LateText(atoms)
    ensures Speaks(atoms, j) && !TextBefore(atoms, j) && TextOf(atoms) != ""
  {
    var init, last := atoms[..|atoms| - 1], atoms[|atoms| - 1];
    assert atoms == init + [last];
    TextGrows(init, last);
    if LateText(init) {
      j := LateTextIsAfter(init);
      SpeaksInPrefix(init, last, j);
    } else {
      var k :| 0 <= k < |atoms| - 1 && atoms[k].Tool?;
      j := FirstTool(atoms, k);
      if TextBefore(atoms, j) {
        assert atoms[..j] == init[..j];
        TextOfPrefix(init, j);
      }
    }
  }

  lemma {:induction false} RanksBound(items: seq<Item>, k: nat)
    requires InOrder(items) && k < |items| && items[0].index >= 0
    ensures items[k].index >= k
  {
    if k > 0 {
      RanksBound(items, k - 1);
    }
  }

  lemma {:induction false} RanksBoundAbove(items: seq<Item>, k: nat, top: int)
    requires InOrder(items) && k < |items| && items[|items| - 1].index < top
    ensures items[k].index + (|items| - k) <= top
    decreases |items| - k
  {
    if k < |items| - 1 {
      RanksBoundAbove(items, k + 1, top);
    }
  }

  lemma DenseIsRanked(s: State)
    requires (forall i <- s.items :: s.items[i].index == i) && Dense(s)
    ensures |Ordered(s)| == |s.items| && forall k :: 0 <= k < |Ordered(s)| ==> Ordered(s)[k].index == k
  {
    var items := Ordered(s);
    SortedKeysAreKeys(s.items.Keys);
    OrderedIsInOrder(s);
    forall k | 0 <= k < |items|
      ensures items[k].index == k
    {
      assert items[0].index in s.items && items[|items| - 1].index in s.items;
      RanksBound(items, k);
      RanksBoundAbove(items, k, |items|);
    }
  }

  lemma RankedIsDense(s: State)
    requires forall i <- s.items :: s.items[i].index == i
    requires forall k :: 0 <= k < |Ordered(s)| ==> Ordered(s)[k].index == k
    ensures Dense(s)
  {
    SortedKeysAreKeys(s.items.Keys);
    OrderedIsInOrder(s);
    forall i
      ensures i in s.items <==> 0 <= i < |s.items|
    {
      if 0 <= i < |s.items| {
        assert Ordered(s)[i].index == i;
      }
    }
  }

  lemma PlaceOfDense(atoms: seq<Atom>, i: int)
    requires !Run(atoms).raised && Dense(Run(atoms)) && i in Run(atoms).items
    ensures Place(atoms, i) == i + if TextOf(atoms) != "" then 1 else 0
  {
    var s := Run(atoms);
    RunTellsAll(atoms);
    assert forall i <- s.items :: CallTold(s, i);
    DenseIsRanked(s);
    PlaceOfRank(atoms, i);
    RunReadsChannels(atoms);
  }

  lemma DenseAndPunctualFit(atoms: seq<Atom>)
    requires !Run(atoms).raised && Dense(Run(atoms)) && !LateText(atoms)
    ensures AllFit(atoms)
  {
    ItemsAreIndices(atoms);
    forall j: nat | Speaks(atoms, j)
      ensures Fits(atoms, j)
    {
      assert atoms[j].index in ToolIndices(atoms);
      PlaceOfDense(atoms, atoms[j].index);
      PunctualTextIsBefore(atoms, j);
    }
  }

  lemma PunctualAndFittingIsDense(atoms: seq<Atom>)
    requires !Run(atoms).raised && AllFit(atoms) && !LateText(atoms)
    ensures Dense(Run(atoms))
  {
    var s := Run(atoms);
    RunTellsAll(atoms);
    assert forall i <- s.items :: CallTold(s, i);
    OrderedIsInOrder(s);
    ItemsAreIndices(atoms);
    RunReadsChannels(atoms);
    forall k | 0 <= k < |Ordered(s)|
      ensures Ordered(s)[k].index == k
    {
      var i := Ordered(s)[k].index;
      assert i in ToolIndices(atoms);
      var m :| 0 <= m < |atoms| && atoms[m].Tool? && atoms[m].index == i;
      var j := FirstOfIndex(atoms, m);
      assert Fits(atoms, j);
      PunctualTextIsBefore(atoms, j);
      PlaceOfRank(atoms, k);
    }
    RankedIsDense(s);
  }

  lemma {:induction false} FirstOfIndex(atoms: seq<Atom>, m: nat) returns (j: nat)
    requires m < |atoms| && atoms[m].Tool?
    ensures j <= m && Speaks(atoms, j) && atoms[j].index == atoms[m].index
  {
    if n :| 0 <= n < m && atoms[n].Tool? && atoms[n].index == atoms[m].index {
      j := FirstOfIndex(atoms, n);
    } else {
      j := m;
    }
  }

  /**
   Two special cases: with tool indices 0..n-1 positions agree exactly when no text starts after a
   tool call; with punctual text, exactly when the tool indices are 0..n-1.
   */
  lemma DenseOrPunctualPositions(atoms: seq<Atom>)
    requires EndingOf(Run(atoms)).EndDone?
    ensures Dense(Run(atoms)) ==> (Agree(Translate(atoms)) <==> !LateText(atoms))
    ensures !LateText(atoms) ==> (Agree(Translate(atoms)) <==> Dense(Run(atoms)))
  {
    PositionsAgreeExactlyWhen(atoms);
    if LateText(atoms) {
      if Dense(Run(atoms)) {
        var j := LateTextIsAfter(atoms);
        ItemsAreIndices(atoms);
        assert atoms[j].index in ToolIndices(atoms);
        PlaceOfDense(atoms, atoms[j].index);
        assert !Fits(atoms, j);
      }
    } else if Dense(Run(atoms)) {
      DenseAndPunctualFit(atoms);
    } else if AllFit(atoms) {
      PunctualAndFittingIsDense(atoms);
    }
  }

  // ----- Done events point into the final output -----

  function ItemSubject(item: OutputItem): Subject {
    match item
    case Message(_, _) => TheMessage
    case FunctionCall(call, _) => TheCall(call.index)
  }

  /** The body's position is that of its own item. */
  ghost predicate PointsAt(b: Body, output: seq<OutputItem>) {
    IsDone(b) && 0 <= b.outputIndex < |output| && ItemSubject(output[b.outputIndex]) == SubjectOf(b)
  }

  lemma CallClosingsPoint(s: State)
    requires s.started || s.items != map[]
    ensures forall b <- CallClosings(Ordered(s), Base(s), StatusOf(s)) :: PointsAt(b, Output(s))
  {
    var items := Ordered(s);
    CallClosingsAreDone(items, Base(s), StatusOf(s));
    ClosingPositions(items, Base(s), StatusOf(s));
    forall b | b in CallClosings(items, Base(s), StatusOf(s))
      ensures PointsAt(b, Output(s))
    {
      var k :| 0 <= k < |items| && SubjectOf(b) == TheCall(items[k].index) && b.outputIndex == Base(s) + k;
      assert Output(s)[Base(s) + k] == FunctionCall(items[k], StatusOf(s));
    }
  }

  lemma MessageClosingPoints(s: State)
    ensures forall b <- MessageClosing(s) + BareClosing(s) :: PointsAt(b, Output(s))
  {
  }

  lemma ItemClosingsPoint(s: State)
    ensures forall k :: 0 <= k < |ItemClosings(s)| ==> PointsAt(ItemClosings(s)[k], Output(s))
  {
    MessageClosingPoints(s);
    OrderedIsEmptyOrNot(s);
    if s.started || s.items != map[] {
      CallClosingsPoint(s);
    }
    forall k | 0 <= k < |ItemClosings(s)|
      ensures PointsAt(ItemClosings(s)[k], Output(s))
    {
      assert ItemClosings(s)[k] in MessageClosing(s) + CallClosings(Ordered(s), Base(s), StatusOf(s)) + BareClosing(s);
    }
  }

  ghost predicate AllPoint(events: seq<Event>, output: seq<OutputItem>) {
    forall k :: 0 <= k < |events| && IsDone(events[k].body) ==> PointsAt(events[k].body, output)
  }

  lemma DoneEventsPoint(s: State)
    requires NothingDone(s) && EndingOf(s).EndDone?
    ensures AllPoint(Close(s).events, Output(s))
  {
    var events := Close(s).events;
    ClosingIsAppended(s);
    ItemClosingsPoint(s);
    assert forall k :: 0 <= k < |s.events| ==> !IsDone(events[k].body);
    forall k | |s.events| <= k < |events| && IsDone(events[k].body)
      ensures PointsAt(events[k].body, Output(s))
    {
      assert events[k].body == Closing(s)[k - |s.events|];
    }
  }

  /**
   In a finished stream every done event is at the index of its own item in the final output, so no two items
   share one.
   */
  lemma DonePositionsIndexOutput(atoms: seq<Atom>)
    requires EndingOf(Run(atoms)).EndDone?
    ensures AllPoint(Translate(atoms), EndingOf(Run(atoms)).output)
    ensures forall j, k :: 0 <= j < |Translate(atoms)| && 0 <= k < |Translate(atoms)|
                           && IsDone(Translate(atoms)[j].body) && IsDone(Translate(atoms)[k].body)
                           && Translate(atoms)[j].body.outputIndex == Translate(atoms)[k].body.outputIndex ==>
              SubjectOf(Translate(atoms)[j].body) == SubjectOf(Translate(atoms)[k].body)
  {
    RunReportsNothingDone(atoms);
    DoneEventsPoint(Run(atoms));
  }

  // ----- Two replies with late text -----

  const LateExample := [Tool(0, "call", "f", ""), Text("t"), Finish("tool_calls")]

  lemma LateExampleRun()
    ensures Run(LateExample) == Step(Step(Step(Opening, LateExample[0]), LateExample[1]), LateExample[2])
  {
    var a, b, c := LateExample[0], LateExample[1], LateExample[2];
    RunOne(Opening, a);
    RunOne(Step(Opening, a), b);
    RunOne(Step(Step(Opening, a), b), c);
    RunConcat(Opening, [a], [b]);
    RunConcat(Opening, [a, b], [c]);
    assert [a] + [b] == [a, b] && [a, b] + [c] == LateExample;
  }

  lemma LateExampleIsLate()
    ensures LateText(LateExample)
  {
    var a, b := LateExample[0], LateExample[1];
    assert LateExample[..2] == [a, b] && [a, b][..1] == [a] && [a][..0] == [];
    assert [a, b][0].Tool?;
    assert LateText([a, b]);
  }

  /** A reply whose text starts after its only tool call: the call is added at 0 and done at 1. */
  lemma LateTextExample()
    ensures EndingOf(Run(LateExample)).EndDone? && Dense(Run(LateExample)) && !Agree(Translate(LateExample))
  {
    LateExampleEnds();
    LateExampleIsLate();
    DenseOrPunctualPositions(LateExample);
  }

  lemma LateExampleEnds()
    ensures EndingOf(Run(LateExample)).EndDone? && Dense(Run(LateExample))
  {
    var s := Run(LateExample);
    LateExampleRun();
    assert !s.raised && s.finish == Some("tool_calls") && s.items.Keys == {0};
    assert |s.items| == |s.items.Keys| == 1;
  }

  ghost predicate AddsMessage(events: seq<Event>) {
    exists k :: 0 <= k < |events| && events[k].body == MessageAdded(0)
  }

  lemma StepAddsMessage(s: State, a: Atom)
    requires s.started ==> AddsMessage(s.events)
    ensures Step(s, a).started ==> AddsMessage(Step(s, a).events)
  {
    var t := Step(s, a);
    StepAppends(s, a);
    if s.started {
      var k :| 0 <= k < |s.events| && s.events[k].body == MessageAdded(0);
      assert t.events[k] == s.events[k];
    } else if t.started {
      assert t.events[|s.events|].body == MessageAdded(0);
    }
  }

  /** A message that has started was added at position 0. */
  lemma {:induction false} MessageIsAddedAtZero(atoms: seq<Atom>)
    requires Run(atoms).started
    ensures AddsMessage(Run(atoms).events)
  {
    if atoms != [] {
      var init := atoms[..|atoms| - 1];
      if Run(init).started {
        MessageIsAddedAtZero(init);
      }
      StepAddsMessage(Run(init), atoms[|atoms| - 1]);
    }
  }

  /** A call of index 0 that speaks before late text shares position 0 with the message. */
  lemma LateTextSharesPosition(atoms: seq<Atom>, j: nat)
    requires EndingOf(Run(atoms)).EndDone? && Speaks(atoms, j) && atoms[j].index == 0
    requires !TextBefore(atoms, j) && TextOf(atoms) != ""
    ensures HasCallAt(Translate(atoms), 0, 0) && AddsMessage(Translate(atoms))
  {
    var s := Run(atoms);
    RunReadsChannels(atoms);
    EverySpeakerIsHeard(atoms, j);
    MessageIsAddedAtZero(atoms);
    ClosingIsAppended(s);
    var k :| 0 <= k < |s.events| && VoicedBy(atoms, j, s.events[k].body);
    var m :| 0 <= m < |s.events| && s.events[m].body == MessageAdded(0);
    assert Translate(atoms)[k] == s.events[k] && Translate(atoms)[m] == s.events[m];
  }

  const GapExample := [Tool(1, "call", "f", ""), Text("t"), Finish("tool_calls")]

  lemma GapExampleRun()
    ensures Run(GapExample) == Step(Step(Step(Opening, GapExample[0]), GapExample[1]), GapExample[2])
  {
    var a, b, c := GapExample[0], GapExample[1], GapExample[2];
    RunOne(Opening, a);
    RunOne(Step(Opening, a), b);
    RunOne(Step(Step(Opening, a), b), c);
    RunConcat(Opening, [a], [b]);
    RunConcat(Opening, [a, b], [c]);
    assert [a] + [b] == [a, b] && [a, b] + [c] == GapExample;
  }

  lemma GapExampleEnds()
    ensures EndingOf(Run(GapExample)).EndDone? && !Dense(Run(GapExample)) && LateText(GapExample)
    ensures Run(GapExample).started && Run(GapExample).items.Keys == {1}
  {
    var s := Run(GapExample);
    GapExampleRun();
    assert !s.raised && s.finish == Some("tool_calls") && s.items.Keys == {1};
    assert 1 in s.items && |s.items| == |s.items.Keys| == 1;
    var a, b := GapExample[0], GapExample[1];
    assert GapExample[..2] == [a, b] && [a, b][..1] == [a] && [a][..0] == [];
    assert [a, b][0].Tool?;
    assert LateText([a, b]);
  }

  lemma RankOfLone(indices: set<int>, i: int)
    requires indices == {i}
    ensures Rank(indices, i) == 0
  {
    assert (set m | m in indices && m < i) == {};
  }

  /** Late text and a gap can cancel out: a call of index 1 is added at 1, and done at 1 after the message. */
  lemma LateTextAndGapCanAgree()
    ensures EndingOf(Run(GapExample)).EndDone? && LateText(GapExample) && !Dense(Run(GapExample))
    ensures Agree(Translate(GapExample))
  {
    GapExampleEnds();
    ItemsAreIndices(GapExample);
    RunReadsChannels(GapExample);
    RankOfLone(ToolIndices(GapExample), 1);
    forall j: nat | Speaks(GapExample, j)
      ensures Fits(GapExample, j)
    {
      assert j == 0 && GapExample[..0] == [];
    }
    PositionsAgreeExactlyWhen(GapExample);
  }
}
