/**
 How many requests a MARS round submits when only long requests wait.
 */
module MarsTail {
  import opened Sequences
  import opened MarsWindow
  import opened MarsSelection
  import opened Mars

  // ----- Two in one greedy pass -----

  function CostOf(l: Limits, e: Entry): nat
    requires l.blockSize.Some?
  {
    KvBlocks(e.prefill, l.blockSize.value)
  }

  /** The first entry that fits the budget. */
  ghost predicate IsFirstFit(l: Limits, entries: seq<Entry>, i: nat, budget: int)
    requires l.blockSize.Some?
  {
    && i < |entries| && CostOf(l, entries[i]) <= budget
    && forall k :: 0 <= k < i ==> CostOf(l, entries[k]) > budget
  }

  /** No later entry fits what the first one leaves. */
  ghost predicate OnlyFits(l: Limits, entries: seq<Entry>, i: nat, budget: int)
    requires l.blockSize.Some?
  {
    && IsFirstFit(l, entries, i, budget)
    && forall j :: i < j < |entries| ==> CostOf(l, entries[j]) > budget - CostOf(l, entries[i])
  }

  ghost predicate FitsAfter(l: Limits, entries: seq<Entry>, i: nat, j: nat, budget: int)
    requires l.blockSize.Some?
  {
    i < j < |entries| && IsFirstFit(l, entries, i, budget) && CostOf(l, entries[j]) <= budget - CostOf(l, entries[i])
  }

  /** After the first entry that fits, a later one fits what it leaves. */
  ghost predicate TwoFit(l: Limits, entries: seq<Entry>, budget: int)
    requires l.blockSize.Some?
  {
    exists i: nat, j: nat :: FitsAfter(l, entries, i, j, budget)
  }

  ghost predicate AllLong(l: Limits, entries: seq<Entry>) {
    forall k :: 0 <= k < |entries| ==> IsLong(l.threshold, entries[k])
  }

  /** What the pass has done so far, as long as slots and places for two are there. */
  ghost predicate Tally(l: Limits, entries: seq<Entry>, budget: int, p: Pick)
    requires l.blockSize.Some?
  {
    && p.longs == |p.chosen|
    && (|p.chosen| == 0 ==>
          p.budget == Some(budget) && forall k :: 0 <= k < |entries| ==> CostOf(l, entries[k]) > budget)
    && (|p.chosen| == 1 ==>
          exists i: nat :: OnlyFits(l, entries, i, budget) && p.budget == Some(budget - CostOf(l, entries[i])))
    && (|p.chosen| >= 2 ==> TwoFit(l, entries, budget))
  }

  ghost predicate HasRoom(l: Limits) {
    l.blockSize.Some? && l.reliable && l.slots >= 2 && l.longInFlight + 2 <= l.longCap
  }

  lemma FirstFitStays(l: Limits, entries: seq<Entry>, e: Entry, i: nat, budget: int)
    requires l.blockSize.Some? && i < |entries|
    ensures IsFirstFit(l, entries + [e], i, budget) <==> IsFirstFit(l, entries, i, budget)
  {
    var all := entries + [e];
    assert forall k :: 0 <= k < |entries| ==> all[k] == entries[k];
  }

  lemma OneOrTwoFit(l: Limits, entries: seq<Entry>, i: nat, budget: int)
    requires l.blockSize.Some? && OnlyFits(l, entries, i, budget)
    ensures !TwoFit(l, entries, budget)
  {
    forall m: nat, n: nat
      ensures !FitsAfter(l, entries, m, n, budget)
    {
      assert IsFirstFit(l, entries, m, budget) ==> m == i;
    }
  }

  lemma TallyOfNone(l: Limits, entries: seq<Entry>, e: Entry, budget: int, p: Pick)
    requires HasRoom(l) && IsLong(l.threshold, e)
    requires budget >= 0 && Tally(l, entries, budget, p) && p.chosen == []
    ensures Tally(l, entries + [e], budget, Consider(l, p, e))
  {
    var all := entries + [e];
    assert forall k :: 0 <= k < |entries| ==> all[k] == entries[k];
    if CostOf(l, e) <= budget {
      assert OnlyFits(l, all, |entries|, budget);
    }
  }

  lemma TallyOfOne(l: Limits, entries: seq<Entry>, e: Entry, budget: int, p: Pick)
    requires HasRoom(l) && IsLong(l.threshold, e)
    requires budget >= 0 && Tally(l, entries, budget, p) && |p.chosen| == 1
    ensures Tally(l, entries + [e], budget, Consider(l, p, e))
  {
    var all := entries + [e];
    assert forall k :: 0 <= k < |entries| ==> all[k] == entries[k];
    var i: nat :| OnlyFits(l, entries, i, budget) && p.budget == Some(budget - CostOf(l, entries[i]));
    FirstFitStays(l, entries, e, i, budget);
    if CostOf(l, e) <= budget - CostOf(l, entries[i]) {
      assert FitsAfter(l, all, i, |entries|, budget);
    } else {
      assert OnlyFits(l, all, i, budget);
    }
  }

  lemma TallyOfMore(l: Limits, entries: seq<Entry>, e: Entry, budget: int, p: Pick)
    requires l.blockSize.Some? && IsLong(l.threshold, e) && Tally(l, entries, budget, p) && |p.chosen| >= 2
    ensures Tally(l, entries + [e], budget, Consider(l, p, e))
  {
    var i: nat, j: nat :| FitsAfter(l, entries, i, j, budget);
    FirstFitStays(l, entries, e, i, budget);
    assert FitsAfter(l, entries + [e], i, j, budget);
  }

  lemma {:induction false} GreedyTallies(l: Limits, entries: seq<Entry>, budget: int)
    requires HasRoom(l) && AllLong(l, entries) && budget >= 0
    ensures Tally(l, entries, budget, Greedy(l, entries, Some(budget)))
  {
    if entries != [] {
      var init, last := entries[..|entries| - 1], entries[|entries| - 1];
      assert entries == init + [last];
      assert AllLong(l, init);
      GreedyTallies(l, init, budget);
      var p := Greedy(l, init, Some(budget));
      if |p.chosen| == 0 {
        TallyOfNone(l, init, last, budget, p);
      } else if |p.chosen| == 1 {
        TallyOfOne(l, init, last, budget, p);
      } else {
        TallyOfMore(l, init, last, budget, p);
      }
    }
  }

  lemma {:induction false} LongsAreCounted(l: Limits, entries: seq<Entry>, budget: Option<int>)
    requires AllLong(l, entries)
    ensures Greedy(l, entries, budget).longs == |Greedy(l, entries, budget).chosen|
  {
    if entries != [] {
      var init := entries[..|entries| - 1];
      assert AllLong(l, init);
      LongsAreCounted(l, init, budget);
    }
  }

  lemma TallyDecides(l: Limits, entries: seq<Entry>, budget: int, p: Pick)
    requires l.blockSize.Some? && Tally(l, entries, budget, p)
    ensures |p.chosen| >= 2 <==> TwoFit(l, entries, budget)
  {
    if |p.chosen| == 1 {
      var i: nat :| OnlyFits(l, entries, i, budget) && p.budget == Some(budget - CostOf(l, entries[i]));
      OneOrTwoFit(l, entries, i, budget);
    }
  }

  /** Two long entries are chosen exactly when slots and cap places for two are free and two fit in turn. */
  lemma GreedyTakesTwoExactlyWhen(l: Limits, entries: seq<Entry>, budget: int)
    requires l.blockSize.Some? && AllLong(l, entries) && budget >= 0
    ensures |Greedy(l, entries, Some(budget)).chosen| >= 2 <==> HasRoom(l) && TwoFit(l, entries, budget)
  {
    GreedyStaysWithinLimits(l, entries, Some(budget));
    LongsAreCounted(l, entries, Some(budget));
    if HasRoom(l) {
      GreedyTallies(l, entries, budget);
      TallyDecides(l, entries, budget, Greedy(l, entries, Some(budget)));
    }
  }

  // ----- A tail round -----

  lemma {:induction false} InsertLast(threshold: int, e: Entry, s: seq<Entry>)
    requires forall x <- s :: x.index < e.index
    ensures Insert(BySeq, threshold, e, s) == s + [e]
  {
    if s != [] {
      assert s == [s[0]] + s[1..];
      assert s[0].index < e.index;
      InsertLast(threshold, e, s[1..]);
    }
  }

  lemma {:induction false} ArrivalOrderIsSorted(threshold: int, s: seq<Entry>)
    requires IncreasingEntries(s)
    ensures Sorted(BySeq, threshold, s) == s
  {
    if s != [] {
      var init, last := s[..|s| - 1], s[|s| - 1];
      assert s == init + [last];
      ArrivalOrderIsSorted(threshold, init);
      InsertLast(threshold, last, init);
    }
  }

  /** What a reliable view always carries. */
  ghost predicate IsWhole(view: KvView) {
    view.reliable ==> view.numGpu.Some? && view.blockSize.Some?
  }

  lemma TailCandidates(a: Args, s: State, g: Signals)
    requires TailMode(a, s, g) && IncreasingEntries(s.backlog)
    ensures Candidates(a, s, g) == s.backlog && AllLong(LimitsOf(a, s, g), s.backlog)
  {
    ArrivalOrderIsSorted(a.longThreshold, s.backlog);
    forall k | 0 <= k < |s.backlog|
      ensures IsLong(a.longThreshold, s.backlog[k])
    {
      assert s.backlog[k] in s.backlog;
    }
  }

  /**
   A tail round submits two or more exactly when every running request is tracked, two pool slots and
   two tail places are free, and after the first waiting request that fits the budget another fits the rest.
   */
  lemma TailRoundSubmitsSeveralExactlyWhen(a: Args, s: State, g: Signals)
    requires TailMode(a, s, g) && IsWhole(g.view) && IncreasingEntries(s.backlog)
    ensures |Selection(a, s, g).chosen| >= 2 <==>
            && Untracked(s.running) == 0
            && FreeSlots(s, g) >= 2
            && LongCount(s.running) + 2 <= a.tailMax
            && TwoFit(LimitsOf(a, s, g), s.backlog, BudgetLeft(a, s, g).value)
  {
    TailCandidates(a, s, g);
    GreedyTakesTwoExactlyWhen(LimitsOf(a, s, g), s.backlog, BudgetLeft(a, s, g).value);
  }

  // ----- Draining beyond the live budget -----

  /** In tail mode the free blocks reported do not bound the selection. */
  lemma TailIgnoresLiveBudget(a: Args, s: State, g: Signals, live: Option<int>)
    requires TailMode(a, s, g) && g.view.numGpu.Some?
    ensures Selection(a, s, g.(view := g.view.(budget := live))) == Selection(a, s, g)
  {
  }

  lemma LonePick(l: Limits, e: Entry, budget: int)
    requires IsLong(l.threshold, e) && l.blockSize.Some? && l.slots >= 1 && l.reliable && budget >= 0
    ensures TotalBlocks(Greedy(l, [e], Some(budget)).chosen)
            == if l.longInFlight < l.longCap && CostOf(l, e) <= budget then CostOf(l, e) else 0
  {
    assert [e][..0] == [];
    assert Greedy(l, [], Some(budget)) == Pick([], Some(budget), 0);
    assert [Job(e.index, true, CostOf(l, e))][..0] == [];
    assert [] + [Job(e.index, true, CostOf(l, e))] == [Job(e.index, true, CostOf(l, e))];
  }

  /**
   A lone long request, with nothing running, is admitted beyond the live block budget exactly when the
   tail cap is positive and its cost lies above the live budget but within the tail budget.
   */
  lemma LoneLongExceedsLiveBudgetExactlyWhen(a: Args, s: State, g: Signals, e: Entry)
    requires TailMode(a, s, g) && IsWhole(g.view) && ActiveLimit(s.limit, g) >= 1
    requires g.view.budget.Some? && g.view.budget.value >= 0
    requires s.running == [] && s.backlog == [e]
    ensures TotalBlocks(Selection(a, s, g).chosen) > g.view.budget.value <==>
            && a.tailMax >= 1
            && g.view.budget.value < KvBlocks(e.prefill, g.view.blockSize.value)
            && KvBlocks(e.prefill, g.view.blockSize.value) <= TailBudget(a, g.view.numGpu.value)
  {
    assert e in s.backlog;
    TailCandidates(a, s, g);
    if a.tailMax >= 1 {
      LonePick(LimitsOf(a, s, g), e, TailBudget(a, g.view.numGpu.value));
    } else {
      GreedyStaysWithinLimits(LimitsOf(a, s, g), Candidates(a, s, g), BudgetLeft(a, s, g));
    }
  }

  /** A live budget of at least the tail budget bounds every tail round. */
  lemma TailStaysWithinLargeLiveBudget(a: Args, s: State, g: Signals)
    requires TailMode(a, s, g) && IsWhole(g.view) && g.view.budget.Some?
    requires TailBudget(a, g.view.numGpu.value) <= g.view.budget.value
    requires TotalBlocks(s.running) <= g.view.budget.value
    ensures TotalBlocks(s.running + Selection(a, s, g).chosen) <= g.view.budget.value
  {
    GreedyStaysWithinLimits(LimitsOf(a, s, g), Candidates(a, s, g), BudgetLeft(a, s, g));
    Totals(s.running, Selection(a, s, g).chosen);
  }

  // ----- Two long requests submitted beside a running one -----

  const ARGS := Args(8, 8, 8, 1, 0.5, 10, 5, 5, 1.0, 8, 0.5, 1.0, 1.0, 2.0, 0.9, 1.0, 10.0, 1.0)
  const REPORT := KvStats(Some(1), Some(100), Some(100), Absent)

  function At(now: real): Input {
    Input(now, Cpu(0, 4, None), Full(REPORT))
  }

  /** The report is fresh at this time. */
  predicate Polls(s: State, now: real) {
    s.kv.cached.Some? ==> now - s.kv.cachedAt >= 1.0
  }

  /** What a round of this controller works with. */
  ghost predicate Sees(c: State, g: Signals) {
    && c.limit == 8 && ActiveLimit(8, g) == 8
    && g.view.reliable && g.view.blockSize == Some(1) && g.view.numGpu == Some(100)
  }

  /** A round of this controller sees a window of eight and a device of a hundred blocks of one token. */
  lemma RoundSees(s: State, now: real)
    requires s.limit == 8 && Polls(s, now)
    ensures var c := Controlled(ARGS, s, At(now));
            && Sees(c, SignalsOf(ARGS, s, At(now)))
            && c.kv.cachedAt == now && c.backlog == s.backlog && c.running == s.running && c.nextIndex == s.nextIndex
  {
  }

  lemma BudgetOfHundred(s: State, g: Signals)
    requires TailMode(ARGS, s, g) && g.view.numGpu == Some(100) && TotalBlocks(s.running) <= 100
    ensures BudgetLeft(ARGS, s, g) == Some(100 - TotalBlocks(s.running))
  {
    assert Times(100.0, 1.0) == 100.0;
  }

  lemma CostIsEleven()
    ensures KvBlocks(11, 1) == 11
  {
    assert 11.0 / 1.0 == 11.0;
  }

  const LONE := Emitted(InitialState(ARGS), 11)

  lemma LoneSelection(c: State, g: Signals)
    requires Sees(c, g) && c.backlog == [Entry(0, 11)] && c.running == []
    ensures Selection(ARGS, c, g).chosen == [Job(0, true, 11)]
  {
    var l, e := LimitsOf(ARGS, c, g), Entry(0, 11);
    assert TailMode(ARGS, c, g);
    TailCandidates(ARGS, c, g);
    BudgetOfHundred(c, g);
    CostIsEleven();
    assert [e][..0] == [];
    assert Greedy(l, [], Some(100)) == Pick([], Some(100), 0);
    assert [] + [Job(0, true, 11)] == [Job(0, true, 11)];
  }

  lemma NothingRemains(e: Entry, job: Job)
    requires e.index == job.id
    ensures Remaining([e], [job]) == []
  {
    assert [job][0].id == e.index;
    assert [e][..0] == [] && Remaining([], [job]) == [];
  }

  lemma LoneAdmits(c: State, g: Signals)
    requires Sees(c, g) && c.backlog == [Entry(0, 11)] && c.running == []
    ensures var t := Admitted(ARGS, c, g); t == c.(running := [Job(0, true, 11)], backlog := [])
  {
    LoneSelection(c, g);
    NothingRemains(Entry(0, 11), Job(0, true, 11));
    assert [] + [Job(0, true, 11)] == [Job(0, true, 11)];
  }

  lemma FirstIsAdmitted()
    ensures var t := Round(ARGS, LONE, At(1.0));
            && t.running == [Job(0, true, 11)] && t.backlog == []
            && t.limit == 8 && t.kv.cachedAt == 1.0 && t.nextIndex == 1
  {
    RoundSees(LONE, 1.0);
    LoneAdmits(Controlled(ARGS, LONE, At(1.0)), SignalsOf(ARGS, LONE, At(1.0)));
  }

  /** One tracked long request runs and two more wait. */
  function Crowded(): State {
    Emitted(Emitted(Round(ARGS, LONE, At(1.0)), 11), 11)
  }

  lemma Prepend(a: Args, blocks: nat, s: State, step: Step, rest: seq<Step>)
    requires Enabled(s, step, blocks) && IsRun(a, blocks, Mars.Apply(a, s, step), rest)
    ensures IsRun(a, blocks, s, [step] + rest)
    ensures Execute(a, s, [step] + rest) == Execute(a, Mars.Apply(a, s, step), rest)
  {
    assert ([step] + rest)[1..] == rest;
  }

  /** The report of a device whose hundred blocks are all in use. */
  const NONE_FREE := Input(1.0, Cpu(0, 4, None), Full(KvStats(Some(1), Some(100), Some(0), Absent)))

  lemma NoneFreeSees(s: State)
    requires s.kv.cached.None?
    ensures var view := SignalsOf(ARGS, s, NONE_FREE).view;
            view.reliable && view.budget == Some(0) && view.numGpu == Some(100) && view.blockSize == Some(1)
  {
  }

  lemma NoneFreeAdmits(s: State)
    requires s.kv.cached.None? && s.limit == 8 && s.backlog == [Entry(0, 11)] && s.running == []
    ensures Round(ARGS, s, NONE_FREE).running != []
  {
    var g := SignalsOf(ARGS, s, NONE_FREE);
    NoneFreeSees(s);
    CostIsEleven();
    assert Times(100.0, 1.0) == 100.0;
    assert s.backlog[0] in s.backlog && FitsTail(ARGS, g, Entry(0, 11));
    assert CanProgress(ARGS, s, g);
    RoundAdmitsExactlyWhen(ARGS, s, NONE_FREE);
  }

  lemma TwoSteps(s: State, first: Step, second: Step)
    requires Enabled(s, first, 100) && Enabled(Mars.Apply(ARGS, s, first), second, 100)
    ensures var steps := [first] + ([second] + []);
            && IsRun(ARGS, 100, s, steps)
            && Execute(ARGS, s, steps) == Mars.Apply(ARGS, Mars.Apply(ARGS, s, first), second)
  {
    var t := Mars.Apply(ARGS, s, first);
    Prepend(ARGS, 100, t, second, []);
    Prepend(ARGS, 100, s, first, [second] + []);
  }

  /** From the start: a lone long request is admitted while the reported live budget is zero. */
  lemma AdmittedWithNoFreeBlocks()
    ensures var steps := [Emit(11)] + ([Admit(NONE_FREE)] + []);
            && IsRun(ARGS, 100, InitialState(ARGS), steps)
            && SignalsOf(ARGS, LONE, NONE_FREE).view.budget == Some(0)
            && Execute(ARGS, InitialState(ARGS), steps).running != []
  {
    TwoSteps(InitialState(ARGS), Emit(11), Admit(NONE_FREE));
    NoneFreeSees(LONE);
    NoneFreeAdmits(LONE);
  }

  lemma CrowdedIsReachable()
    ensures var steps := [Emit(11)] + ([Admit(At(1.0))] + ([Emit(11)] + ([Emit(11)] + [])));
            IsRun(ARGS, 100, InitialState(ARGS), steps) && Execute(ARGS, InitialState(ARGS), steps) == Crowded()
  {
    var t := Round(ARGS, LONE, At(1.0));
    Prepend(ARGS, 100, Emitted(t, 11), Emit(11), []);
    Prepend(ARGS, 100, t, Emit(11), [Emit(11)] + []);
    Prepend(ARGS, 100, LONE, Admit(At(1.0)), [Emit(11)] + ([Emit(11)] + []));
    Prepend(ARGS, 100, InitialState(ARGS), Emit(11), [Admit(At(1.0))] + ([Emit(11)] + ([Emit(11)] + [])));
  }

  lemma CrowdedSelection(c: State, g: Signals)
    requires Sees(c, g) && c.backlog == [Entry(1, 11), Entry(2, 11)] && c.running == [Job(0, true, 11)]
    ensures TailMode(ARGS, c, g) && Untracked(c.running) == 0 && |Selection(ARGS, c, g).chosen| >= 2
  {
    assert c.running[..0] == [];
    assert TotalBlocks(c.running) == 11 && LongCount(c.running) == 1 && Untracked(c.running) == 0;
    assert TailMode(ARGS, c, g);
    BudgetOfHundred(c, g);
    CostIsEleven();
    assert FitsAfter(LimitsOf(ARGS, c, g), c.backlog, 0, 1, 89);
    TailRoundSubmitsSeveralExactlyWhen(ARGS, c, g);
  }

  /** Two more are submitted in tail mode while a tracked request runs. */
  ghost predicate SubmitsSeveral(s: State, i: Input) {
    && s.running == [Job(0, true, 11)]
    && TailMode(ARGS, Controlled(ARGS, s, i), SignalsOf(ARGS, s, i))
    && |Round(ARGS, s, i).running| >= 3
  }

  lemma SeveralFrom(s: State, i: Input)
    requires i == At(5.0) && s.limit == 8 && Polls(s, 5.0)
    requires s.backlog == [Entry(1, 11), Entry(2, 11)] && s.running == [Job(0, true, 11)]
    ensures SubmitsSeveral(s, i)
  {
    RoundSees(s, 5.0);
    CrowdedSelection(Controlled(ARGS, s, i), SignalsOf(ARGS, s, i));
  }

  lemma CrowdedIs(s: State)
    requires s == Crowded()
    ensures s.limit == 8 && Polls(s, 5.0)
    ensures s.backlog == [Entry(1, 11), Entry(2, 11)] && s.running == [Job(0, true, 11)]
  {
    FirstIsAdmitted();
  }

  /**
   From a reachable state with a tracked request still running, one tail round submits two more:
   the limit of one at a time only applies beside an untracked one.
   */
  lemma SeveralBesideATrackedOne(s: State, i: Input)
    requires s == Crowded() && i == At(5.0)
    ensures SubmitsSeveral(s, i)
  {
    CrowdedIs(s);
    SeveralFrom(s, i);
  }
}
