/**
 Which waiting requests one MARS round admits, said without sorting or selecting: by a priority
 among them, the free places, and the room for long ones.
 */
module MarsRounds {
  import opened Sequences
  import opened MarsWindow
  import opened MarsSelection
  import opened Mars

  // ----- One entry in a greedy pass -----

  /** The job is of an entry at position n or later. */
  ghost predicate FromPart(entries: seq<Entry>, lo: nat, hi: nat, job: Job)
    requires lo <= hi <= |entries|
  {
    exists m :: lo <= m < hi && entries[m].index == job.id
  }

  lemma ChosenComesFrom(l: Limits, entries: seq<Entry>, job: Job) returns (m: nat)
    requires FromCandidate(l, entries, job)
    ensures m < |entries| && entries[m].index == job.id
  {
    m :| m < |entries| && entries[m].index == job.id;
  }

  /** What the pass makes of candidate i, given what it has chosen among the earlier ones. */
  lemma {:induction false} GreedyAt(l: Limits, candidates: seq<Entry>, budget: Option<int>, i: nat)
    requires DistinctEntries(candidates) && i < |candidates|
    ensures var p, q := Greedy(l, candidates[..i], budget), Greedy(l, candidates, budget);
            && p.chosen <= q.chosen
            && (IsChosen(q.chosen, candidates[i].index) <==> |p.chosen| < l.slots && !Barred(l, p, candidates[i]))
            && (forall j :: 0 <= j < |p.chosen| ==> FromPart(candidates, 0, i, q.chosen[j]))
            && (forall j :: |p.chosen| <= j < |q.chosen| ==> FromPart(candidates, i, |candidates|, q.chosen[j]))
  {
    var n := |candidates| - 1;
    var init, last := candidates[..n], candidates[n];
    assert candidates == init + [last];
    var q := Greedy(l, init, budget);
    ChosenAreCandidates(l, init, budget);
    LastIsNew(l, init, last, q.chosen);
    if i == n {
      forall j | 0 <= j < |q.chosen|
        ensures FromPart(candidates, 0, i, q.chosen[j])
      {
        var m := ChosenComesFrom(l, init, q.chosen[j]);
        assert candidates[m].index == q.chosen[j].id;
      }
      LastIsChosenExactlyWhen(l, q, last);
      assert candidates[n].index == last.index;
    } else {
      GreedyAt(l, init, budget, i);
      assert init[..i] == candidates[..i];
      PartsGrow(l, init, last, Greedy(l, candidates[..i], budget), q, i);
      assert candidates[i].index != last.index;
    }
  }

  lemma LastIsChosenExactlyWhen(l: Limits, q: Pick, last: Entry)
    requires !IsChosen(q.chosen, last.index)
    ensures IsChosen(Consider(l, q, last).chosen, last.index) <==> |q.chosen| < l.slots && !Barred(l, q, last)
  {
    var p := Consider(l, q, last);
    if |q.chosen| < l.slots && !Barred(l, q, last) {
      assert p.chosen[|q.chosen|].id == last.index;
    }
  }

  lemma PartsGrow(l: Limits, init: seq<Entry>, last: Entry, p: Pick, q: Pick, i: nat)
    requires i < |init| && p.chosen <= q.chosen && init[i].index != last.index
    requires forall j :: 0 <= j < |p.chosen| ==> FromPart(init, 0, i, q.chosen[j])
    requires forall j :: |p.chosen| <= j < |q.chosen| ==> FromPart(init, i, |init|, q.chosen[j])
    ensures var all, r := init + [last], Consider(l, q, last);
            && p.chosen <= r.chosen
            && (IsChosen(r.chosen, init[i].index) <==> IsChosen(q.chosen, init[i].index))
            && (forall j :: 0 <= j < |p.chosen| ==> FromPart(all, 0, i, r.chosen[j]))
            && (forall j :: |p.chosen| <= j < |r.chosen| ==> FromPart(all, i, |all|, r.chosen[j]))
  {
    var all, r := init + [last], Consider(l, q, last);
    assert forall m :: 0 <= m < |init| ==> all[m] == init[m];
    assert q.chosen <= r.chosen;
    forall j | 0 <= j < |p.chosen|
      ensures FromPart(all, 0, i, r.chosen[j])
    {
      assert FromPart(init, 0, i, q.chosen[j]);
      var m: nat :| m < i && init[m].index == q.chosen[j].id;
      assert all[m].index == r.chosen[j].id;
    }
    forall j | |p.chosen| <= j < |r.chosen|
      ensures FromPart(all, i, |all|, r.chosen[j])
    {
      if j < |q.chosen| {
        assert FromPart(init, i, |init|, q.chosen[j]);
        var m: nat :| i <= m < |init| && init[m].index == q.chosen[j].id;
        assert all[m].index == r.chosen[j].id;
      } else {
        assert all[|init|].index == r.chosen[j].id;
      }
    }
    if IsChosen(q.chosen, init[i].index) {
      var k :| 0 <= k < |q.chosen| && q.chosen[k].id == init[i].index;
      assert r.chosen[k].id == init[i].index;
    }
  }

  // ----- The situation, read off the backlog and the signals -----

  /** Only long requests wait, and the telemetry is reliable. */
  predicate Drains(a: Args, s: State, g: Signals) {
    g.view.reliable && forall e <- s.backlog :: a.longThreshold > 0 && e.prefill > a.longThreshold
  }

  /** No pressure at all, and everything waiting fits the free places. */
  predicate Calm(a: Args, s: State, g: Signals) {
    && !g.cpuOverloaded && !g.kvOverloaded && g.cpuHealthy && g.view.reliable
    && (g.view.usage.Some? ==> g.view.usage.value <= UsageLow(a))
    && (g.view.budget.Some? ==> g.view.budget.value > 0)
    && |s.running| + |s.backlog| <= s.limit
    && |s.running| + |s.backlog| <= g.cpuCap
    && |s.running| + |s.backlog| <= g.kvCap
  }

  predicate Long(a: Args, e: Entry) {
    a.longThreshold > 0 && e.prefill > a.longThreshold
  }

  predicate Smaller(e: Entry, f: Entry) {
    e.prefill < f.prefill || (e.prefill == f.prefill && e.index < f.index)
  }

  predicate Larger(e: Entry, f: Entry) {
    e.prefill > f.prefill || (e.prefill == f.prefill && e.index < f.index)
  }

  /**
   The priority of a round. Draining or calm: by emission. Else with the CPU overloaded: the larger first.
   Else: short before long, then the smaller first. Ties go by emission.
   */
  predicate Before(a: Args, s: State, g: Signals, e: Entry, f: Entry) {
    if Drains(a, s, g) || Calm(a, s, g) then e.index < f.index
    else if g.cpuOverloaded then Larger(e, f)
    else if Long(a, e) == Long(a, f) then Smaller(e, f)
    else Long(a, f)
  }

  /** After k admissions of this round there is a place for one more. */
  ghost predicate HasPlace(a: Args, s: State, g: Signals, k: nat) {
    && |s.running| + k < s.limit && |s.running| + k < g.cpuCap && |s.running| + k < g.kvCap
    && (Drains(a, s, g) ==>
          && LongCount(s.running) + k < a.tailMax
          && (k == 0 || forall job <- s.running :: job.blocks > 0))
  }

  /** Beside the jobs, a long entry is within its cap and the block budget. */
  ghost predicate HasRoom(a: Args, s: State, g: Signals, jobs: seq<Job>, e: Entry) {
    && g.view.reliable && g.view.blockSize.Some? && g.view.numGpu.Some? && g.view.budget.Some?
    && LongCount(s.running + jobs) < (if Drains(a, s, g) then a.tailMax else a.longMax)
    && var blocks := TotalBlocks(s.running + jobs) + KvBlocks(e.prefill, g.view.blockSize.value);
       if Drains(a, s, g) then
         blocks as real <= Times(g.view.numGpu.value as real, Clamp(0.0, a.tailRatio, 1.0))
       else blocks <= g.view.budget.value
  }

  ghost predicate OfEntry(backlog: seq<Entry>, job: Job, e: Entry) {
    e in backlog && e.index == job.id
  }

  ghost predicate OfEarlier(a: Args, s: State, g: Signals, job: Job, e: Entry) {
    exists f :: OfEntry(s.backlog, job, f) && Before(a, s, g, f, e)
  }

  ghost predicate OfThisOrLater(a: Args, s: State, g: Signals, job: Job, e: Entry) {
    exists f :: OfEntry(s.backlog, job, f) && (f == e || Before(a, s, g, e, f))
  }

  /** Of the jobs admitted, the first k are of requests before this one, and the others are not. */
  ghost predicate Ahead(a: Args, s: State, g: Signals, jobs: seq<Job>, e: Entry, k: nat) {
    && k <= |jobs|
    && (forall j :: 0 <= j < k ==> OfEarlier(a, s, g, jobs[j], e))
    && (forall j :: k <= j < |jobs| ==> OfThisOrLater(a, s, g, jobs[j], e))
  }

  /** The rule of a round for one waiting request. */
  ghost predicate Ruled(a: Args, s: State, g: Signals, jobs: seq<Job>, e: Entry, k: nat) {
    && Ahead(a, s, g, jobs, e, k)
    && (IsChosen(jobs, e.index) <==> HasPlace(a, s, g, k) && (Long(a, e) ==> HasRoom(a, s, g, jobs[..k], e)))
  }

  // ----- The selection follows the rule -----

  /** What every control round knows of its view. */
  ghost predicate IsSound(g: Signals) {
    g.view.reliable ==>
      && g.view.numGpu.Some? && g.view.budget.Some? && g.view.blockSize.Some? && g.view.blockSize.value > 0
  }

  lemma DrainsIsTailMode(a: Args, s: State, g: Signals)
    requires s.backlog != []
    ensures Drains(a, s, g) <==> TailMode(a, s, g)
  {
    assert s.backlog[0] in s.backlog;
  }

  lemma OrderIsPriority(a: Args, s: State, g: Signals, e: Entry, f: Entry)
    requires s.backlog != [] && e in s.backlog && f in s.backlog && e.index != f.index
    ensures KeyLe(KeyOf(OrderOf(a, s, g), a.longThreshold, e), KeyOf(OrderOf(a, s, g), a.longThreshold, f))
            <==> Before(a, s, g, e, f)
  {
    DrainsIsTailMode(a, s, g);
  }

  lemma {:induction false} UntrackedIsCounted(running: seq<Job>)
    ensures Untracked(running) == 0 <==> forall job <- running :: job.blocks > 0
  {
    if running != [] {
      UntrackedIsCounted(running[..|running| - 1]);
      assert running == running[..|running| - 1] + [running[|running| - 1]];
    }
  }

  lemma SlotsArePlaces(a: Args, s: State, g: Signals, k: nat)
    requires s.backlog != []
    ensures k < Slots(a, s, g) <==> HasPlace(a, s, g, k)
  {
    DrainsIsTailMode(a, s, g);
    UntrackedIsCounted(s.running);
  }

  lemma LongsCostBlocks(e: Entry, threshold: int, blockSize: int)
    requires IsLong(threshold, e) && blockSize > 0
    ensures KvBlocks(e.prefill, blockSize) >= 1
  {
    BlocksJustFit(e.prefill, blockSize);
  }

  lemma BarredIsNoRoom(a: Args, s: State, g: Signals, p: Pick, e: Entry)
    requires s.backlog != [] && IsSound(g) && IsLong(a.longThreshold, e)
    requires p.longs == LongCount(p.chosen)
    requires var b := BudgetLeft(a, s, g);
             b.Some? ==> p.budget.Some? && TotalBlocks(p.chosen) + p.budget.value == b.value
    ensures Barred(LimitsOf(a, s, g), p, e) <==> !HasRoom(a, s, g, p.chosen, e)
  {
    DrainsIsTailMode(a, s, g);
    Totals(s.running, p.chosen);
    if g.view.reliable {
      LongsCostBlocks(e, a.longThreshold, g.view.blockSize.value);
    }
  }

  lemma SelectionAt(a: Args, s: State, g: Signals, i: nat)
    requires IncreasingEntries(s.backlog) && IsSound(g) && i < |Candidates(a, s, g)|
    requires var b := BudgetLeft(a, s, g); b.Some? ==> b.value >= 0
    ensures var e := Candidates(a, s, g)[i];
            var p := Greedy(LimitsOf(a, s, g), Candidates(a, s, g)[..i], BudgetLeft(a, s, g));
            var jobs := Selection(a, s, g).chosen;
            && p.chosen <= jobs && jobs[..|p.chosen|] == p.chosen
            && (IsChosen(jobs, e.index) <==>
                  HasPlace(a, s, g, |p.chosen|) && (Long(a, e) ==> HasRoom(a, s, g, p.chosen, e)))
  {
    var l, candidates, budget := LimitsOf(a, s, g), Candidates(a, s, g), BudgetLeft(a, s, g);
    SortedKeepsEntries(OrderOf(a, s, g), a.longThreshold, s.backlog);
    var e, p := candidates[i], Greedy(l, candidates[..i], budget);
    assert e in candidates;
    GreedyAt(l, candidates, budget, i);
    GreedyStaysWithinLimits(l, candidates[..i], budget);
    SlotsArePlaces(a, s, g, |p.chosen|);
    if IsLong(a.longThreshold, e) {
      BarredIsNoRoom(a, s, g, p, e);
    }
  }

  lemma SelectionIsAhead(a: Args, s: State, g: Signals, i: nat)
    requires IncreasingEntries(s.backlog) && i < |Candidates(a, s, g)|
    ensures var p := Greedy(LimitsOf(a, s, g), Candidates(a, s, g)[..i], BudgetLeft(a, s, g));
            Ahead(a, s, g, Selection(a, s, g).chosen, Candidates(a, s, g)[i], |p.chosen|)
  {
    var l, candidates, budget := LimitsOf(a, s, g), Candidates(a, s, g), BudgetLeft(a, s, g);
    SortedKeepsEntries(OrderOf(a, s, g), a.longThreshold, s.backlog);
    SortedSorts(OrderOf(a, s, g), a.longThreshold, s.backlog);
    GreedyAt(l, candidates, budget, i);
    var e, k := candidates[i], |Greedy(l, candidates[..i], budget).chosen|;
    var jobs := Greedy(l, candidates, budget).chosen;
    assert e in candidates;
    forall j | 0 <= j < k
      ensures OfEarlier(a, s, g, jobs[j], e)
    {
      var m :| 0 <= m < i && candidates[m].index == jobs[j].id;
      assert candidates[m] in candidates;
      OrderIsPriority(a, s, g, candidates[m], e);
      assert OfEntry(s.backlog, jobs[j], candidates[m]);
    }
    forall j | k <= j < |jobs|
      ensures OfThisOrLater(a, s, g, jobs[j], e)
    {
      var m :| i <= m < |candidates| && candidates[m].index == jobs[j].id;
      assert candidates[m] in candidates;
      if m > i {
        OrderIsPriority(a, s, g, e, candidates[m]);
      }
      assert OfEntry(s.backlog, jobs[j], candidates[m]);
    }
  }

  /** A waiting request is admitted exactly when, after those before it, a place and (if long) room are left. */
  lemma SelectionIsRuled(a: Args, s: State, g: Signals, e: Entry)
    requires IncreasingEntries(s.backlog) && IsSound(g) && e in s.backlog
    requires var b := BudgetLeft(a, s, g); b.Some? ==> b.value >= 0
    ensures exists k :: Ruled(a, s, g, Selection(a, s, g).chosen, e, k)
  {
    var candidates := Candidates(a, s, g);
    SortedKeepsEntries(OrderOf(a, s, g), a.longThreshold, s.backlog);
    var i :| 0 <= i < |candidates| && candidates[i] == e;
    SelectionAt(a, s, g, i);
    SelectionIsAhead(a, s, g, i);
    var k := |Greedy(LimitsOf(a, s, g), candidates[..i], BudgetLeft(a, s, g)).chosen|;
    assert Ruled(a, s, g, Selection(a, s, g).chosen, e, k);
  }

  // ----- A round follows the rule -----

  /** The job is of this waiting request, with its class and charge. */
  ghost predicate Submits(a: Args, s: State, g: Signals, job: Job, e: Entry) {
    && OfEntry(s.backlog, job, e)
    && job.isLong == Long(a, e)
    && job.blocks == if Long(a, e) && g.view.blockSize.Some? then KvBlocks(e.prefill, g.view.blockSize.value) else 0
  }

  ghost predicate SubmitsSome(a: Args, s: State, g: Signals, job: Job) {
    exists e :: Submits(a, s, g, job, e)
  }

  /** The requests that a round admits, as the jobs it adds, and those it leaves waiting. */
  ghost predicate FollowsRule(a: Args, s: State, g: Signals, jobs: seq<Job>, left: seq<Entry>) {
    && (forall e <- s.backlog :: exists k :: Ruled(a, s, g, jobs, e, k))
    && (forall k :: 0 <= k < |jobs| ==> HasPlace(a, s, g, k))
    && DistinctJobs(jobs)
    && (forall job <- jobs :: SubmitsSome(a, s, g, job))
    && IncreasingEntries(left) && (forall e :: e in left <==> e in s.backlog && !IsChosen(jobs, e.index))
  }

  lemma JobsAreSubmitted(a: Args, s: State, g: Signals)
    requires IncreasingEntries(s.backlog)
    ensures DistinctJobs(Selection(a, s, g).chosen)
    ensures forall job <- Selection(a, s, g).chosen :: SubmitsSome(a, s, g, job)
  {
    var l, candidates, budget := LimitsOf(a, s, g), Candidates(a, s, g), BudgetLeft(a, s, g);
    SortedKeepsEntries(OrderOf(a, s, g), a.longThreshold, s.backlog);
    ChosenAreCandidates(l, candidates, budget);
    OnlyLongsAreCharged(l, candidates, budget);
    forall job | job in Selection(a, s, g).chosen
      ensures SubmitsSome(a, s, g, job)
    {
      var e :| e in candidates && ChargedAs(l, e, job);
      assert Submits(a, s, g, job, e);
    }
  }

  lemma PlacesSuffice(a: Args, s: State, g: Signals)
    requires s.backlog != []
    requires var b := BudgetLeft(a, s, g); b.Some? ==> b.value >= 0
    ensures forall k :: 0 <= k < |Selection(a, s, g).chosen| ==> HasPlace(a, s, g, k)
  {
    GreedyStaysWithinLimits(LimitsOf(a, s, g), Candidates(a, s, g), BudgetLeft(a, s, g));
    forall k | 0 <= k < |Selection(a, s, g).chosen|
      ensures HasPlace(a, s, g, k)
    {
      SlotsArePlaces(a, s, g, k);
    }
  }

  lemma AdmissionFollowsRule(a: Args, s: State, g: Signals)
    requires IncreasingEntries(s.backlog) && s.backlog != [] && IsSound(g)
    requires var b := BudgetLeft(a, s, g); b.Some? ==> b.value >= 0
    ensures FollowsRule(a, s, g, Selection(a, s, g).chosen, Admitted(a, s, g).backlog)
  {
    var jobs := Selection(a, s, g).chosen;
    forall e | e in s.backlog
      ensures exists k :: Ruled(a, s, g, jobs, e, k)
    {
      SelectionIsRuled(a, s, g, e);
    }
    JobsAreSubmitted(a, s, g);
    PlacesSuffice(a, s, g);
    RemainingKeepsOrder(s.backlog, jobs);
    RemainingMembers(s.backlog, jobs);
  }

  lemma SignalsAreSound(a: Args, s: State, i: Input)
    ensures IsSound(SignalsOf(a, s, i))
  {
  }

  lemma BudgetIsNotNegative(a: Args, s: State, g: Signals)
    ensures var b := BudgetLeft(a, s, g); b.Some? ==> b.value >= 0
  {
  }

  /**
   The reference form of a round: the running jobs stay, the new ones follow the rule for the controlled
   window and the signals of the round, and the others wait on in order.
   */
  lemma RoundFollowsRule(a: Args, s: State, i: Input)
    requires IncreasingEntries(s.backlog) && s.backlog != []
    ensures var c, g, t := Controlled(a, s, i), SignalsOf(a, s, i), Round(a, s, i);
            && c.backlog == s.backlog && c.running == s.running && t.limit == c.limit
            && s.running <= t.running
            && FollowsRule(a, c, g, t.running[|s.running|..], t.backlog)
  {
    var c, g := Controlled(a, s, i), SignalsOf(a, s, i);
    SignalsAreSound(a, s, i);
    BudgetIsNotNegative(a, c, g);
    AdmissionFollowsRule(a, c, g);
    var chosen := Selection(a, c, g).chosen;
    assert (s.running + chosen)[|s.running|..] == chosen;
  }

  // ----- What the rule means -----

  lemma OneEntryPerJob(s: State, job: Job, e: Entry, f: Entry)
    requires IncreasingEntries(s.backlog) && OfEntry(s.backlog, job, e) && OfEntry(s.backlog, job, f)
    ensures e == f
  {
    var i :| 0 <= i < |s.backlog| && s.backlog[i] == e;
    var j :| 0 <= j < |s.backlog| && s.backlog[j] == f;
  }

  lemma NoneIsEarlierThanItself(a: Args, s: State, g: Signals, job: Job, e: Entry)
    requires IncreasingEntries(s.backlog) && OfEntry(s.backlog, job, e)
    ensures !OfEarlier(a, s, g, job, e)
  {
    forall f | OfEntry(s.backlog, job, f)
      ensures !Before(a, s, g, f, e)
    {
      OneEntryPerJob(s, job, e, f);
    }
  }

  /** Where an admitted request stands among the jobs. */
  lemma AheadIsPosition(a: Args, s: State, g: Signals, jobs: seq<Job>, e: Entry, k: nat, j: nat)
    requires IncreasingEntries(s.backlog) && Ahead(a, s, g, jobs, e, k)
    requires j < |jobs| && OfEntry(s.backlog, jobs[j], e)
    ensures k <= j
  {
    NoneIsEarlierThanItself(a, s, g, jobs[j], e);
  }

  /** Jobs are submitted in the order of priority. */
  lemma SubmissionFollowsPriority(a: Args, s: State, g: Signals, jobs: seq<Job>, left: seq<Entry>, i: nat, j: nat,
        e: Entry, f: Entry)
    requires IncreasingEntries(s.backlog) && FollowsRule(a, s, g, jobs, left) && i < j < |jobs|
    requires OfEntry(s.backlog, jobs[i], e) && OfEntry(s.backlog, jobs[j], f)
    ensures Before(a, s, g, e, f)
  {
    var k :| Ruled(a, s, g, jobs, e, k);
    var m :| Ruled(a, s, g, jobs, f, m);
    AheadIsPosition(a, s, g, jobs, e, k, i);
    AheadIsPosition(a, s, g, jobs, f, m, j);
    assert OfThisOrLater(a, s, g, jobs[j], e);
    var x :| OfEntry(s.backlog, jobs[j], x) && (x == e || Before(a, s, g, e, x));
    OneEntryPerJob(s, jobs[j], f, x);
  }

  lemma RoomShrinks(a: Args, s: State, g: Signals, jobs: seq<Job>, k: nat, e: Entry)
    requires k <= |jobs| && HasRoom(a, s, g, jobs, e)
    ensures HasRoom(a, s, g, jobs[..k], e)
  {
    assert s.running + jobs == (s.running + jobs[..k]) + jobs[k..];
    Totals(s.running + jobs[..k], jobs[k..]);
  }

  /** If a request is left out for want of a place only, every job is of a request before it. */
  lemma LeftOutComesLast(a: Args, s: State, g: Signals, jobs: seq<Job>, left: seq<Entry>, e: Entry, f: Entry)
    requires IncreasingEntries(s.backlog) && FollowsRule(a, s, g, jobs, left)
    requires e in left && (Long(a, e) ==> HasRoom(a, s, g, jobs, e))
    requires f in s.backlog && f !in left
    ensures Before(a, s, g, f, e)
  {
    var k :| Ruled(a, s, g, jobs, e, k);
    if Long(a, e) {
      RoomShrinks(a, s, g, jobs, k, e);
    }
    assert !HasPlace(a, s, g, k);
    var j :| 0 <= j < |jobs| && jobs[j].id == f.index;
    assert HasPlace(a, s, g, j);
    assert OfEarlier(a, s, g, jobs[j], e);
    var x :| OfEntry(s.backlog, jobs[j], x) && Before(a, s, g, x, e);
    OneEntryPerJob(s, jobs[j], f, x);
  }

  /** What a round admits: waiting before it, and no longer waiting after it. */
  predicate Admits(a: Args, s: State, i: Input, e: Entry) {
    e in s.backlog && e !in Round(a, s, i).backlog
  }

  predicate LeavesOut(a: Args, s: State, i: Input, e: Entry) {
    e in s.backlog && e in Round(a, s, i).backlog
  }

  /**
   Under pressure of another kind than the CPU's, or when more wait than there are places: no short request
   is left out while a long or a larger one is admitted.
   */
  lemma ShortsAndSmallOnesFirst(a: Args, s: State, i: Input, e: Entry, f: Entry)
    requires IncreasingEntries(s.backlog)
    requires var c, g := Controlled(a, s, i), SignalsOf(a, s, i);
             !Drains(a, c, g) && !Calm(a, c, g) && !g.cpuOverloaded
    requires LeavesOut(a, s, i, e) && !Long(a, e) && Admits(a, s, i, f)
    ensures !Long(a, f) && Smaller(f, e)
  {
    var c, g, t := Controlled(a, s, i), SignalsOf(a, s, i), Round(a, s, i);
    RoundFollowsRule(a, s, i);
    LeftOutComesLast(a, c, g, t.running[|s.running|..], t.backlog, e, f);
  }

  /** With the CPU overloaded: none is left out, for want of a place only, while a smaller one is admitted. */
  lemma LargestFirstWhenCpuOverloaded(a: Args, s: State, i: Input, e: Entry, f: Entry)
    requires IncreasingEntries(s.backlog)
    requires var c, g := Controlled(a, s, i), SignalsOf(a, s, i); !Drains(a, c, g) && g.cpuOverloaded
    requires LeavesOut(a, s, i, e) && Admits(a, s, i, f)
    requires var c, g, t := Controlled(a, s, i), SignalsOf(a, s, i), Round(a, s, i);
             s.running <= t.running && (Long(a, e) ==> HasRoom(a, c, g, t.running[|s.running|..], e))
    ensures Larger(f, e)
  {
    var c, g, t := Controlled(a, s, i), SignalsOf(a, s, i), Round(a, s, i);
    RoundFollowsRule(a, s, i);
    LeftOutComesLast(a, c, g, t.running[|s.running|..], t.backlog, e, f);
  }

  /** When draining or calm, jobs are submitted in emission order. */
  lemma ArrivalOrderWhenDrainingOrCalm(a: Args, s: State, i: Input)
    requires IncreasingEntries(s.backlog) && s.backlog != []
    requires var c, g := Controlled(a, s, i), SignalsOf(a, s, i); Drains(a, c, g) || Calm(a, c, g)
    ensures s.running <= Round(a, s, i).running
    ensures IncreasingJobs(Round(a, s, i).running[|s.running|..])
  {
    var c, g, t := Controlled(a, s, i), SignalsOf(a, s, i), Round(a, s, i);
    RoundFollowsRule(a, s, i);
    var jobs := t.running[|s.running|..];
    forall m, n | 0 <= m < n < |jobs|
      ensures jobs[m].id < jobs[n].id
    {
      assert jobs[m] in jobs && jobs[n] in jobs;
      var e :| Submits(a, c, g, jobs[m], e);
      var f :| Submits(a, c, g, jobs[n], f);
      SubmissionFollowsPriority(a, c, g, jobs, t.backlog, m, n, e, f);
    }
  }
}
