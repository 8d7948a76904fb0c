/**
 The MARS external admission controller: the backlog, the running requests with
 the KV blocks charged to them, and one admission round.
 */
module Mars {
  import opened Sequences
  import opened MarsWindow
  import opened MarsSelection

  datatype State = State(
    limit: int, cpuOverloaded: bool, kvOverloaded: bool, lastControl: real, kv: KvCache,
    backlog: seq<Entry>, running: seq<Job>, traces: seq<nat>, nextIndex: nat)

  function InitialState(a: Args): State {
    State(InitialLimit(a), false, false, 0.0, KvCache(None, 0.0, None, 0.0), [], [], [], 0)
  }

  /** What one round reads from outside: the monotonic clock, the tool statistics, one KV poll. */
  datatype Input = Input(now: real, cpu: Cpu, fetch: Fetch)

  // ----- The control part of a round -----

  function SignalsOf(a: Args, s: State, i: Input): Signals {
    var view := ReadKv(a, Refreshed(a, s.kv, i.now, i.fetch).cached);
    Signals(CpuOverloaded(a, s.cpuOverloaded, i.cpu), KvOverloaded(a, s.kvOverloaded, view),
            CpuHealthy(a, i.cpu), view, CpuCap(a, i.cpu), KvCap(a, view))
  }

  function Controlled(a: Args, s: State, i: Input): State {
    var g := SignalsOf(a, s, i);
    var due := s.lastControl <= 0.0 || i.now - s.lastControl >= a.controlInterval;
    s.(kv := Refreshed(a, s.kv, i.now, i.fetch),
       cpuOverloaded := g.cpuOverloaded, kvOverloaded := g.kvOverloaded,
       limit := if due then NextLimit(a, s.limit, g) else s.limit,
       lastControl := if due then i.now else s.lastControl)
  }

  // ----- The selection part of a round -----

  function LongEntries(a: Args, entries: seq<Entry>): seq<Entry> {
    if entries == [] then []
    else
      var rest, last := LongEntries(a, entries[..|entries| - 1]), entries[|entries| - 1];
      if IsLong(a.longThreshold, last) then rest + [last] else rest
  }

  predicate HasShort(a: Args, entries: seq<Entry>) {
    exists e :: e in entries && !IsLong(a.longThreshold, e)
  }

  /** Only long requests wait, and the KV telemetry is reliable. */
  predicate TailMode(a: Args, s: State, g: Signals) {
    a.longThreshold > 0 && s.backlog != [] && !HasShort(a, s.backlog) && g.view.reliable
  }

  function FreeSlots(s: State, g: Signals): nat {
    Max(0, ActiveLimit(s.limit, g) - |s.running|)
  }

  predicate LowPressure(a: Args, s: State, g: Signals) {
    && !TailMode(a, s, g) && !Overloaded(g) && g.cpuHealthy && g.view.reliable
    && (g.view.usage.None? || g.view.usage.value <= UsageLow(a))
    && (g.view.budget.None? || g.view.budget.value > 0)
    && |s.backlog| <= FreeSlots(s, g)
  }

  function OrderOf(a: Args, s: State, g: Signals): Order {
    if TailMode(a, s, g) || LowPressure(a, s, g) then BySeq
    else if g.cpuOverloaded then LongestFirst
    else ShortFirst
  }

  function LongCap(a: Args, s: State, g: Signals): nat {
    Max(0, if TailMode(a, s, g) then a.tailMax else a.longMax)
  }

  function Untracked(running: seq<Job>): nat {
    if running == [] then 0
    else Untracked(running[..|running| - 1]) + if running[|running| - 1].blocks == 0 then 1 else 0
  }

  function Slots(a: Args, s: State, g: Signals): nat {
    if TailMode(a, s, g) then
      var room := Min(FreeSlots(s, g), Max(0, LongCap(a, s, g) - LongCount(s.running)));
      if Untracked(s.running) > 0 then Min(room, 1) else room
    else FreeSlots(s, g)
  }

  function TailBudget(a: Args, numGpu: int): nat {
    Max(0, Times(numGpu as real, Clamp(0.0, a.tailRatio, 1.0)).Floor)
  }

  function BudgetLeft(a: Args, s: State, g: Signals): Option<int> {
    if TailMode(a, s, g) && g.view.numGpu.Some? then
      Some(Max(0, TailBudget(a, g.view.numGpu.value) - TotalBlocks(s.running)))
    else if g.view.budget.Some? then Some(Max(0, g.view.budget.value - TotalBlocks(s.running)))
    else None
  }

  function LimitsOf(a: Args, s: State, g: Signals): Limits {
    Limits(a.longThreshold, g.view.reliable, g.view.blockSize, LongCount(s.running), LongCap(a, s, g), Slots(a, s, g))
  }

  function Candidates(a: Args, s: State, g: Signals): seq<Entry> {
    Sorted(OrderOf(a, s, g), a.longThreshold, s.backlog)
  }

  function Selection(a: Args, s: State, g: Signals): Pick {
    Greedy(LimitsOf(a, s, g), Candidates(a, s, g), BudgetLeft(a, s, g))
  }

  function Remaining(backlog: seq<Entry>, chosen: seq<Job>): seq<Entry> {
    if backlog == [] then []
    else
      var rest, last := Remaining(backlog[..|backlog| - 1], chosen), backlog[|backlog| - 1];
      if IsChosen(chosen, last.index) then rest else rest + [last]
  }

  function Admitted(a: Args, s: State, g: Signals): State {
    var chosen := Selection(a, s, g).chosen;
    s.(backlog := Remaining(s.backlog, chosen), running := s.running + chosen)
  }

  /** One admission round; an empty backlog is left alone, without even a poll. */
  function Round(a: Args, s: State, i: Input): State {
    if s.backlog == [] then s else Admitted(a, Controlled(a, s, i), SignalsOf(a, s, i))
  }

  // ----- Invariant -----

  function Ids(jobs: seq<Job>): set<nat> {
    set job | job in jobs :: job.id
  }

  function Indices(entries: seq<Entry>): set<nat> {
    set e | e in entries :: e.index
  }

  /** Every emitted request is in exactly one of backlog, running and collected. */
  ghost predicate Accounted(s: State) {
    && IncreasingEntries(s.backlog) && DistinctJobs(s.running) && Distinct(s.traces)
    && Indices(s.backlog) !! Ids(s.running)
    && Indices(s.backlog) !! Elements(s.traces)
    && Ids(s.running) !! Elements(s.traces)
    && Indices(s.backlog) + Ids(s.running) + Elements(s.traces) == Elements(Range(0, s.nextIndex))
  }

  /** The device has `blocks` KV blocks, and no report claims more free ones. */
  ghost predicate Plausible(stats: KvStats, blocks: int) {
    && (stats.numGpu.Some? ==> stats.numGpu.value == blocks)
    && (stats.numFree.Some? ==> stats.numFree.value <= blocks)
  }

  ghost predicate PlausibleCache(kv: KvCache, blocks: int) {
    && (kv.cached.Some? ==> Plausible(kv.cached.value, blocks))
    && (kv.lastFull.Some? ==> Plausible(kv.lastFull.value, blocks))
  }

  ghost predicate WithinBounds(a: Args, blocks: nat, s: State) {
    && WindowMin(a) <= s.limit <= a.poolSize
    && |s.running| <= a.poolSize
    && LongCount(s.running) <= Max(0, Max(a.longMax, a.tailMax))
    && TotalBlocks(s.running) <= blocks
    && PlausibleCache(s.kv, blocks)
  }

  // ----- Bounds over a round -----

  lemma RefreshStaysPlausible(a: Args, kv: KvCache, now: real, fetch: Fetch, blocks: int)
    requires PlausibleCache(kv, blocks) && (fetch.Full? ==> Plausible(fetch.stats, blocks))
    ensures PlausibleCache(Refreshed(a, kv, now, fetch), blocks)
  {
  }

  lemma ViewStaysPlausible(a: Args, cached: Option<KvStats>, blocks: nat)
    requires cached.Some? ==> Plausible(cached.value, blocks)
    ensures var view := ReadKv(a, cached);
            && (view.numGpu.Some? ==> view.numGpu.value == blocks)
            && (view.budget.Some? ==> 0 <= view.budget.value <= blocks)
            && (view.reliable ==>
                  view.numGpu.Some? && view.budget.Some? && view.blockSize.Some? && view.blockSize.value > 0)
  {
    ReserveIsNonNegative(a, blocks);
  }

  lemma TailBudgetFits(a: Args, numGpu: nat)
    ensures TailBudget(a, numGpu) <= numGpu
  {
    var r := Clamp(0.0, a.tailRatio, 1.0);
    TimesIsMonotone(r, 1.0, numGpu as real);
    assert Times(numGpu as real, r) == Times(r, numGpu as real);
  }

  /** Whatever the mode, the remaining budget and the blocks in use together fit the device. */
  lemma BudgetFits(a: Args, s: State, g: Signals, blocks: nat)
    requires TotalBlocks(s.running) <= blocks
    requires g.view.numGpu.Some? ==> g.view.numGpu.value == blocks
    requires g.view.budget.Some? ==> 0 <= g.view.budget.value <= blocks
    requires g.view.reliable ==> g.view.numGpu.Some? && g.view.budget.Some?
    ensures var b := BudgetLeft(a, s, g);
            && (b.Some? ==> 0 <= b.value <= blocks - TotalBlocks(s.running))
            && (g.view.reliable ==> b.Some?)
  {
    TailBudgetFits(a, blocks);
  }

  lemma AdmissionKeepsBounds(a: Args, blocks: nat, s: State, g: Signals)
    requires a.poolSize > 0 && WithinBounds(a, blocks, s)
    requires ActiveLimit(s.limit, g) <= a.poolSize
    requires var b := BudgetLeft(a, s, g);
             && (b.Some? ==> 0 <= b.value <= blocks - TotalBlocks(s.running))
             && (g.view.reliable ==> b.Some?)
    ensures WithinBounds(a, blocks, Admitted(a, s, g))
  {
    SelectionFits(LimitsOf(a, s, g), Candidates(a, s, g), BudgetLeft(a, s, g), s.running, blocks);
    assert Slots(a, s, g) <= FreeSlots(s, g);
    assert LongCap(a, s, g) <= Max(0, Max(a.longMax, a.tailMax));
  }

  lemma SelectionFits(l: Limits, candidates: seq<Entry>, budget: Option<int>, running: seq<Job>, blocks: nat)
    requires l.slots >= 0 && l.longInFlight == LongCount(running)
    requires TotalBlocks(running) <= blocks
    requires budget.Some? ==> 0 <= budget.value <= blocks - TotalBlocks(running)
    requires l.reliable ==> budget.Some?
    ensures var after := running + Greedy(l, candidates, budget).chosen;
            && |after| <= |running| + l.slots
            && LongCount(after) <= Max(LongCount(running), l.longCap)
            && TotalBlocks(after) <= blocks
  {
    GreedyStaysWithinLimits(l, candidates, budget);
    Totals(running, Greedy(l, candidates, budget).chosen);
  }

  lemma RoundKeepsBounds(a: Args, blocks: nat, s: State, i: Input)
    requires a.poolSize > 0 && WithinBounds(a, blocks, s)
    requires i.fetch.Full? ==> Plausible(i.fetch.stats, blocks)
    ensures WithinBounds(a, blocks, Round(a, s, i))
    ensures s.backlog != [] ==> 1 <= ActiveLimit(Controlled(a, s, i).limit, SignalsOf(a, s, i)) <= a.poolSize
  {
    if s.backlog != [] {
      var g, c := SignalsOf(a, s, i), Controlled(a, s, i);
      CapsArePositive(a, i.cpu, g.view);
      LimitStaysInRange(a, s.limit, g);
      RefreshStaysPlausible(a, s.kv, i.now, i.fetch, blocks);
      ViewStaysPlausible(a, c.kv.cached, blocks);
      BudgetFits(a, c, g, blocks);
      AdmissionKeepsBounds(a, blocks, c, g);
    }
  }

  // ----- Accounting over a round -----

  lemma {:induction false} RemainingMembers(backlog: seq<Entry>, chosen: seq<Job>)
    ensures forall e :: e in Remaining(backlog, chosen) <==> e in backlog && !IsChosen(chosen, e.index)
  {
    if backlog != [] {
      RemainingMembers(backlog[..|backlog| - 1], chosen);
      assert backlog == backlog[..|backlog| - 1] + [backlog[|backlog| - 1]];
    }
  }

  /** What stays in the backlog keeps its order. */
  lemma {:induction false} RemainingKeepsOrder(backlog: seq<Entry>, chosen: seq<Job>)
    requires IncreasingEntries(backlog)
    ensures IncreasingEntries(Remaining(backlog, chosen))
  {
    if backlog != [] {
      var init, last := backlog[..|backlog| - 1], backlog[|backlog| - 1];
      RemainingKeepsOrder(init, chosen);
      RemainingMembers(init, chosen);
      var rest := Remaining(init, chosen);
      forall k | 0 <= k < |rest|
        ensures rest[k].index < last.index
      {
        assert rest[k] in init;
      }
    }
  }

  lemma ChosenCameFromBacklog(a: Args, s: State, g: Signals)
    requires IncreasingEntries(s.backlog)
    ensures var chosen := Selection(a, s, g).chosen;
            && DistinctJobs(chosen)
            && Ids(chosen) <= Indices(s.backlog)
            && Indices(Remaining(s.backlog, chosen)) == Indices(s.backlog) - Ids(chosen)
  {
    var chosen := Selection(a, s, g).chosen;
    SortedKeepsEntries(OrderOf(a, s, g), a.longThreshold, s.backlog);
    ChosenAreCandidates(LimitsOf(a, s, g), Candidates(a, s, g), BudgetLeft(a, s, g));
    RemainingMembers(s.backlog, chosen);
    forall job | job in chosen
      ensures job.id in Indices(s.backlog)
    {
      assert FromCandidate(LimitsOf(a, s, g), Candidates(a, s, g), job);
    }
    forall e | e in s.backlog
      ensures IsChosen(chosen, e.index) <==> e.index in Ids(chosen)
    {
      if e.index in Ids(chosen) {
        var job :| job in chosen && job.id == e.index;
        var k :| 0 <= k < |chosen| && chosen[k] == job;
        assert chosen[k].id == e.index;
      }
    }
  }

  lemma IdsConcat(x: seq<Job>, y: seq<Job>)
    requires DistinctJobs(x) && DistinctJobs(y) && Ids(x) !! Ids(y)
    ensures DistinctJobs(x + y) && Ids(x + y) == Ids(x) + Ids(y)
  {
    forall i, j | 0 <= i < j < |x + y|
      ensures (x + y)[i].id != (x + y)[j].id
    {
      if i < |x| <= j {
        assert x[i].id in Ids(x) && y[j - |x|].id in Ids(y);
      }
    }
  }

  lemma AdmissionKeepsAccounts(a: Args, s: State, g: Signals)
    requires Accounted(s)
    ensures Accounted(Admitted(a, s, g))
  {
    var chosen := Selection(a, s, g).chosen;
    ChosenCameFromBacklog(a, s, g);
    RemainingKeepsOrder(s.backlog, chosen);
    IdsConcat(s.running, chosen);
  }

  // ----- Collection and emission -----

  function WithoutJob(jobs: seq<Job>, id: nat): seq<Job> {
    if jobs == [] then []
    else
      var rest, last := WithoutJob(jobs[..|jobs| - 1], id), jobs[|jobs| - 1];
      if last.id == id then rest else rest + [last]
  }

  function Completed(s: State, id: nat): State {
    s.(running := WithoutJob(s.running, id), traces := s.traces + [id])
  }

  function Emitted(s: State, prefill: int): State {
    s.(backlog := s.backlog + [Entry(s.nextIndex, prefill)], nextIndex := s.nextIndex + 1)
  }

  lemma {:induction false} WithoutJobTotals(jobs: seq<Job>, id: nat)
    ensures |WithoutJob(jobs, id)| <= |jobs|
    ensures TotalBlocks(WithoutJob(jobs, id)) <= TotalBlocks(jobs)
    ensures LongCount(WithoutJob(jobs, id)) <= LongCount(jobs)
  {
    if jobs != [] {
      var init, last := jobs[..|jobs| - 1], jobs[|jobs| - 1];
      WithoutJobTotals(init, id);
      Totals(WithoutJob(init, id), [last]);
    }
  }

  lemma {:induction false} WithoutJobProperties(jobs: seq<Job>, id: nat)
    requires DistinctJobs(jobs)
    ensures DistinctJobs(WithoutJob(jobs, id))
    ensures forall job :: job in WithoutJob(jobs, id) <==> job in jobs && job.id != id
  {
    if jobs != [] {
      var init, last := jobs[..|jobs| - 1], jobs[|jobs| - 1];
      WithoutJobProperties(init, id);
      assert jobs == init + [last];
      var rest := WithoutJob(init, id);
      forall k | 0 <= k < |rest|
        ensures rest[k].id != last.id
      {
        assert rest[k] in init;
      }
    }
  }

  lemma CompletionKeepsInv(a: Args, blocks: nat, s: State, id: nat)
    requires Accounted(s) && WithinBounds(a, blocks, s) && id in Ids(s.running)
    ensures Accounted(Completed(s, id)) && WithinBounds(a, blocks, Completed(s, id))
  {
    WithoutJobProperties(s.running, id);
    WithoutJobTotals(s.running, id);
    DistinctConcat(s.traces, [id]);
    var rest := WithoutJob(s.running, id);
    assert Ids(rest) == Ids(s.running) - {id} by {
      forall x
        ensures x in Ids(rest) <==> x in Ids(s.running) && x != id
      {
        if x in Ids(s.running) && x != id {
          var job :| job in s.running && job.id == x;
          assert job in rest;
        }
      }
    }
  }

  lemma EmissionKeepsAccounts(s: State, prefill: int)
    requires Accounted(s)
    ensures Accounted(Emitted(s, prefill))
  {
    var e := Entry(s.nextIndex, prefill);
    assert Range(0, s.nextIndex + 1) == Range(0, s.nextIndex) + [s.nextIndex];
    assert s.nextIndex !in Elements(Range(0, s.nextIndex));
    forall x | x in s.backlog
      ensures x.index < s.nextIndex
    {
      assert x.index in Indices(s.backlog);
      assert x.index in Elements(Range(0, s.nextIndex));
    }
    assert Indices(s.backlog + [e]) == Indices(s.backlog) + {s.nextIndex};
  }

  // ----- Whole runs -----

  datatype Step = Emit(prefill: int) | Complete(id: nat) | Admit(input: Input)

  /** Completions are of running requests; the device size is fixed and reports respect it. */
  ghost predicate Enabled(s: State, step: Step, blocks: nat) {
    match step
    case Emit(_) => true
    case Complete(id) => id in Ids(s.running)
    case Admit(input) => input.fetch.Full? ==> Plausible(input.fetch.stats, blocks)
  }

  function Apply(a: Args, s: State, step: Step): State {
    match step
    case Emit(prefill) => Emitted(s, prefill)
    case Complete(id) => Completed(s, id)
    case Admit(input) => Round(a, s, input)
  }

  ghost predicate IsRun(a: Args, blocks: nat, s: State, steps: seq<Step>)
    decreases |steps|
  {
    steps == [] || (Enabled(s, steps[0], blocks) && IsRun(a, blocks, Apply(a, s, steps[0]), steps[1..]))
  }

  function Execute(a: Args, s: State, steps: seq<Step>): State
    decreases |steps|
  {
    if steps == [] then s else Execute(a, Apply(a, s, steps[0]), steps[1..])
  }

  lemma StepKeepsInv(a: Args, blocks: nat, s: State, step: Step)
    requires a.poolSize > 0 && Accounted(s) && WithinBounds(a, blocks, s) && Enabled(s, step, blocks)
    ensures Accounted(Apply(a, s, step)) && WithinBounds(a, blocks, Apply(a, s, step))
  {
    match step
    case Emit(prefill) =>
      EmissionKeepsAccounts(s, prefill);
    case Complete(id) =>
      CompletionKeepsInv(a, blocks, s, id);
    case Admit(input) =>
      RoundKeepsBounds(a, blocks, s, input);
      if s.backlog != [] {
        AdmissionKeepsAccounts(a, Controlled(a, s, input), SignalsOf(a, s, input));
      }
  }

  lemma {:induction false} RunKeepsInv(a: Args, blocks: nat, s: State, steps: seq<Step>)
    requires a.poolSize > 0 && Accounted(s) && WithinBounds(a, blocks, s) && IsRun(a, blocks, s, steps)
    ensures Accounted(Execute(a, s, steps)) && WithinBounds(a, blocks, Execute(a, s, steps))
    decreases |steps|
  {
    if steps != [] {
      StepKeepsInv(a, blocks, s, steps[0]);
      RunKeepsInv(a, blocks, Apply(a, s, steps[0]), steps[1..]);
    }
  }

  /** The whole-run theorem, for every configuration, arrival, completion and telemetry sequence. */
  lemma EveryReachableStateIsSafe(a: Args, blocks: nat, steps: seq<Step>)
    requires a.poolSize > 0 && IsRun(a, blocks, InitialState(a), steps)
    ensures var s := Execute(a, InitialState(a), steps);
            && Accounted(s)
            && WindowMin(a) <= s.limit <= a.poolSize
            && |s.running| <= a.poolSize
            && LongCount(s.running) <= Max(0, Max(a.longMax, a.tailMax))
            && TotalBlocks(s.running) <= blocks
  {
    assert Accounted(InitialState(a));
    RunKeepsInv(a, blocks, InitialState(a), steps);
  }

  // ----- When a round admits -----

  /** In tail mode: an entry the tail budget can still hold. */
  predicate FitsTail(a: Args, g: Signals, e: Entry) {
    && g.view.blockSize.Some? && g.view.numGpu.Some?
    && KvBlocks(e.prefill, g.view.blockSize.value) <= TailBudget(a, g.view.numGpu.value)
  }

  predicate CanProgress(a: Args, s: State, g: Signals) {
    || HasShort(a, s.backlog)
    || (g.view.reliable && a.tailMax >= 1 && exists e :: e in s.backlog && FitsTail(a, g, e))
  }

  /**
   With nothing running and something waiting, a round admits a request exactly when a short one
   waits, or the telemetry is reliable, the tail cap is positive and some long one fits the tail budget.
   */
  lemma RoundAdmitsExactlyWhen(a: Args, s: State, i: Input)
    requires a.poolSize > 0 && WindowMin(a) <= s.limit
    requires s.running == [] && s.backlog != [] && IncreasingEntries(s.backlog)
    ensures Round(a, s, i).running != [] <==> CanProgress(a, s, SignalsOf(a, s, i))
  {
    var g, c := SignalsOf(a, s, i), Controlled(a, s, i);
    CapsArePositive(a, i.cpu, g.view);
    LimitStaysInRange(a, s.limit, g);
    assert ActiveLimit(c.limit, g) >= 1;
    if HasShort(a, s.backlog) {
      ShortsAreAdmitted(a, c, g);
    } else {
      assert g.view.reliable ==> g.view.numGpu.Some? && g.view.blockSize.Some?;
      TailRoundAdmits(a, c, g);
    }
  }

  lemma ShortsAreAdmitted(a: Args, s: State, g: Signals)
    requires HasShort(a, s.backlog) && FreeSlots(s, g) > 0 && IncreasingEntries(s.backlog)
    ensures Selection(a, s, g).chosen != []
  {
    var e :| e in s.backlog && !IsLong(a.longThreshold, e);
    SortedKeepsEntries(OrderOf(a, s, g), a.longThreshold, s.backlog);
    var candidates := Candidates(a, s, g);
    var k :| 0 <= k < |candidates| && candidates[k] == e;
    if Selection(a, s, g).chosen == [] {
      ShortsFillFreeSlots(LimitsOf(a, s, g), candidates, BudgetLeft(a, s, g), k);
    }
  }

  /** When only long requests wait and nothing runs. */
  lemma TailRoundAdmits(a: Args, s: State, g: Signals)
    requires s.running == [] && s.backlog != [] && !HasShort(a, s.backlog)
    requires ActiveLimit(s.limit, g) >= 1 && IncreasingEntries(s.backlog)
    requires g.view.reliable ==> g.view.numGpu.Some? && g.view.blockSize.Some?
    ensures Selection(a, s, g).chosen != [] <==> CanProgress(a, s, g)
  {
    var l, candidates, budget := LimitsOf(a, s, g), Candidates(a, s, g), BudgetLeft(a, s, g);
    SortedKeepsEntries(OrderOf(a, s, g), a.longThreshold, s.backlog);
    forall e | e in candidates
      ensures IsLong(a.longThreshold, e)
    {
      assert e in s.backlog;
    }
    assert s.backlog[0] in candidates;
    assert g.view.reliable ==> TailMode(a, s, g) && budget == Some(TailBudget(a, g.view.numGpu.value));
    forall e | e in candidates
      ensures Barred(l, Pick([], budget, 0), e) <==> !(g.view.reliable && a.tailMax >= 1 && FitsTail(a, g, e))
    {
    }
    NothingChosenExactlyWhenAllBarred(l, candidates, budget);
  }

  /** From an empty choice, the pass stays empty exactly when no candidate could start it. */
  lemma NothingChosenExactlyWhenAllBarred(l: Limits, candidates: seq<Entry>, budget: Option<int>)
    requires budget.Some? ==> budget.value >= 0
    ensures Greedy(l, candidates, budget).chosen == [] <==>
            (l.slots <= 0 || forall e :: e in candidates ==> Barred(l, Pick([], budget, 0), e))
  {
    GreedyStaysWithinLimits(l, candidates, budget);
    if l.slots <= 0 || forall e :: e in candidates ==> Barred(l, Pick([], budget, 0), e) {
      AllBarredNothingChosen(l, candidates, budget);
    } else if Greedy(l, candidates, budget).chosen == [] {
      GreedyIsMaximal(l, candidates, budget);
    }
  }

  lemma {:induction false} AllBarredNothingChosen(l: Limits, candidates: seq<Entry>, budget: Option<int>)
    requires forall e :: e in candidates ==> l.slots <= 0 || Barred(l, Pick([], budget, 0), e)
    ensures Greedy(l, candidates, budget) == Pick([], budget, 0)
  {
    if candidates != [] {
      AllBarredNothingChosen(l, candidates[..|candidates| - 1], budget);
      assert candidates[|candidates| - 1] in candidates;
    }
  }

  lemma OversizedRequestIsNotAdmitted(a: Args, blocks: nat, s: State, e: Entry, i: Input)
    requires a.poolSize > 0 && WithinBounds(a, blocks, s)
    requires s.running == [] && s.backlog == [e] && IsLong(a.longThreshold, e)
    requires i.fetch.Full? ==> Plausible(i.fetch.stats, blocks)
    requires var view := SignalsOf(a, s, i).view;
             view.blockSize.Some? ==> KvBlocks(e.prefill, view.blockSize.value) > blocks
    ensures Round(a, s, i).backlog == [e] && Round(a, s, i).running == []
  {
    var g, c := SignalsOf(a, s, i), Controlled(a, s, i);
    RoundAdmitsExactlyWhen(a, s, i);
    RefreshStaysPlausible(a, s.kv, i.now, i.fetch, blocks);
    ViewStaysPlausible(a, c.kv.cached, blocks);
    TailBudgetFits(a, blocks);
    assert Remaining([], Selection(a, c, g).chosen) == [];
    assert [e][..0] == [];
  }

  /** With the reported block size, the entry needs more blocks than the device has. */
  ghost predicate TooBig(stats: KvStats, e: Entry, blocks: nat) {
    stats.blockSize.Some? ==> KvBlocks(e.prefill, stats.blockSize.value) > blocks
  }

  ghost predicate TooBigInCache(kv: KvCache, e: Entry, blocks: nat) {
    && (kv.cached.Some? ==> TooBig(kv.cached.value, e, blocks))
    && (kv.lastFull.Some? ==> TooBig(kv.lastFull.value, e, blocks))
  }

  ghost predicate ReportsTooBig(inputs: seq<Input>, e: Entry, blocks: nat) {
    forall i <- inputs :: i.fetch.Full? ==> Plausible(i.fetch.stats, blocks) && TooBig(i.fetch.stats, e, blocks)
  }

  function Rounds(inputs: seq<Input>): (steps: seq<Step>)
    ensures |steps| == |inputs| && forall k :: 0 <= k < |inputs| ==> steps[k] == Admit(inputs[k])
  {
    seq(|inputs|, k requires 0 <= k < |inputs| => Admit(inputs[k]))
  }

  lemma RefreshStaysTooBig(a: Args, kv: KvCache, now: real, fetch: Fetch, e: Entry, blocks: nat)
    requires TooBigInCache(kv, e, blocks) && (fetch.Full? ==> TooBig(fetch.stats, e, blocks))
    ensures TooBigInCache(Refreshed(a, kv, now, fetch), e, blocks)
  {
  }

  /** The request waits alone, and everything known of the device says that it is too big. */
  ghost predicate Stuck(a: Args, blocks: nat, s: State, e: Entry) {
    && WithinBounds(a, blocks, s) && TooBigInCache(s.kv, e, blocks)
    && s.running == [] && s.backlog == [e] && IsLong(a.longThreshold, e)
  }

  lemma StuckStays(a: Args, blocks: nat, s: State, e: Entry, i: Input)
    requires a.poolSize > 0 && Stuck(a, blocks, s, e)
    requires i.fetch.Full? ==> Plausible(i.fetch.stats, blocks) && TooBig(i.fetch.stats, e, blocks)
    ensures Stuck(a, blocks, Round(a, s, i), e)
  {
    RefreshStaysTooBig(a, s.kv, i.now, i.fetch, e, blocks);
    OversizedRequestIsNotAdmitted(a, blocks, s, e, i);
    RoundKeepsBounds(a, blocks, s, i);
  }

  lemma FirstRoundOf(a: Args, s: State, inputs: seq<Input>)
    requires inputs != []
    ensures Execute(a, s, Rounds(inputs)) == Execute(a, Round(a, s, inputs[0]), Rounds(inputs[1..]))
  {
    assert Rounds(inputs)[1..] == Rounds(inputs[1..]);
  }

  /**
   The queue can wait forever: a lone long request larger than the device stays in the backlog over
   any number of rounds, whatever the clock, the tool statistics and the plausible telemetry say.
   */
  lemma {:induction false} OversizedRequestIsNeverAdmitted(a: Args, blocks: nat, s: State, e: Entry, inputs: seq<Input>)
    requires a.poolSize > 0 && Stuck(a, blocks, s, e) && ReportsTooBig(inputs, e, blocks)
    ensures Stuck(a, blocks, Execute(a, s, Rounds(inputs)), e)
    decreases |inputs|
  {
    if inputs != [] {
      assert inputs[0] in inputs;
      StuckStays(a, blocks, s, e, inputs[0]);
      FirstRoundOf(a, s, inputs);
      OversizedRequestIsNeverAdmitted(a, blocks, Round(a, s, inputs[0]), e, inputs[1..]);
    }
  }

  lemma {:induction false} RoundsAreARun(a: Args, blocks: nat, s: State, e: Entry, inputs: seq<Input>)
    requires ReportsTooBig(inputs, e, blocks)
    ensures IsRun(a, blocks, s, Rounds(inputs))
    decreases |inputs|
  {
    if inputs != [] {
      assert inputs[0] in inputs;
      RoundsAreARun(a, blocks, Round(a, s, inputs[0]), e, inputs[1..]);
      assert Rounds(inputs)[1..] == Rounds(inputs[1..]);
    }
  }

  /** From the start: one such request is emitted, and no later round of the run admits it. */
  lemma OversizedRequestWaitsFromTheStart(a: Args, blocks: nat, prefill: int, inputs: seq<Input>)
    requires a.poolSize > 0 && IsLong(a.longThreshold, Entry(0, prefill))
    requires ReportsTooBig(inputs, Entry(0, prefill), blocks)
    ensures var steps := [Emit(prefill)] + Rounds(inputs);
            && IsRun(a, blocks, InitialState(a), steps)
            && Execute(a, InitialState(a), steps).backlog == [Entry(0, prefill)]
            && Execute(a, InitialState(a), steps).running == []
  {
    var s := Emitted(InitialState(a), prefill);
    assert s.backlog == [Entry(0, prefill)];
    RoundsAreARun(a, blocks, s, Entry(0, prefill), inputs);
    OversizedRequestIsNeverAdmitted(a, blocks, s, Entry(0, prefill), inputs);
    assert ([Emit(prefill)] + Rounds(inputs))[1..] == Rounds(inputs);
  }

  // ----- Priority -----

  /** In the short-first order a long request is admitted only together with every waiting short one. */
  lemma LongsWaitForAllShorts(a: Args, s: State, g: Signals, long: Entry, short: Entry)
    requires IncreasingEntries(s.backlog) && OrderOf(a, s, g) == ShortFirst
    requires long in s.backlog && IsLong(a.longThreshold, long)
    requires short in s.backlog && !IsLong(a.longThreshold, short)
    requires IsChosen(Selection(a, s, g).chosen, long.index)
    ensures IsChosen(Selection(a, s, g).chosen, short.index)
  {
    BetterShortsComeFirst(a, s, g, short, long);
  }

  /** Among the short ones, those admitted are the smallest by (prefill, emission order). */
  lemma SmallestShortsAreAdmitted(a: Args, s: State, g: Signals, e: Entry, f: Entry)
    requires IncreasingEntries(s.backlog) && OrderOf(a, s, g) == ShortFirst
    requires e in s.backlog && !IsLong(a.longThreshold, e) && !IsChosen(Selection(a, s, g).chosen, e.index)
    requires f in s.backlog && !IsLong(a.longThreshold, f) && IsChosen(Selection(a, s, g).chosen, f.index)
    ensures f.prefill < e.prefill || (f.prefill == e.prefill && f.index < e.index)
  {
    if !(f.prefill < e.prefill || (f.prefill == e.prefill && f.index < e.index)) {
      BetterShortsComeFirst(a, s, g, e, f);
    }
  }

  lemma BetterShortsComeFirst(a: Args, s: State, g: Signals, e: Entry, f: Entry)
    requires IncreasingEntries(s.backlog) && e in s.backlog && f in s.backlog && e != f
    requires !IsLong(a.longThreshold, e)
    requires KeyLe(KeyOf(OrderOf(a, s, g), a.longThreshold, e), KeyOf(OrderOf(a, s, g), a.longThreshold, f))
    requires IsChosen(Selection(a, s, g).chosen, f.index)
    ensures IsChosen(Selection(a, s, g).chosen, e.index)
  {
    var candidates := Candidates(a, s, g);
    SortedSorts(OrderOf(a, s, g), a.longThreshold, s.backlog);
    SortedKeepsEntries(OrderOf(a, s, g), a.longThreshold, s.backlog);
    var i :| 0 <= i < |candidates| && candidates[i] == e;
    var j :| 0 <= j < |candidates| && candidates[j] == f;
    // Keys end in the index, so two different entries never tie.
    assert i != j && candidates[i].index != candidates[j].index;
    assert j < i ==> KeyLe(KeyOf(OrderOf(a, s, g), a.longThreshold, f), KeyOf(OrderOf(a, s, g), a.longThreshold, e));
    EarlierShortsComeFirst(LimitsOf(a, s, g), candidates, BudgetLeft(a, s, g), i, j);
  }

  /** In tail mode and under low pressure, submissions are in emission order. */
  lemma ArrivalOrderIsKept(a: Args, s: State, g: Signals)
    requires IncreasingEntries(s.backlog) && OrderOf(a, s, g) == BySeq
    ensures IncreasingJobs(Selection(a, s, g).chosen)
  {
    var candidates := Candidates(a, s, g);
    SortedSorts(BySeq, a.longThreshold, s.backlog);
    SortedKeepsEntries(BySeq, a.longThreshold, s.backlog);
    forall i, j | 0 <= i < j < |candidates|
      ensures candidates[i].index < candidates[j].index
    {
      assert KeyLe(KeyOf(BySeq, a.longThreshold, candidates[i]), KeyOf(BySeq, a.longThreshold, candidates[j]));
    }
    IncreasingCandidatesIncreasingChoice(LimitsOf(a, s, g), candidates, BudgetLeft(a, s, g));
  }

  // ----- The round as the code runs it -----

  lemma {:induction false} NothingChosenNothingMoves(backlog: seq<Entry>)
    ensures Remaining(backlog, []) == backlog
  {
    if backlog != [] {
      NothingChosenNothingMoves(backlog[..|backlog| - 1]);
    }
  }

  /** If slots remain after the first pass, the tail-fill pass leaves the selection as it is. */
  lemma TailFillChangesNothing(a: Args, s: State, g: Signals, fill: seq<Entry>)
    requires TailMode(a, s, g) && g.view.blockSize.Some?
    requires Selection(a, s, g).budget.Some? && |Selection(a, s, g).chosen| < Slots(a, s, g)
    requires forall e :: e in fill ==> e in Candidates(a, s, g) && !IsChosen(Selection(a, s, g).chosen, e.index)
    ensures Filled(LimitsOf(a, s, g), Selection(a, s, g), fill, g.view.blockSize.value) == Selection(a, s, g)
  {
    var l, p := LimitsOf(a, s, g), Selection(a, s, g);
    GreedyIsMaximal(l, Candidates(a, s, g), BudgetLeft(a, s, g));
    FillingChangesNothing(l, p, fill, g.view.blockSize.value);
  }

  method ProcessSubmissions(a: Args, s0: State, i: Input) returns (s: State)
    requires IncreasingEntries(s0.backlog)
    ensures s == Round(a, s0, i)
  {
    if s0.backlog == [] {
      return s0;
    }
    var g := SignalsOf(a, s0, i);
    s := Controlled(a, s0, i);
    var p := Select(a, s, g);
    if p == [] {
      NothingChosenNothingMoves(s.backlog);
      assert s.running + [] == s.running;
      return;
    }
    var kept := KeepWaiting(s.backlog, p);
    s := s.(backlog := kept, running := s.running + p);
  }

  method KeepWaiting(backlog: seq<Entry>, chosen: seq<Job>) returns (kept: seq<Entry>)
    ensures kept == Remaining(backlog, chosen)
  {
    kept := [];
    for k := 0 to |backlog|
      invariant kept == Remaining(backlog[..k], chosen)
    {
      assert backlog[..k + 1][..k] == backlog[..k];
      if !IsChosen(chosen, backlog[k].index) {
        kept := kept + [backlog[k]];
      }
    }
    assert backlog[..|backlog|] == backlog;
  }

  method Select(a: Args, s: State, g: Signals) returns (chosen: seq<Job>)
    requires IncreasingEntries(s.backlog)
    ensures chosen == Selection(a, s, g).chosen
  {
    var l, budget := LimitsOf(a, s, g), BudgetLeft(a, s, g);
    if FreeSlots(s, g) <= 0 || l.slots <= 0 {
      GreedyStaysWithinLimits(l, Candidates(a, s, g), budget);
      return [];
    }
    var candidates := Sorted(OrderOf(a, s, g), a.longThreshold, s.backlog);
    var p := GreedyPass(l, candidates, budget);
    if TailMode(a, s, g) && |p.chosen| < l.slots && p.budget.Some? && p.budget.value > 0 && l.blockSize.Some? {
      var fill := LeftForTail(a, l.blockSize.value, candidates, p.chosen);
      TailFillChangesNothing(a, s, g, fill);
      p := TailFill(l, p, fill, l.blockSize.value);
    }
    chosen := p.chosen;
  }

  method LeftForTail(a: Args, blockSize: int, candidates: seq<Entry>, chosen: seq<Job>) returns (fill: seq<Entry>)
    ensures SortedBy(CheapestFirst(blockSize), a.longThreshold, fill)
    ensures forall e :: e in fill <==> e in candidates && !IsChosen(chosen, e.index)
  {
    var left := KeepWaiting(candidates, chosen);
    fill := Sorted(CheapestFirst(blockSize), a.longThreshold, left);
    SortedSorts(CheapestFirst(blockSize), a.longThreshold, left);
    RemainingMembers(candidates, chosen);
    assert forall e :: e in fill <==> e in multiset(fill);
  }
}
