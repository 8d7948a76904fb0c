/** Which backlog entries one MARS admission round picks. */
module MarsSelection {
  import opened Sequences
  import opened MarsWindow

  /** A queued request; its index is its emission order and stands for its identifier. */
  datatype Entry = Entry(index: nat, prefill: int)

  /** A running request, with the KV blocks charged to it (0 when none are). */
  datatype Job = Job(id: nat, isLong: bool, blocks: nat)

  predicate IsLong(threshold: int, e: Entry) {
    threshold > 0 && e.prefill > threshold
  }

  function KvBlocks(tokens: int, blockSize: int): nat {
    if blockSize <= 0 then 0 else Max(0, Ceil(Max(0, tokens) as real / blockSize as real))
  }

  /** The charge is the least number of blocks that holds the tokens. */
  lemma BlocksJustFit(tokens: int, blockSize: int)
    requires blockSize > 0
    ensures var b := KvBlocks(tokens, blockSize);
            && Times(b as real, blockSize as real) >= tokens as real
            && (b > 0 ==> Times((b - 1) as real, blockSize as real) < tokens as real)
  {
    var n, d := Max(0, tokens) as real, blockSize as real;
    var q, b := n / d, Ceil(n / d);
    assert Times(q, d) == n;
    QuotientIsMonotone(0.0, n, d);
    TimesIsMonotone(q, b as real, d);
    if b > 0 {
      var gap := q - (b - 1) as real;
      assert gap > 0.0 && Times(gap, d) > 0.0;
      assert Times(gap, d) == Times(q, d) - Times((b - 1) as real, d);
    }
  }

  // ----- Candidate orders -----

  datatype Order = BySeq | LongestFirst | ShortFirst | CheapestFirst(blockSize: int)

  datatype Key = Key(rank: int, size: int, index: int)

  function KeyOf(order: Order, threshold: int, e: Entry): Key {
    match order
    case BySeq => Key(0, 0, e.index)
    case LongestFirst => Key(0, -e.prefill, e.index)
    case ShortFirst => Key(if IsLong(threshold, e) then 1 else 0, e.prefill, e.index)
    case CheapestFirst(blockSize) => Key(0, KvBlocks(e.prefill, blockSize), e.index)
  }

  predicate KeyLe(x: Key, y: Key) {
    x.rank < y.rank || (x.rank == y.rank && (x.size < y.size || (x.size == y.size && x.index <= y.index)))
  }

  ghost predicate SortedBy(order: Order, threshold: int, s: seq<Entry>) {
    forall i, j :: 0 <= i < j < |s| ==> KeyLe(KeyOf(order, threshold, s[i]), KeyOf(order, threshold, s[j]))
  }

  function Insert(order: Order, threshold: int, e: Entry, s: seq<Entry>): (r: seq<Entry>)
    ensures multiset(r) == multiset(s) + multiset{e}
  {
    if s == [] then [e]
    else if KeyLe(KeyOf(order, threshold, e), KeyOf(order, threshold, s[0])) then [e] + s
    else
      assert s == [s[0]] + s[1..];
      [s[0]] + Insert(order, threshold, e, s[1..])
  }

  /** Python's `sorted` with the order's key. */
  function Sorted(order: Order, threshold: int, s: seq<Entry>): (r: seq<Entry>)
    ensures multiset(r) == multiset(s)
  {
    if s == [] then []
    else
      assert s == s[..|s| - 1] + [s[|s| - 1]];
      Insert(order, threshold, s[|s| - 1], Sorted(order, threshold, s[..|s| - 1]))
  }

  lemma {:induction false} InsertSorts(order: Order, threshold: int, e: Entry, s: seq<Entry>)
    requires SortedBy(order, threshold, s)
    ensures SortedBy(order, threshold, Insert(order, threshold, e, s))
  {
    if s != [] && !KeyLe(KeyOf(order, threshold, e), KeyOf(order, threshold, s[0])) {
      InsertSorts(order, threshold, e, s[1..]);
      var rest := Insert(order, threshold, e, s[1..]);
      forall x | x in rest
        ensures KeyLe(KeyOf(order, threshold, s[0]), KeyOf(order, threshold, x))
      {
        assert x in multiset(rest);
        assert x == e || x in s[1..];
      }
    }
  }

  lemma {:induction false} SortedSorts(order: Order, threshold: int, s: seq<Entry>)
    ensures SortedBy(order, threshold, Sorted(order, threshold, s))
  {
    if s != [] {
      SortedSorts(order, threshold, s[..|s| - 1]);
      InsertSorts(order, threshold, s[|s| - 1], Sorted(order, threshold, s[..|s| - 1]));
    }
  }

  /** No two entries are the same request. */
  ghost predicate DistinctEntries(s: seq<Entry>) {
    forall i, j :: 0 <= i < j < |s| ==> s[i].index != s[j].index
  }

  lemma SortedKeepsEntries(order: Order, threshold: int, s: seq<Entry>)
    requires DistinctEntries(s)
    ensures DistinctEntries(Sorted(order, threshold, s))
    ensures forall e :: e in Sorted(order, threshold, s) <==> e in s
  {
    var r := Sorted(order, threshold, s);
    forall e
      ensures e in r <==> e in s
    {
      assert e in r <==> e in multiset(r);
    }
    forall i, j | 0 <= i < j < |r|
      ensures r[i].index != r[j].index
    {
      assert r[i] in s && r[j] in s;
      TwoCopies(r, i, j);
      OneCopy(s, r[i]);
    }
  }

  lemma TwoCopies(r: seq<Entry>, i: nat, j: nat)
    requires i < j < |r|
    ensures r[i] == r[j] ==> multiset(r)[r[i]] >= 2
  {
    assert r == r[..i] + [r[i]] + r[i + 1..j] + [r[j]] + r[j + 1..];
  }

  lemma OneCopy(s: seq<Entry>, e: Entry)
    requires DistinctEntries(s) && e in s
    ensures multiset(s)[e] == 1
  {
    var k :| 0 <= k < |s| && s[k] == e;
    assert s == s[..k] + [s[k]] + s[k + 1..];
    assert e !in s[..k] && e !in s[k + 1..];
  }

  // ----- The greedy pass -----

  datatype Limits = Limits(
    threshold: int, reliable: bool, blockSize: Option<int>,
    longInFlight: nat, longCap: int, slots: int)

  datatype Pick = Pick(chosen: seq<Job>, budget: Option<int>, longs: nat)

  function Cost(l: Limits, e: Entry): Option<nat> {
    if IsLong(l.threshold, e) && l.blockSize.Some? then Some(KvBlocks(e.prefill, l.blockSize.value)) else None
  }

  /** What keeps a long entry out while slots remain. */
  predicate Barred(l: Limits, p: Pick, e: Entry) {
    && IsLong(l.threshold, e)
    && (|| !l.reliable
        || l.longInFlight + p.longs >= l.longCap
        || (p.budget.Some? && Cost(l, e).Some? && Cost(l, e).value > p.budget.value))
  }

  function Take(l: Limits, p: Pick, e: Entry): Pick {
    var cost := Cost(l, e);
    Pick(p.chosen + [Job(e.index, IsLong(l.threshold, e), if cost.Some? then cost.value else 0)],
         if p.budget.Some? && cost.Some? then Some(Max(0, p.budget.value - cost.value)) else p.budget,
         p.longs + if IsLong(l.threshold, e) then 1 else 0)
  }

  function Consider(l: Limits, p: Pick, e: Entry): Pick {
    if |p.chosen| >= l.slots || Barred(l, p, e) then p else Take(l, p, e)
  }

  function Greedy(l: Limits, candidates: seq<Entry>, budget: Option<int>): Pick {
    if candidates == [] then Pick([], budget, 0)
    else Consider(l, Greedy(l, candidates[..|candidates| - 1], budget), candidates[|candidates| - 1])
  }

  predicate IsChosen(chosen: seq<Job>, index: nat) {
    exists k :: 0 <= k < |chosen| && chosen[k].id == index
  }

  function TotalBlocks(jobs: seq<Job>): nat {
    if jobs == [] then 0 else TotalBlocks(jobs[..|jobs| - 1]) + jobs[|jobs| - 1].blocks
  }

  function LongCount(jobs: seq<Job>): nat {
    if jobs == [] then 0 else LongCount(jobs[..|jobs| - 1]) + if jobs[|jobs| - 1].isLong then 1 else 0
  }

  lemma {:induction false} Totals(a: seq<Job>, b: seq<Job>)
    ensures TotalBlocks(a + b) == TotalBlocks(a) + TotalBlocks(b)
    ensures LongCount(a + b) == LongCount(a) + LongCount(b)
  {
    if b == [] {
      assert a + b == a;
    } else {
      Totals(a, b[..|b| - 1]);
      assert (a + b)[..|a + b| - 1] == a + b[..|b| - 1];
    }
  }

  lemma TakeAddsUp(l: Limits, p: Pick, e: Entry)
    ensures var job := Take(l, p, e).chosen[|p.chosen|];
            && TotalBlocks(Take(l, p, e).chosen) == TotalBlocks(p.chosen) + job.blocks
            && LongCount(Take(l, p, e).chosen) == LongCount(p.chosen) + if job.isLong then 1 else 0
  {
    var q := Take(l, p, e);
    assert q.chosen[..|q.chosen| - 1] == p.chosen;
  }

  /** Budget, slots and the long cap, over any candidate order. */
  lemma {:induction false} GreedyStaysWithinLimits(l: Limits, candidates: seq<Entry>, budget: Option<int>)
    requires budget.Some? ==> budget.value >= 0
    ensures var p := Greedy(l, candidates, budget);
            && |p.chosen| <= Max(0, l.slots)
            && p.longs == LongCount(p.chosen)
            && (p.longs > 0 ==> l.reliable && l.longInFlight + p.longs <= l.longCap)
            && (budget.Some? ==> p.budget.Some? && p.budget.value >= 0
                                 && TotalBlocks(p.chosen) + p.budget.value == budget.value)
            && (p.longs == 0 ==> TotalBlocks(p.chosen) == 0)
            && (budget.None? ==> p.budget.None?)
  {
    if candidates != [] {
      var init, e := candidates[..|candidates| - 1], candidates[|candidates| - 1];
      GreedyStaysWithinLimits(l, init, budget);
      TakeAddsUp(l, Greedy(l, init, budget), e);
    }
  }

  /** Once an entry is barred, or the slots are gone, later candidates do not change that. */
  lemma ConsiderOnlyTightens(l: Limits, p: Pick, e: Entry, f: Entry)
    requires p.budget.Some? ==> p.budget.value >= 0
    ensures Barred(l, p, f) ==> Barred(l, Consider(l, p, e), f)
    ensures |p.chosen| <= |Consider(l, p, e).chosen| && p.chosen <= Consider(l, p, e).chosen
  {
  }

  /** The first pass is maximal, whatever the order: a free slot means every entry left out is barred. */
  lemma {:induction false} GreedyIsMaximal(l: Limits, candidates: seq<Entry>, budget: Option<int>)
    requires budget.Some? ==> budget.value >= 0
    requires |Greedy(l, candidates, budget).chosen| < l.slots
    ensures forall e :: e in candidates ==>
              var p := Greedy(l, candidates, budget);
              IsChosen(p.chosen, e.index) || Barred(l, p, e)
  {
    if candidates != [] {
      var init, last := candidates[..|candidates| - 1], candidates[|candidates| - 1];
      var q, p := Greedy(l, init, budget), Greedy(l, candidates, budget);
      GreedyStaysWithinLimits(l, init, budget);
      ConsiderOnlyTightens(l, q, last, last);
      GreedyIsMaximal(l, init, budget);
      forall e | e in candidates
        ensures IsChosen(p.chosen, e.index) || Barred(l, p, e)
      {
        ConsiderOnlyTightens(l, q, last, e);
        if e in init {
          if IsChosen(q.chosen, e.index) {
            var k :| 0 <= k < |q.chosen| && q.chosen[k].id == e.index;
            assert p.chosen[k].id == e.index;
          }
        } else {
          assert e == last;
          if !Barred(l, q, last) {
            assert p.chosen[|q.chosen|].id == last.index;
          }
        }
      }
    }
  }

  ghost predicate ChargedAs(l: Limits, e: Entry, job: Job) {
    && e.index == job.id && job.isLong == IsLong(l.threshold, e)
    && job.blocks == if IsLong(l.threshold, e) && l.blockSize.Some? then KvBlocks(e.prefill, l.blockSize.value) else 0
  }

  /** Blocks are charged to long requests only; a short one is charged nothing, however large the budget is. */
  lemma {:induction false} OnlyLongsAreCharged(l: Limits, candidates: seq<Entry>, budget: Option<int>)
    ensures forall job <- Greedy(l, candidates, budget).chosen :: exists e :: e in candidates && ChargedAs(l, e, job)
  {
    if candidates != [] {
      var init, last := candidates[..|candidates| - 1], candidates[|candidates| - 1];
      OnlyLongsAreCharged(l, init, budget);
      forall job | job in Greedy(l, candidates, budget).chosen
        ensures exists e :: e in candidates && ChargedAs(l, e, job)
      {
        if job in Greedy(l, init, budget).chosen {
          var e :| e in init && ChargedAs(l, e, job);
          assert e in candidates;
        } else {
          assert last in candidates && ChargedAs(l, last, job);
        }
      }
    }
  }

  ghost predicate FromCandidate(l: Limits, candidates: seq<Entry>, job: Job) {
    exists e :: e in candidates && e.index == job.id && IsLong(l.threshold, e) == job.isLong
  }

  ghost predicate DistinctJobs(jobs: seq<Job>) {
    forall i, j :: 0 <= i < j < |jobs| ==> jobs[i].id != jobs[j].id
  }

  /** Only candidates are chosen, each at most once. */
  lemma {:induction false} ChosenAreCandidates(l: Limits, candidates: seq<Entry>, budget: Option<int>)
    requires DistinctEntries(candidates)
    ensures forall job :: job in Greedy(l, candidates, budget).chosen ==> FromCandidate(l, candidates, job)
    ensures DistinctJobs(Greedy(l, candidates, budget).chosen)
  {
    if candidates != [] {
      var init, last := candidates[..|candidates| - 1], candidates[|candidates| - 1];
      ChosenAreCandidates(l, init, budget);
      var q, p := Greedy(l, init, budget), Greedy(l, candidates, budget);
      forall job | job in p.chosen
        ensures FromCandidate(l, candidates, job)
      {
        if job in q.chosen {
          var e :| e in init && e.index == job.id && IsLong(l.threshold, e) == job.isLong;
          assert e in candidates;
        } else {
          assert last in candidates && last.index == job.id;
        }
      }
      assert candidates == init + [last];
      LastIsNew(l, init, last, q.chosen);
    }
  }

  lemma LastIsNew(l: Limits, init: seq<Entry>, last: Entry, chosen: seq<Job>)
    requires DistinctEntries(init + [last])
    requires forall job :: job in chosen ==> FromCandidate(l, init, job)
    ensures !IsChosen(chosen, last.index)
  {
    forall e | e in init
      ensures e.index != last.index
    {
      var m :| 0 <= m < |init| && init[m] == e;
      assert (init + [last])[m] == e && (init + [last])[|init|] == last;
    }
    forall k | 0 <= k < |chosen|
      ensures chosen[k].id != last.index
    {
      assert FromCandidate(l, init, chosen[k]) by { assert chosen[k] in chosen; }
    }
  }

  /** A candidate that is never barred is chosen before any later candidate is. */
  lemma {:induction false} EarlierShortsComeFirst(l: Limits, candidates: seq<Entry>, budget: Option<int>, i: nat,
      j: nat)
    requires DistinctEntries(candidates)
    requires i < j < |candidates| && !IsLong(l.threshold, candidates[i])
    requires IsChosen(Greedy(l, candidates, budget).chosen, candidates[j].index)
    ensures IsChosen(Greedy(l, candidates, budget).chosen, candidates[i].index)
  {
    var n := |candidates| - 1;
    var init := candidates[..n];
    var q, p := Greedy(l, init, budget), Greedy(l, candidates, budget);
    ChosenAreCandidates(l, init, budget);
    assert candidates == init + [candidates[n]];
    LastIsNew(l, init, candidates[n], q.chosen);
    if j < n {
      var k :| 0 <= k < |p.chosen| && p.chosen[k].id == candidates[j].index;
      assert q.chosen[k].id == init[j].index;
      EarlierShortsComeFirst(l, init, budget, i, j);
    } else {
      ShortsFillFreeSlots(l, init, budget, i);
    }
    var m :| 0 <= m < |q.chosen| && q.chosen[m].id == init[i].index;
    assert p.chosen[m].id == candidates[i].index;
  }

  lemma {:induction false} ShortsFillFreeSlots(l: Limits, candidates: seq<Entry>, budget: Option<int>, i: nat)
    requires i < |candidates| && !IsLong(l.threshold, candidates[i])
    requires |Greedy(l, candidates, budget).chosen| < l.slots
    ensures IsChosen(Greedy(l, candidates, budget).chosen, candidates[i].index)
  {
    var n := |candidates| - 1;
    var init, last := candidates[..n], candidates[n];
    var q, p := Greedy(l, init, budget), Greedy(l, candidates, budget);
    assert q.chosen <= p.chosen;
    if i < n {
      ShortsFillFreeSlots(l, init, budget, i);
      var m :| 0 <= m < |q.chosen| && q.chosen[m].id == candidates[i].index;
      assert p.chosen[m].id == candidates[i].index;
    } else {
      assert p.chosen[|q.chosen|].id == last.index;
    }
  }

  ghost predicate IncreasingJobs(jobs: seq<Job>) {
    forall i, j :: 0 <= i < j < |jobs| ==> jobs[i].id < jobs[j].id
  }

  ghost predicate IncreasingEntries(s: seq<Entry>) {
    forall i, j :: 0 <= i < j < |s| ==> s[i].index < s[j].index
  }

  /** In increasing order of index, the submissions are in increasing order too. */
  lemma {:induction false} IncreasingCandidatesIncreasingChoice(l: Limits, candidates: seq<Entry>, budget: Option<int>)
    requires IncreasingEntries(candidates)
    ensures IncreasingJobs(Greedy(l, candidates, budget).chosen)
  {
    if candidates != [] {
      var init, last := candidates[..|candidates| - 1], candidates[|candidates| - 1];
      IncreasingCandidatesIncreasingChoice(l, init, budget);
      ChosenAreCandidates(l, init, budget);
      var q := Greedy(l, init, budget);
      forall k | 0 <= k < |q.chosen|
        ensures q.chosen[k].id < last.index
      {
        assert q.chosen[k] in q.chosen;
        var e :| e in init && e.index == q.chosen[k].id;
        var m :| 0 <= m < |init| && init[m] == e;
        assert candidates[m].index < last.index;
      }
    }
  }

  // ----- The loops -----

  method GreedyPass(l: Limits, candidates: seq<Entry>, budget: Option<int>) returns (p: Pick)
    requires budget.Some? ==> budget.value >= 0
    ensures p == Greedy(l, candidates, budget)
  {
    p := Pick([], budget, 0);
    var i := 0;
    while i < |candidates|
      invariant 0 <= i <= |candidates|
      invariant p == Greedy(l, candidates[..i], budget)
    {
      var e := candidates[i];
      assert candidates[..i + 1][..i] == candidates[..i];
      if |p.chosen| >= l.slots {
        FullStaysFull(l, candidates, budget, i);
        return;
      }
      i := i + 1;
      var isLong := IsLong(l.threshold, e);
      if isLong {
        if !l.reliable {
          continue;
        }
        if l.longInFlight + p.longs >= l.longCap {
          continue;
        }
      }
      var cost := Cost(l, e);
      var left := p.budget;
      if left.Some? && cost.Some? {
        if cost.value > left.value {
          continue;
        }
        left := Some(Max(0, left.value - cost.value));
      }
      var job := Job(e.index, isLong, if cost.Some? then cost.value else 0);
      p := Pick(p.chosen + [job], left, p.longs + if isLong then 1 else 0);
    }
    assert candidates[..|candidates|] == candidates;
  }

  lemma {:induction false} FullStaysFull(l: Limits, candidates: seq<Entry>, budget: Option<int>, i: nat)
    requires i <= |candidates|
    requires |Greedy(l, candidates[..i], budget).chosen| >= l.slots
    ensures Greedy(l, candidates, budget) == Greedy(l, candidates[..i], budget)
  {
    if i == |candidates| {
      assert candidates[..i] == candidates;
    } else {
      var init := candidates[..|candidates| - 1];
      assert init[..i] == candidates[..i];
      FullStaysFull(l, init, budget, i);
    }
  }

  // ----- The tail-fill pass -----

  predicate FillIsOver(l: Limits, p: Pick) {
    |p.chosen| >= l.slots || l.longInFlight + p.longs >= l.longCap
  }

  function FillOne(l: Limits, p: Pick, e: Entry, blockSize: int): Pick {
    var cost := KvBlocks(e.prefill, blockSize);
    if FillIsOver(l, p) || p.budget.None? || cost > p.budget.value then p
    else Pick(p.chosen + [Job(e.index, true, cost)], Some(Max(0, p.budget.value - cost)), p.longs + 1)
  }

  function Filled(l: Limits, p: Pick, fill: seq<Entry>, blockSize: int): Pick {
    if fill == [] then p
    else FillOne(l, Filled(l, p, fill[..|fill| - 1], blockSize), fill[|fill| - 1], blockSize)
  }

  /** After a maximal first pass the tail-fill pass adds nothing. */
  lemma {:induction false} FillingChangesNothing(l: Limits, p: Pick, fill: seq<Entry>, blockSize: int)
    requires p.budget.Some? && l.blockSize == Some(blockSize) && l.reliable
    requires forall e :: e in fill ==> Barred(l, p, e)
    ensures Filled(l, p, fill, blockSize) == p
  {
    if fill != [] {
      FillingChangesNothing(l, p, fill[..|fill| - 1], blockSize);
      assert Barred(l, p, fill[|fill| - 1]);
    }
  }

  lemma {:induction false} FillStaysOver(l: Limits, p: Pick, fill: seq<Entry>, blockSize: int, i: nat)
    requires i <= |fill| && FillIsOver(l, Filled(l, p, fill[..i], blockSize))
    ensures Filled(l, p, fill, blockSize) == Filled(l, p, fill[..i], blockSize)
  {
    if i == |fill| {
      assert fill[..i] == fill;
    } else {
      assert fill[..|fill| - 1][..i] == fill[..i];
      FillStaysOver(l, p, fill[..|fill| - 1], blockSize, i);
    }
  }

  method TailFill(l: Limits, p0: Pick, fill: seq<Entry>, blockSize: int) returns (p: Pick)
    requires p0.budget.Some?
    ensures p == Filled(l, p0, fill, blockSize)
  {
    p := p0;
    var i := 0;
    while i < |fill|
      invariant 0 <= i <= |fill|
      invariant p == Filled(l, p0, fill[..i], blockSize) && p.budget.Some?
    {
      var e := fill[i];
      var cost := KvBlocks(e.prefill, blockSize);
      assert fill[..i + 1][..i] == fill[..i];
      if |p.chosen| >= l.slots || l.longInFlight + p.longs >= l.longCap {
        FillStaysOver(l, p0, fill, blockSize, i);
        return;
      }
      i := i + 1;
      if cost > p.budget.value {
        continue;
      }
      p := Pick(p.chosen + [Job(e.index, true, cost)], Some(Max(0, p.budget.value - cost)), p.longs + 1);
    }
    assert fill[..|fill|] == fill;
  }
}
