/**
 The control side of the MARS controller: when the window moves, when pressure begins and ends,
 how far the caps reach, and how long a telemetry report is trusted.
 */
module MarsControl {
  import opened Sequences
  import opened MarsWindow
  import opened Mars

  // ----- When the window moves -----

  /** No overload on either side, the tool side idle enough, reliable telemetry with low usage and free blocks. */
  predicate Relaxed(a: Args, g: Signals) {
    && !g.cpuOverloaded && !g.kvOverloaded && g.cpuHealthy && g.view.reliable
    && (g.view.usage.Some? ==> g.view.usage.value <= UsageLow(a))
    && (g.view.budget.Some? ==> g.view.budget.value > 0)
  }

  predicate Pressed(g: Signals) {
    g.cpuOverloaded || g.kvOverloaded
  }

  /** The window is within the caps, which are at least the smallest window. */
  predicate Settled(a: Args, limit: int, g: Signals) {
    WindowMin(a) <= limit <= a.poolSize && limit <= g.cpuCap && limit <= g.kvCap
  }

  /** The largest whole number within the reduced window. */
  ghost predicate IsReduced(limit: int, d: real, n: int) {
    n as real <= Times(limit as real, d) && Times(limit as real, d) < (n + 1) as real
  }

  /**
   Within its caps, the window grows exactly when relaxed, by the increment up to the caps; under pressure
   it becomes the reduced one or the smallest; and otherwise it stays.
   */
  lemma TickMovesLimitExactlyWhen(a: Args, limit: int, g: Signals)
    requires a.poolSize > 0 && a.windowInc >= 1 && 0.0 < a.decFactor < 1.0 && Settled(a, limit, g)
    ensures var next := NextLimit(a, limit, g); var top := Min(a.poolSize, Min(g.cpuCap, g.kvCap));
            && (next > limit <==> Relaxed(a, g) && limit < top)
            && (Relaxed(a, g) ==> next == Min(top, limit + a.windowInc))
            && (next < limit <==> Pressed(g) && limit > WindowMin(a))
            && (Pressed(g) ==> IsReduced(limit, a.decFactor, next) || next == WindowMin(a))
            && (Pressed(g) && next > WindowMin(a) ==> IsReduced(limit, a.decFactor, next))
  {
    var d := a.decFactor;
    assert Times(limit as real, d) == limit as real - Times(limit as real, 1.0 - d);
    assert Times(limit as real, 1.0 - d) > 0.0;
  }

  /** A window beyond a cap comes down to it on any tick, as far as the smallest window allows. */
  lemma CapsPullTheLimitDown(a: Args, limit: int, g: Signals)
    requires a.poolSize > 0
    ensures var next := NextLimit(a, limit, g);
            && next <= Max(WindowMin(a), g.cpuCap) && next <= Max(WindowMin(a), g.kvCap)
            && (!Pressed(g) && !Relaxed(a, g) && WindowMin(a) <= limit <= a.poolSize ==>
                  next == Max(WindowMin(a), Min(limit, Min(g.cpuCap, g.kvCap))))
  {
  }

  lemma RelaxedTickGrows(a: Args, limit: int, g: Signals)
    requires a.poolSize > 0 && a.windowInc >= 1 && WindowMin(a) <= limit <= a.poolSize
    requires Relaxed(a, g) && g.cpuCap >= a.poolSize && g.kvCap >= a.poolSize
    ensures NextLimit(a, limit, g) == Min(a.poolSize, limit + a.windowInc)
  {
  }

  lemma OneMoreIncrement(k: nat, inc: int)
    requires inc >= 1
    ensures (k + 1) * inc == k * inc + inc && k * inc >= 0
  {
  }

  /** k relaxed ticks under full caps recover k increments, up to the pool. */
  lemma {:induction false} RelaxedTicksRecover(a: Args, start: int, ticks: seq<Signals>)
    requires a.poolSize > 0 && a.windowInc >= 1 && WindowMin(a) <= start <= a.poolSize
    requires forall g <- ticks :: Relaxed(a, g) && g.cpuCap >= a.poolSize && g.kvCap >= a.poolSize
    ensures LimitAfter(a, start, ticks) == Min(a.poolSize, start + |ticks| * a.windowInc)
  {
    if ticks != [] {
      var k := |ticks| - 1;
      RelaxedTicksRecover(a, start, ticks[..k]);
      assert ticks[k] in ticks;
      OneMoreIncrement(k, a.windowInc);
      RelaxedTickGrows(a, LimitAfter(a, start, ticks[..k]), ticks[k]);
    }
  }

  /** The window moves only on a control tick, and two ticks are an interval apart. */
  lemma ControlIsPaced(a: Args, s: State, i: Input)
    ensures var c := Controlled(a, s, i);
            && (c.limit != s.limit || c.lastControl != s.lastControl ==>
                  c.lastControl == i.now && (s.lastControl > 0.0 ==> i.now - s.lastControl >= a.controlInterval))
            && (s.lastControl <= 0.0 || i.now - s.lastControl >= a.controlInterval ==>
                  c.lastControl == i.now && c.limit == NextLimit(a, s.limit, SignalsOf(a, s, i)))
  {
  }

  /** What a round reads: pressure with memory from the round before, the rest from this round's input. */
  lemma RoundReadsInput(a: Args, s: State, i: Input)
    requires s.backlog != []
    ensures var g, t := SignalsOf(a, s, i), Round(a, s, i);
            && t.kv == Refreshed(a, s.kv, i.now, i.fetch) && g.view == ReadKv(a, t.kv.cached)
            && t.cpuOverloaded == g.cpuOverloaded == CpuOverloaded(a, s.cpuOverloaded, i.cpu)
            && t.kvOverloaded == g.kvOverloaded == KvOverloaded(a, s.kvOverloaded, g.view)
            && g.cpuHealthy == CpuHealthy(a, i.cpu)
            && g.cpuCap == CpuCap(a, i.cpu) && g.kvCap == KvCap(a, g.view)
  {
  }

  // ----- When pressure begins and ends -----

  /** So many tools in flight for each worker, or so long a wait. */
  predicate CpuHigh(a: Args, cpu: Cpu) {
    || cpu.inflight as real >= Times(a.backlogHigh, Max(1, cpu.numWorkers) as real)
    || (cpu.emaWait.Some? && cpu.emaWait.value >= a.waitHigh)
  }

  predicate CpuLow(a: Args, cpu: Cpu) {
    && cpu.inflight as real <= Times(a.backlogLow, Max(1, cpu.numWorkers) as real)
    && (cpu.emaWait.Some? ==> cpu.emaWait.value <= a.waitLow)
  }

  lemma LessTimesIsLess(x: real, y: real, w: real)
    requires x < y && w > 0.0
    ensures Times(x, w) < Times(y, w)
  {
    var gap := y - x;
    assert Times(gap, w) > 0.0 && Times(gap, w) == Times(y, w) - Times(x, w);
  }

  lemma RatioIsPerWorker(cpu: Cpu, bound: real)
    ensures BacklogRatio(cpu) >= bound <==> cpu.inflight as real >= Times(bound, Max(1, cpu.numWorkers) as real)
    ensures BacklogRatio(cpu) <= bound <==> cpu.inflight as real <= Times(bound, Max(1, cpu.numWorkers) as real)
  {
    var n, w := cpu.inflight as real, Max(1, cpu.numWorkers) as real;
    assert Times(n / w, w) == n;
    if n / w >= bound { TimesIsMonotone(bound, n / w, w); }
    if n / w <= bound { TimesIsMonotone(n / w, bound, w); }
    if n / w < bound { LessTimesIsLess(n / w, bound, w); }
    if n / w > bound { LessTimesIsLess(bound, n / w, w); }
  }

  function CpuAfter(a: Args, start: bool, ticks: seq<Cpu>): bool {
    if ticks == [] then start else CpuOverloaded(a, CpuAfter(a, start, ticks[..|ticks| - 1]), ticks[|ticks| - 1])
  }

  /** Some tick from i on is high, with no low one after it; or none is low and it was on before. */
  ghost predicate StaysOn<T>(start: bool, ticks: seq<T>, high: T -> bool, low: T -> bool) {
    || (start && forall j :: 0 <= j < |ticks| ==> !low(ticks[j]))
    || exists i :: LastsFrom(ticks, high, low, i)
  }

  ghost predicate LastsFrom<T>(ticks: seq<T>, high: T -> bool, low: T -> bool, i: nat) {
    i < |ticks| && high(ticks[i]) && forall j :: i < j < |ticks| ==> !low(ticks[j])
  }

  lemma OneMoreTick<T>(start: bool, ticks: seq<T>, tick: T, high: T -> bool, low: T -> bool)
    requires !(high(tick) && low(tick))
    ensures StaysOn(start, ticks + [tick], high, low) <==>
            high(tick) || (StaysOn(start, ticks, high, low) && !low(tick))
  {
    var all, n := ticks + [tick], |ticks|;
    assert all[n] == tick && forall j :: 0 <= j < n ==> all[j] == ticks[j];
    if high(tick) {
      assert LastsFrom(all, high, low, n);
    } else if StaysOn(start, ticks, high, low) && !low(tick) {
      if !(start && forall j :: 0 <= j < n ==> !low(ticks[j])) {
        var i: nat :| LastsFrom(ticks, high, low, i);
        assert LastsFrom(all, high, low, i);
      }
    } else {
      forall i: nat | LastsFrom(all, high, low, i)
        ensures LastsFrom(ticks, high, low, i) && !low(tick)
      {
        assert i != n;
      }
    }
  }

  /** CPU pressure has a memory: it is on exactly since some high reading with no low one after it. */
  lemma {:induction false} CpuPressureLasts(a: Args, start: bool, ticks: seq<Cpu>)
    requires forall cpu <- ticks :: !(CpuHigh(a, cpu) && CpuLow(a, cpu))
    ensures CpuAfter(a, start, ticks) <==> StaysOn(start, ticks, cpu => CpuHigh(a, cpu), cpu => CpuLow(a, cpu))
  {
    if ticks != [] {
      var init, last := ticks[..|ticks| - 1], ticks[|ticks| - 1];
      assert ticks == init + [last] && last in ticks;
      CpuPressureLasts(a, start, init);
      RatioIsPerWorker(last, a.backlogHigh);
      RatioIsPerWorker(last, a.backlogLow);
      OneMoreTick(start, init, last, cpu => CpuHigh(a, cpu), cpu => CpuLow(a, cpu));
    }
  }

  /** No telemetry, or usage at or above the target. */
  predicate KvHigh(a: Args, view: KvView) {
    !view.reliable || (view.usage.Some? && view.usage.value >= Clamp(0.1, a.kvTarget, 0.999))
  }

  predicate KvLow(a: Args, view: KvView) {
    view.reliable && view.usage.Some? && view.usage.value <= Clamp(0.1, a.kvTarget, 0.999) - 0.05
  }

  function KvAfter(a: Args, start: bool, views: seq<KvView>): bool {
    if views == [] then start else KvOverloaded(a, KvAfter(a, start, views[..|views| - 1]), views[|views| - 1])
  }

  /** KV pressure is on exactly since the telemetry failed or usage reached the target, with no low reading after. */
  lemma {:induction false} KvPressureLasts(a: Args, start: bool, views: seq<KvView>)
    ensures KvAfter(a, start, views) <==> StaysOn(start, views, view => KvHigh(a, view), view => KvLow(a, view))
  {
    if views != [] {
      var init, last := views[..|views| - 1], views[|views| - 1];
      assert views == init + [last];
      KvPressureLasts(a, start, init);
      OneMoreTick(start, init, last, view => KvHigh(a, view), view => KvLow(a, view));
    }
  }

  // ----- How far the caps reach -----

  /** The CPU cap holds the workers times the mean watermark, in whole requests and within the window's range. */
  lemma CpuCapFitsWorkers(a: Args, cpu: Cpu)
    requires a.poolSize > 0
    ensures var cap := CpuCap(a, cpu) as real; var mean := (a.backlogLow + a.backlogHigh) / 2.0;
            var target := Times(Max(1, cpu.numWorkers) as real, if mean >= 0.1 then mean else 0.1);
            && WindowMin(a) <= CpuCap(a, cpu) <= a.poolSize
            && (CpuCap(a, cpu) < a.poolSize ==> cap >= target)
            && (CpuCap(a, cpu) > WindowMin(a) ==> cap - 1.0 < target)
  {
  }

  /** Without telemetry the cap is the one for that case, and with no usage known it is the pool. */
  lemma KvCapWithoutUsage(a: Args, view: KvView)
    requires a.poolSize > 0
    ensures !view.reliable ==> KvCap(a, view) == Max(1, Min(a.noKvLimit, a.poolSize))
    ensures view.reliable && view.usage.None? ==> KvCap(a, view) == a.poolSize
  {
  }

  /** The value at this usage of the line from the pool, at the low mark, to the smallest window, at the target. */
  function Line(a: Args, usage: real): real {
    var span := UsageHigh(a) - UsageLow(a);
    a.poolSize as real - Times((usage - UsageLow(a)) / span, (a.poolSize - WindowMin(a)) as real)
  }

  lemma LineStaysInRange(a: Args, usage: real)
    requires a.poolSize > 0 && UsageLow(a) <= usage <= UsageHigh(a)
    ensures WindowMin(a) as real <= Line(a, usage) <= a.poolSize as real
    ensures Fraction(a, usage) == (usage - UsageLow(a)) / (UsageHigh(a) - UsageLow(a))
  {
    var span := UsageHigh(a) - UsageLow(a);
    var f, width := (usage - UsageLow(a)) / span, (a.poolSize - WindowMin(a)) as real;
    QuotientIsMonotone(0.0, usage - UsageLow(a), span);
    QuotientIsMonotone(usage - UsageLow(a), span, span);
    assert span / span == 1.0 && 0.0 / span == 0.0;
    TimesIsMonotone(0.0, f, width);
    TimesIsMonotone(f, 1.0, width);
  }

  /** The KV cap: the pool up to the low mark, the smallest window from the target on, between them near the line. */
  lemma KvCapFollowsLine(a: Args, usage: real)
    requires a.poolSize > 0
    ensures var cap := CapForUsage(a, usage);
            && (usage <= Clamp(0.1, a.kvTarget, 0.999) - 0.05 ==> cap == a.poolSize)
            && (usage >= Clamp(0.1, a.kvTarget, 0.999) ==> cap == WindowMin(a))
            && (UsageLow(a) <= usage <= UsageHigh(a) ==> -0.5 <= cap as real - Line(a, usage) <= 0.5)
  {
    if UsageLow(a) <= usage <= UsageHigh(a) {
      LineStaysInRange(a, usage);
      RoundIsNearestTiesToEven(Line(a, usage));
      LineAtEnds(a);
    }
  }

  lemma LineAtEnds(a: Args)
    requires a.poolSize > 0
    ensures Line(a, UsageLow(a)) == a.poolSize as real && Line(a, UsageHigh(a)) == WindowMin(a) as real
  {
    var span, width := UsageHigh(a) - UsageLow(a), (a.poolSize - WindowMin(a)) as real;
    assert span / span == 1.0 && 0.0 / span == 0.0;
    assert Times(1.0, width) == width && Times(0.0, width) == 0.0;
  }

  // ----- The block budget and the usage of a report -----

  /** The budget is the largest number of blocks whose use leaves the reserve free, or zero if there is none. */
  lemma BudgetKeepsReserve(a: Args, stats: KvStats, b: int)
    requires stats.numGpu.Some? && stats.numFree.Some?
    ensures var view := ReadKv(a, Some(stats)); var target := Clamp(0.0, a.kvTarget, 0.999);
            && view.budget.Some? && view.budget.value >= 0
            && (b > 0 ==> (b <= view.budget.value <==>
                  (stats.numFree.value - b) as real >= Times(stats.numGpu.value as real, 1.0 - target)))
  {
  }

  /** The reported usage counts; without one, the share of blocks not free, within 0..1. */
  lemma UsageOfReport(a: Args, stats: KvStats)
    requires MarsWindow.Complete(stats)
    ensures var view := ReadKv(a, Some(stats));
            && view.reliable && view.blockSize == stats.blockSize && view.numGpu == stats.numGpu
            && view.usage.Some?
            && (stats.usage.Num? ==> view.usage.value == stats.usage.value)
            && (!stats.usage.Num? && stats.numFree.value <= stats.numGpu.value ==>
                  Times(1.0 - view.usage.value, stats.numGpu.value as real) == stats.numFree.value as real)
  {
    var free, all := stats.numFree.value as real, stats.numGpu.value as real;
    if stats.numFree.value <= stats.numGpu.value {
      QuotientIsMonotone(0.0, free, all);
      QuotientIsMonotone(free, all, all);
      assert all / all == 1.0 && 0.0 / all == 0.0;
      assert Times(free / all, all) == free;
    }
  }

  // ----- How long a report is trusted -----

  predicate IsFull(fetch: Fetch) {
    fetch.Full? && MarsWindow.Complete(fetch.stats)
  }

  /** The last complete report is young enough to stand in. */
  predicate Usable(a: Args, kv: KvCache, now: real) {
    kv.lastFull.Some? && now - kv.lastFullAt <= a.kvMaxStale
  }

  predicate Due(a: Args, kv: KvCache, now: real) {
    kv.cached.None? || now - kv.cachedAt >= a.kvStatInterval
  }

  /** A remembered report was complete. */
  predicate Remembers(kv: KvCache) {
    kv.lastFull.Some? ==> MarsWindow.Complete(kv.lastFull.value)
  }

  predicate HasUsage(fetch: Fetch) {
    fetch.MetricsOnly? || (fetch.Full? && !fetch.stats.usage.Absent?)
  }

  /**
   After a poll the telemetry is reliable exactly when the report is complete, or when the last complete one
   is young enough and this poll brought nothing, or a usage.
   */
  lemma ReliableAfterPollExactlyWhen(a: Args, kv: KvCache, now: real, fetch: Fetch)
    requires Remembers(kv) && Due(a, kv, now)
    ensures var kv' := Refreshed(a, kv, now, fetch);
            && Remembers(kv') && kv'.cachedAt == now
            && (ReadKv(a, kv'.cached).reliable <==>
                  IsFull(fetch) || (Usable(a, kv, now) && (fetch.Nothing? || HasUsage(fetch))))
  {
  }

  /** Which blocks and which usage the cache then shows. */
  lemma PollShows(a: Args, kv: KvCache, now: real, fetch: Fetch)
    requires Remembers(kv) && Due(a, kv, now) && a.kvMaxStale >= 0.0
    ensures var kv' := Refreshed(a, kv, now, fetch);
            && (IsFull(fetch) ==> kv' == KvCache(Some(fetch.stats), now, Some(fetch.stats), now))
            && (!IsFull(fetch) ==> kv'.lastFull == kv.lastFull && kv'.lastFullAt == kv.lastFullAt)
            && (fetch.Nothing? ==> kv'.cached == if Usable(a, kv, now) then kv.lastFull else None)
            && (!IsFull(fetch) && HasUsage(fetch) && Usable(a, kv, now) ==>
                  kv'.cached == Some(kv.lastFull.value.(usage :=
                    if fetch.MetricsOnly? then Num(fetch.usage) else fetch.stats.usage)))
            && (fetch.MetricsOnly? && !Usable(a, kv, now) ==>
                  ReadKv(a, kv'.cached) == KvView(false, Some(fetch.usage), None, None, None))
  {
  }

  lemma NoPollBeforeInterval(a: Args, kv: KvCache, now: real, fetch: Fetch)
    requires !Due(a, kv, now)
    ensures Refreshed(a, kv, now, fetch) == kv
  {
  }

  datatype Poll = Poll(at: real, fetch: Fetch)

  function CacheAfter(a: Args, polls: seq<Poll>): KvCache {
    if polls == [] then KvCache(None, 0.0, None, 0.0)
    else
      var last := polls[|polls| - 1];
      Refreshed(a, CacheAfter(a, polls[..|polls| - 1]), last.at, last.fetch)
  }

  /** A complete report with these block counts was polled no longer ago than this. */
  ghost predicate ReportedWithin(polls: seq<Poll>, stats: KvStats, now: real, age: real) {
    exists j :: 0 <= j < |polls| && ReportedAt(polls[j], stats, now, age)
  }

  predicate ReportedAt(poll: Poll, stats: KvStats, now: real, age: real) {
    && IsFull(poll.fetch) && now - poll.at <= age
    && poll.fetch.stats.blockSize == stats.blockSize && poll.fetch.stats.numGpu == stats.numGpu
    && poll.fetch.stats.numFree == stats.numFree
  }

  ghost predicate Ordered(polls: seq<Poll>) {
    forall i, j :: 0 <= i <= j < |polls| ==> polls[i].at <= polls[j].at
  }

  lemma MorePolls(polls: seq<Poll>, poll: Poll, stats: KvStats, now: real, age: real)
    requires ReportedWithin(polls, stats, now, age)
    ensures ReportedWithin(polls + [poll], stats, now, age)
  {
    var j :| 0 <= j < |polls| && ReportedAt(polls[j], stats, now, age);
    assert (polls + [poll])[j] == polls[j];
  }

  /** What the cache holds was reported: the last complete report at its time, and the shown one not long before. */
  ghost predicate IsReported(a: Args, polls: seq<Poll>, kv: KvCache) {
    && Remembers(kv)
    && (kv.lastFull.Some? ==> ReportedWithin(polls, kv.lastFull.value, kv.lastFullAt, 0.0))
    && (kv.cached.Some? && MarsWindow.Complete(kv.cached.value) ==>
          ReportedWithin(polls, kv.cached.value, kv.cachedAt, a.kvMaxStale))
  }

  lemma OlderIsWithin(polls: seq<Poll>, stats: KvStats, shown: KvStats, at: real, now: real, age: real)
    requires ReportedWithin(polls, stats, at, 0.0) && now - at <= age
    requires shown.blockSize == stats.blockSize && shown.numGpu == stats.numGpu && shown.numFree == stats.numFree
    ensures ReportedWithin(polls, shown, now, age)
  {
    var j :| 0 <= j < |polls| && ReportedAt(polls[j], stats, at, 0.0);
    assert ReportedAt(polls[j], shown, now, age);
  }

  lemma PollKeepsReported(a: Args, polls: seq<Poll>, kv: KvCache, poll: Poll)
    requires IsReported(a, polls, kv) && a.kvMaxStale >= 0.0
    ensures IsReported(a, polls + [poll], Refreshed(a, kv, poll.at, poll.fetch))
  {
    var kv', all := Refreshed(a, kv, poll.at, poll.fetch), polls + [poll];
    if kv.lastFull.Some? {
      MorePolls(polls, poll, kv.lastFull.value, kv.lastFullAt, 0.0);
    }
    if !Due(a, kv, poll.at) {
      if MarsWindow.Complete(kv.cached.value) {
        MorePolls(polls, poll, kv.cached.value, kv.cachedAt, a.kvMaxStale);
      }
    } else {
      PollShows(a, kv, poll.at, poll.fetch);
      assert all[|polls|] == poll;
      if IsFull(poll.fetch) {
        assert ReportedAt(all[|polls|], poll.fetch.stats, poll.at, 0.0);
        assert ReportedAt(all[|polls|], poll.fetch.stats, poll.at, a.kvMaxStale);
      } else if Usable(a, kv, poll.at) && kv'.cached.Some? && MarsWindow.Complete(kv'.cached.value) {
        OlderIsWithin(all, kv.lastFull.value, kv'.cached.value, kv.lastFullAt, poll.at, a.kvMaxStale);
      }
    }
  }

  /**
   Over any sequence of polls: reliable telemetry shows block counts that a complete report gave, no longer ago
   than the staleness limit before the last poll that was due.
   */
  lemma {:induction false} ReliableMeansRecentlyReported(a: Args, polls: seq<Poll>)
    requires a.kvMaxStale >= 0.0
    ensures IsReported(a, polls, CacheAfter(a, polls))
  {
    if polls != [] {
      var init, last := polls[..|polls| - 1], polls[|polls| - 1];
      assert polls == init + [last];
      ReliableMeansRecentlyReported(a, init);
      PollKeepsReported(a, init, CacheAfter(a, init), last);
    }
  }
}
