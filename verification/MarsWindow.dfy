/**
 Telemetry and the adaptive window of the MARS external admission controller.
 Floating-point quantities are reals; times and readings come from outside.
 */
module MarsWindow {
  import opened Sequences

  datatype Args = Args(
    poolSize: int, windowMin: int, windowInit: int, windowInc: int, decFactor: real,
    longThreshold: int, longMax: int, tailMax: int, tailRatio: real, noKvLimit: int,
    backlogLow: real, backlogHigh: real, waitLow: real, waitHigh: real,
    kvTarget: real, kvStatInterval: real, kvMaxStale: real, controlInterval: real)

  /** The smallest window; the controller runs only with a positive pool. */
  function WindowMin(a: Args): int {
    Max(1, Min(a.windowMin, Max(1, a.poolSize)))
  }

  function InitialLimit(a: Args): int {
    Max(WindowMin(a), Min(a.windowInit, Max(1, a.poolSize)))
  }

  // ----- Rounding -----

  function Ceil(x: real): int {
    -(-x).Floor
  }

  function RoundHalfEven(x: real): int {
    var f := x.Floor;
    var d := x - f as real;
    if d < 0.5 || (d == 0.5 && f % 2 == 0) then f else f + 1
  }

  lemma RoundIsNearestTiesToEven(x: real)
    ensures var r := RoundHalfEven(x) as real;
            && -0.5 <= x - r <= 0.5
            && (x - r == 0.5 || x - r == -0.5 ==> RoundHalfEven(x) % 2 == 0)
  {
  }

  lemma RoundIsMonotone(x: real, y: real)
    requires x <= y
    ensures RoundHalfEven(x) <= RoundHalfEven(y)
  {
    assert x.Floor <= y.Floor;
  }

  function Clamp(lo: real, x: real, hi: real): real {
    var capped := if x <= hi then x else hi;
    if capped >= lo then capped else lo
  }

  function Times(x: real, k: real): real {
    x * k
  }

  lemma TimesIsMonotone(x: real, y: real, k: real)
    requires x <= y && k >= 0.0
    ensures Times(x, k) <= Times(y, k)
  {
  }

  // ----- CPU side -----

  /** What the live tool statistics report. */
  datatype Cpu = Cpu(inflight: nat, numWorkers: int, emaWait: Option<real>)

  function BacklogRatio(cpu: Cpu): real {
    cpu.inflight as real / Max(1, cpu.numWorkers) as real
  }

  predicate CpuHealthy(a: Args, cpu: Cpu) {
    BacklogRatio(cpu) <= a.backlogLow && (cpu.emaWait.None? || cpu.emaWait.value <= a.waitLow)
  }

  predicate CpuOverloaded(a: Args, prev: bool, cpu: Cpu) {
    if prev then !CpuHealthy(a, cpu)
    else BacklogRatio(cpu) >= a.backlogHigh || (cpu.emaWait.Some? && cpu.emaWait.value >= a.waitHigh)
  }

  function CpuCap(a: Args, cpu: Cpu): int {
    var mean := (a.backlogLow + a.backlogHigh) / 2.0;
    var ratio := if mean >= 0.1 then mean else 0.1;
    Max(WindowMin(a), Min(a.poolSize, Ceil(Max(1, cpu.numWorkers) as real * ratio)))
  }

  // ----- KV side -----

  datatype Usage = Absent | NotNumeric | Num(value: real)

  /** One statistics document; a field that does not convert to an integer is None. */
  datatype KvStats = KvStats(blockSize: Option<int>, numGpu: Option<int>, numFree: Option<int>, usage: Usage)

  /** The outcome of one poll: the statistics endpoint, else the metrics page, else nothing. */
  datatype Fetch = Full(stats: KvStats) | MetricsOnly(usage: real) | Nothing

  datatype KvCache = KvCache(cached: Option<KvStats>, cachedAt: real, lastFull: Option<KvStats>, lastFullAt: real)

  predicate Complete(s: KvStats) {
    && s.blockSize.Some? && s.blockSize.value > 0
    && s.numGpu.Some? && s.numGpu.value > 0
    && s.numFree.Some? && s.numFree.value >= 0
  }

  function Refreshed(a: Args, kv: KvCache, now: real, fetch: Fetch): KvCache {
    if kv.cached.Some? && now - kv.cachedAt < a.kvStatInterval then kv
    else
      var polled := match fetch
        case Full(stats) => Some(stats)
        case MetricsOnly(usage) => Some(KvStats(None, None, None, Num(usage)))
        case Nothing => None;
      var complete := polled.Some? && Complete(polled.value);
      var lastFull := if complete then polled else kv.lastFull;
      var lastFullAt := if complete then now else kv.lastFullAt;
      var usable := lastFull.Some? && now - lastFullAt <= a.kvMaxStale;
      var merged :=
        if polled.None? && usable then lastFull
        else if polled.Some? && !polled.value.usage.Absent? && usable then
          Some(lastFull.value.(usage := polled.value.usage))
        else polled;
      KvCache(merged, now, lastFull, lastFullAt)
  }

  /** The guard margin: blocks kept free of admissions. */
  function Reserve(a: Args, numGpu: int): int {
    Ceil(Times(numGpu as real, 1.0 - Clamp(0.0, a.kvTarget, 0.999)))
  }

  lemma ReserveIsNonNegative(a: Args, numGpu: nat)
    ensures Reserve(a, numGpu) >= 0
  {
    TimesIsMonotone(0.0, numGpu as real, 1.0 - Clamp(0.0, a.kvTarget, 0.999));
  }

  /** What one round reads off the cached statistics. */
  datatype KvView = KvView(reliable: bool, usage: Option<real>, budget: Option<int>, blockSize: Option<int>,
      numGpu: Option<int>)

  function ReadKv(a: Args, cached: Option<KvStats>): KvView {
    if cached.None? then KvView(false, None, None, None, None)
    else
      var s := cached.value;
      var usage :=
        if s.usage.Num? then Some(s.usage.value)
        else if s.numGpu.Some? && s.numGpu.value > 0 && s.numFree.Some? then
          Some(Clamp(0.0, 1.0 - s.numFree.value as real / s.numGpu.value as real, 1.0))
        else None;
      var budget :=
        if s.numGpu.Some? && s.numFree.Some? then
          Some(Max(0, s.numFree.value - Reserve(a, s.numGpu.value)))
        else None;
      KvView(Complete(s), usage, budget, s.blockSize, s.numGpu)
  }

  function UsageHigh(a: Args): real {
    Clamp(0.1, a.kvTarget, 0.999)
  }

  function UsageLow(a: Args): real {
    var x := UsageHigh(a) - 0.05;
    if x >= 0.0 then x else 0.0
  }

  predicate KvOverloaded(a: Args, prev: bool, view: KvView) {
    if !view.reliable then true
    else if view.usage.None? then prev
    else if prev then view.usage.value > UsageLow(a)
    else view.usage.value >= UsageHigh(a)
  }

  /** The cap for reliable telemetry, as a function of the usage alone. */
  function CapForUsage(a: Args, usage: real): int {
    if usage <= UsageLow(a) then a.poolSize
    else if usage >= UsageHigh(a) then WindowMin(a)
    else
      Interpolated(a, Drop(a, usage))
  }

  function KvCap(a: Args, view: KvView): int {
    if !view.reliable then Max(1, Min(a.noKvLimit, a.poolSize))
    else if view.usage.Some? then CapForUsage(a, view.usage.value)
    else a.poolSize
  }

  lemma QuotientIsMonotone(x: real, y: real, k: real)
    requires x <= y && k > 0.0
    ensures x / k <= y / k
  {
    assert x / k == Times(x, 1.0 / k) && y / k == Times(y, 1.0 / k);
    TimesIsMonotone(x, y, 1.0 / k);
  }

  /** How far the usage lies between the watermarks, from 0 to 1. */
  function Fraction(a: Args, usage: real): real {
    Clamp(0.0, (usage - UsageLow(a)) / (UsageHigh(a) - UsageLow(a)), 1.0)
  }

  /** The slots to give up at this usage, before rounding. */
  function Drop(a: Args, usage: real): real {
    Times(Fraction(a, usage), (a.poolSize - WindowMin(a)) as real)
  }

  function Interpolated(a: Args, drop: real): int {
    Max(WindowMin(a), Min(a.poolSize, RoundHalfEven(a.poolSize as real - drop)))
  }

  lemma FractionIsMonotone(a: Args, low: real, high: real)
    requires low <= high
    ensures Fraction(a, low) <= Fraction(a, high)
  {
    QuotientIsMonotone(low - UsageLow(a), high - UsageLow(a), UsageHigh(a) - UsageLow(a));
  }

  lemma DropIsMonotone(a: Args, low: real, high: real)
    requires a.poolSize > 0 && low <= high
    ensures Drop(a, low) <= Drop(a, high)
  {
    FractionIsMonotone(a, low, high);
    TimesIsMonotone(Fraction(a, low), Fraction(a, high), (a.poolSize - WindowMin(a)) as real);
  }

  lemma InterpolationIsMonotone(a: Args, less: real, more: real)
    requires a.poolSize > 0 && less <= more
    ensures WindowMin(a) <= Interpolated(a, more) <= Interpolated(a, less) <= a.poolSize
  {
    RoundIsMonotone(a.poolSize as real - more, a.poolSize as real - less);
  }

  /** More KV usage never widens the window, across all three branches and the rounding. */
  lemma CapShrinksWithUsage(a: Args, low: real, high: real)
    requires a.poolSize > 0 && low <= high
    ensures WindowMin(a) <= CapForUsage(a, high) <= CapForUsage(a, low) <= a.poolSize
  {
    DropIsMonotone(a, low, high);
    InterpolationIsMonotone(a, Drop(a, low), Drop(a, high));
  }

  // ----- The window -----

  /** Everything one control tick looks at besides the previous limit. */
  datatype Signals = Signals(cpuOverloaded: bool, kvOverloaded: bool, cpuHealthy: bool, view: KvView, cpuCap: int,
      kvCap: int)

  predicate Overloaded(g: Signals) {
    g.cpuOverloaded || g.kvOverloaded
  }

  predicate MayGrow(a: Args, g: Signals) {
    && !Overloaded(g) && g.cpuHealthy && g.view.reliable
    && (g.view.usage.None? || g.view.usage.value <= UsageLow(a))
    && (g.view.budget.None? || g.view.budget.value > 0)
  }

  function Scaled(n: int, d: real): int {
    Times(n as real, d).Floor
  }

  function Proposed(a: Args, limit: int, g: Signals): int {
    if Overloaded(g) then Max(WindowMin(a), Scaled(limit, a.decFactor))
    else if MayGrow(a, g) then Min(a.poolSize, limit + a.windowInc)
    else limit
  }

  function Capped(a: Args, proposed: int, g: Signals): int {
    var pooled := Max(WindowMin(a), Min(a.poolSize, proposed));
    var cpuCapped := Max(WindowMin(a), Min(g.cpuCap, pooled));
    Max(WindowMin(a), Min(g.kvCap, cpuCapped))
  }

  function NextLimit(a: Args, limit: int, g: Signals): int {
    Capped(a, Proposed(a, limit, g), g)
  }

  function ActiveLimit(limit: int, g: Signals): int {
    Min(Min(limit, g.cpuCap), g.kvCap)
  }

  lemma LimitStaysInRange(a: Args, limit: int, g: Signals)
    requires a.poolSize > 0
    ensures WindowMin(a) <= NextLimit(a, limit, g) <= a.poolSize
    ensures g.cpuCap >= 1 && g.kvCap >= 1 ==> 1 <= ActiveLimit(NextLimit(a, limit, g), g) <= a.poolSize
  {
  }

  lemma CapsArePositive(a: Args, cpu: Cpu, view: KvView)
    requires a.poolSize > 0
    ensures 1 <= CpuCap(a, cpu) <= a.poolSize && 1 <= KvCap(a, view) <= a.poolSize
  {
    if view.usage.Some? { CapShrinksWithUsage(a, view.usage.value, view.usage.value); }
  }

  /** start * d^k. */
  function Geometric(start: int, d: real, k: nat): real {
    if k == 0 then start as real else Times(Geometric(start, d, k - 1), d)
  }

  function LimitAfter(a: Args, start: int, ticks: seq<Signals>): int {
    if ticks == [] then start
    else NextLimit(a, LimitAfter(a, start, ticks[..|ticks| - 1]), ticks[|ticks| - 1])
  }

  lemma ScaledIsBelow(n: int, d: real, bound: real)
    requires n >= 0 && 0.0 < d < 1.0 && n as real <= bound
    ensures Scaled(n, d) <= n
    ensures Scaled(n, d) as real <= Times(bound, d)
  {
    TimesIsMonotone(n as real, bound, d);
    TimesIsMonotone(d, 1.0, n as real);
    assert Times(n as real, d) <= n as real;
  }

  lemma CappedIsBelow(a: Args, proposed: int, g: Signals)
    requires a.poolSize > 0
    ensures WindowMin(a) <= Capped(a, proposed, g) <= Max(WindowMin(a), proposed)
  {
  }

  /** k overloaded ticks in a row shrink the window geometrically and never raise it. */
  lemma {:induction false} OverloadShrinksGeometrically(a: Args, start: int, ticks: seq<Signals>)
    requires a.poolSize > 0 && 0.0 < a.decFactor < 1.0
    requires WindowMin(a) <= start
    requires forall i :: 0 <= i < |ticks| ==> Overloaded(ticks[i])
    ensures var m := LimitAfter(a, start, ticks);
            && WindowMin(a) <= m <= start
            && (m == WindowMin(a) || m as real <= Geometric(start, a.decFactor, |ticks|))
    ensures ticks != [] ==> LimitAfter(a, start, ticks) <= LimitAfter(a, start, ticks[..|ticks| - 1])
  {
    if ticks != [] {
      var n := |ticks| - 1;
      OverloadShrinksGeometrically(a, start, ticks[..n]);
      var p, g := LimitAfter(a, start, ticks[..n]), ticks[n];
      ScaledIsBelow(p, a.decFactor, p as real);
      if p != WindowMin(a) {
        ScaledIsBelow(p, a.decFactor, Geometric(start, a.decFactor, n));
      }
      CappedIsBelow(a, Proposed(a, p, g), g);
    }
  }
}
