/** Counter baselines: how kubelet readings become counter deltas
    (internal/collector/usage.go, internal/collector/cadvisor.go). The zero
    instant means "never". */
module Baselines {
  import opened Basics
  import opened Records
  import opened Rollups
  import opened Conservation
  import opened Journals

  datatype TrackerKey = TrackerKey(pod: string, container: string)

  datatype CPUBase = CPUBase(time: int, counter: nat, psi: nat)

  datatype MemoryBase = MemoryBase(time: int, psi: nat)

  datatype CounterState = CounterState(cpu: CPUBase, mem: MemoryBase, lastSeen: int)

  const UNSEEN: CounterState := CounterState(CPUBase(0, 0, 0), MemoryBase(0, 0), 0)

  /** One container's CPU reading; psi is absent where the kernel exposes none. */
  datatype CPUReading = CPUReading(at: int, counter: nat, psi: Option<nat>)

  datatype MemoryReading = MemoryReading(at: int, workingSet: nat, psi: Option<nat>)

  datatype ContainerStats = ContainerStats(start: int, cpu: Option<CPUReading>, memory: Option<MemoryReading>)

  datatype ThrottleState = ThrottleState(ts: int, throttled: nat, periods: nat, lastSeen: int)

  const UNSCRAPED: ThrottleState := ThrottleState(0, 0, 0, 0)

  /** One container's row of a cAdvisor scrape, already resolved to its pod. */
  datatype Scrape = Scrape(tk: TrackerKey, key: Key, ts: int, start: int, throttled: Option<nat>, periods: Option<nat>)

  function Clamp(v: nat): int { Min(v, MAX_INT64) }

  function OrZero(n: Option<nat>): nat { match n case Some(v) => v case None => 0 }

  // ---- CPU ----

  predicate FirstCPU(b: CPUBase) { b.time == 0 }

  /** Re-served or stale: not after the baseline. */
  predicate StaleCPU(b: CPUBase, r: CPUReading) { !FirstCPU(b) && r.at <= b.time }

  /** A counter that ran backwards: the container restarted. */
  predicate ResetCPU(b: CPUBase, r: CPUReading) {
    !FirstCPU(b) && !StaleCPU(b, r) && (r.counter < b.counter || OrZero(r.psi) < b.psi)
  }

  function CPUObservations(key: Key, from: int, r: CPUReading, counter: nat, psi: nat): seq<Observation> {
    if r.at <= from then [] else
    [CPUDelta(key, from, r.at, Clamp(counter))]
    + if r.psi.Some? then [CPUPSI(key, from, r.at, Clamp(psi))] else []
  }

  /** What a CPU reading emits. */
  function EmitCPU(b: CPUBase, key: Key, start: int, r: CPUReading, resumed: bool): seq<Observation> {
    if FirstCPU(b) then
      if resumed then [] else CPUObservations(key, start, r, r.counter, OrZero(r.psi))
    else if StaleCPU(b, r) || ResetCPU(b, r) then []
    else CPUObservations(key, b.time, r, r.counter - b.counter, OrZero(r.psi) - b.psi)
  }

  function AdvanceCPU(b: CPUBase, r: CPUReading): CPUBase {
    if StaleCPU(b, r) then b else CPUBase(r.at, r.counter, OrZero(r.psi))
  }

  // ---- memory ----

  function EmitMemory(b: MemoryBase, key: Key, start: int, r: MemoryReading, resumed: bool): seq<Observation> {
    if r.at <= b.time then [] else
    var first := b.time == 0;
    var psi := OrZero(r.psi);
    var from := if first then start else b.time;
    [Memory(key, r.at, Clamp(r.workingSet))]
    + if r.psi.Some? && psi >= b.psi && (!first || !resumed) && r.at > from
      then [MemoryPSI(key, from, r.at, Clamp(if first then psi else psi - b.psi))]
      else []
  }

  function AdvanceMemory(b: MemoryBase, r: MemoryReading): MemoryBase {
    if r.at <= b.time then b else MemoryBase(r.at, OrZero(r.psi))
  }

  // ---- throttling ----

  function ScrapeTime(s: Scrape, now: int): int { if s.ts == 0 then now else s.ts }

  function EmitThrottle(st: ThrottleState, s: Scrape, now: int, resumed: bool): seq<Observation>
    requires s.throttled.Some? && s.periods.Some?
  {
    var at, throttled, periods := ScrapeTime(s, now), s.throttled.value, s.periods.value;
    if st.ts == 0 then
      if s.start != 0 && at > s.start && !resumed
      then [Throttling(s.key, s.start, at, Clamp(throttled), Clamp(periods))]
      else []
    else if at <= st.ts || throttled < st.throttled || periods < st.periods then []
    else [Throttling(s.key, st.ts, at, Clamp(throttled - st.throttled), Clamp(periods - st.periods))]
  }

  function AdvanceThrottle(st: ThrottleState, s: Scrape, now: int): ThrottleState
    requires s.throttled.Some? && s.periods.Some?
  {
    var at := ScrapeTime(s, now);
    if st.ts != 0 && at <= st.ts then st.(lastSeen := now)
    else ThrottleState(at, s.throttled.value, s.periods.value, now)
  }

  // ---- the poller's own state ----

  datatype Poller = Poller(
    tracker: map<TrackerKey, CounterState>,
    throttle: map<TrackerKey, ThrottleState>,
    resumedKeys: set<Key>,
    resumedUntil: int)

  const STALE_AFTER: int := 300 * SECOND

  function TrackerOf(p: Poller, tk: TrackerKey): CounterState {
    if tk in p.tracker then p.tracker[tk] else UNSEEN
  }

  function ThrottleOf(p: Poller, tk: TrackerKey): ThrottleState {
    if tk in p.throttle then p.throttle[tk] else UNSCRAPED
  }

  function EmitContainer(p: Poller, tk: TrackerKey, key: Key, c: ContainerStats): seq<Observation> {
    var st, resumed := TrackerOf(p, tk), key in p.resumedKeys;
    (if c.cpu.Some? then EmitCPU(st.cpu, key, c.start, c.cpu.value, resumed) else [])
    + (if c.memory.Some? then EmitMemory(st.mem, key, c.start, c.memory.value, resumed) else [])
  }

  function AdvanceContainer(st: CounterState, c: ContainerStats, now: int): CounterState {
    CounterState(
      if c.cpu.Some? then AdvanceCPU(st.cpu, c.cpu.value) else st.cpu,
      if c.memory.Some? then AdvanceMemory(st.mem, c.memory.value) else st.mem,
      now)
  }

  /** Forgetting trackers unseen for five minutes, and the resumed keys once the
      last resumed window has ended. */
  function Swept(p: Poller, now: int): Poller {
    var cutoff := now - STALE_AFTER;
    Poller(
      map tk | tk in p.tracker && p.tracker[tk].lastSeen >= cutoff :: p.tracker[tk],
      map tk | tk in p.throttle && p.throttle[tk].lastSeen >= cutoff :: p.throttle[tk],
      if p.resumedKeys != {} && now >= p.resumedUntil then {} else p.resumedKeys,
      p.resumedUntil)
  }

  // ---- whole runs ----

  datatype Op =
    | Container(tk: TrackerKey, key: Key, stats: ContainerStats, now: int)
    | Scraped(scrape: Scrape, now: int)
    | Sweep(now: int)
    | Flush(now: int)

  /** A run: the poller, the open windows, and the windows handed over so far. */
  datatype Polling = Polling(poller: Poller, open: Open, handed: seq<Open>)

  function Emits(p: Poller, op: Op): seq<Observation> {
    match op
    case Container(tk, key, stats, now) => EmitContainer(p, tk, key, stats)
    case Scraped(s, now) =>
      if s.throttled.Some? && s.periods.Some?
      then EmitThrottle(ThrottleOf(p, s.tk), s, now, s.key in p.resumedKeys)
      else []
    case Sweep(_) => []
    case Flush(_) => []
  }

  function Advance(p: Poller, op: Op): Poller {
    match op
    case Container(tk, key, stats, now) =>
      p.(tracker := p.tracker[tk := AdvanceContainer(TrackerOf(p, tk), stats, now)])
    case Scraped(s, now) =>
      if s.throttled.Some? && s.periods.Some?
      then p.(throttle := p.throttle[s.tk := AdvanceThrottle(ThrottleOf(p, s.tk), s, now)])
      else p
    case Sweep(now) => Swept(p, now)
    case Flush(_) => p
  }

  function Step(length: int, s: Polling, op: Op): Polling
    requires length > 0
  {
    var p, open := Advance(s.poller, op), ObserveAll(length, s.open, Emits(s.poller, op));
    if op.Flush?
    then Polling(p, StillOpen(length, open, op.now), s.handed + [ClosedAt(length, open, op.now)])
    else Polling(p, open, s.handed)
  }

  function RunOps(length: int, s: Polling, ops: seq<Op>): Polling
    requires length > 0
  {
    if ops == [] then s else Step(length, RunOps(length, s, ops[..|ops| - 1]), Last(ops))
  }

  /** A key's counter over every window there has been, handed over or open. */
  ghost function Everywhere(c: Counter, key: Key, s: Polling): int {
    AllWindows(s.open, s.handed, Weight(c, key))
  }

  /** The amounts a run emits for one key and counter. */
  function Moves(length: int, c: Counter, key: Key, s: Polling, ops: seq<Op>): int
    requires length > 0
  {
    if ops == [] then 0 else
    var init := ops[..|ops| - 1];
    Moves(length, c, key, s, init)
    + Contributions(c, key, Emits(RunOps(length, s, init).poller, Last(ops)))
  }

  lemma StepConserved(length: int, c: Counter, key: Key, s: Polling, op: Op)
    requires length > 0
    ensures Everywhere(c, key, Step(length, s, op))
         == Everywhere(c, key, s) + Contributions(c, key, Emits(s.poller, op))
  {
    hide Total, Emits, Advance, ObserveAll, StillOpen, ClosedAt, Contributions, HandedTotal;
    var os := Emits(s.poller, op);
    ObservationsConserved(length, c, key, s.open, os);
    if op.Flush? {
      HandOver(length, ObserveAll(length, s.open, os), s.handed, op.now, Weight(c, key));
    }
  }

  /** Main conservation result of the poller: over any run of container readings,
      scrapes, sweeps and flushes, a key's counter over all windows grows by
      exactly the sum of the deltas the baselines emitted for it. */
  lemma {:induction false} PollingConserved(length: int, c: Counter, key: Key, s: Polling, ops: seq<Op>)
    requires length > 0
    ensures Everywhere(c, key, RunOps(length, s, ops)) == Everywhere(c, key, s) + Moves(length, c, key, s, ops)
  {
    hide Everywhere, Step, Emits, Contributions;
    if ops != [] {
      PollingConserved(length, c, key, s, ops[..|ops| - 1]);
      StepConserved(length, c, key, RunOps(length, s, ops[..|ops| - 1]), Last(ops));
    }
  }
}
