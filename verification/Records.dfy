/** One usage rollup: totals, extrema and histograms of one key over one window,
    and how two of them merge (internal/rollup/record.go). */
module Records {
  import opened Basics
  import opened Histograms
  import opened HistogramCodec

  datatype Key = Key(namespace: string, workloadKind: string, workloadName: string, container: string)

  datatype CPUUsage = CPUUsage(
    coreNanoseconds: int, coveredNanoseconds: int,
    throttledPeriods: int, totalPeriods: int, throttlingSamples: int,
    psiStallNanoseconds: int, psiSamples: int,
    samples: int, minMilli: int, maxMilli: int, hist: Histogram)

  datatype MemoryUsage = MemoryUsage(
    samples: int, minBytes: int, maxBytes: int, sumBytes: int,
    psiStallNanoseconds: int, psiSamples: int, hist: Histogram)

  datatype Rollup = Rollup(key: Key, start: int, seconds: int, cpu: CPUUsage, memory: MemoryUsage)

  const NO_CPU: CPUUsage :=
    CPUUsage(0, 0, 0, 0, 0, 0, 0, 0, 0, 0, Histogram(CPU_ANCHOR_SHIFT, map[]))

  const NO_MEMORY: MemoryUsage :=
    MemoryUsage(0, 0, 0, 0, 0, 0, Histogram(MEMORY_ANCHOR_SHIFT, map[]))

  function NewRollup(key: Key, start: int, seconds: int): Rollup {
    Rollup(key, start, seconds, NO_CPU, NO_MEMORY)
  }

  // ---- the single-field updates an observation is made of ----

  datatype Edit =
    | AddCore(amount: int)
    | AddCovered(amount: int)
    | AddThrottled(amount: int)
    | AddPeriods(amount: int)
    | CountThrottling
    | AddCPUStall(amount: int)
    | CountCPUStall
    | AddMemoryStall(amount: int)
    | CountMemoryStall
    | SampleRate(value: int)
    | SampleBytes(value: int)

  function WithRate(u: CPUUsage, milli: int): CPUUsage {
    u.(minMilli := if u.samples == 0 || milli < u.minMilli then milli else u.minMilli,
       maxMilli := if u.samples == 0 || milli > u.maxMilli then milli else u.maxMilli,
       samples := u.samples + 1,
       hist := Observed(u.hist, milli))
  }

  function WithBytes(u: MemoryUsage, bytes: int): MemoryUsage {
    u.(minBytes := if u.samples == 0 || bytes < u.minBytes then bytes else u.minBytes,
       maxBytes := if u.samples == 0 || bytes > u.maxBytes then bytes else u.maxBytes,
       samples := u.samples + 1,
       sumBytes := u.sumBytes + bytes,
       hist := Observed(u.hist, bytes))
  }

  function Edited(r: Rollup, e: Edit): Rollup {
    match e
    case AddCore(n) => r.(cpu := r.cpu.(coreNanoseconds := r.cpu.coreNanoseconds + n))
    case AddCovered(n) => r.(cpu := r.cpu.(coveredNanoseconds := r.cpu.coveredNanoseconds + n))
    case AddThrottled(n) => r.(cpu := r.cpu.(throttledPeriods := r.cpu.throttledPeriods + n))
    case AddPeriods(n) => r.(cpu := r.cpu.(totalPeriods := r.cpu.totalPeriods + n))
    case CountThrottling => r.(cpu := r.cpu.(throttlingSamples := r.cpu.throttlingSamples + 1))
    case AddCPUStall(n) => r.(cpu := r.cpu.(psiStallNanoseconds := r.cpu.psiStallNanoseconds + n))
    case CountCPUStall => r.(cpu := r.cpu.(psiSamples := r.cpu.psiSamples + 1))
    case AddMemoryStall(n) => r.(memory := r.memory.(psiStallNanoseconds := r.memory.psiStallNanoseconds + n))
    case CountMemoryStall => r.(memory := r.memory.(psiSamples := r.memory.psiSamples + 1))
    case SampleRate(v) => r.(cpu := WithRate(r.cpu, v))
    case SampleBytes(v) => r.(memory := WithBytes(r.memory, v))
  }

  // ---- merging ----

  function CombineCPU(a: CPUUsage, b: CPUUsage): CPUUsage {
    CPUUsage(
      a.coreNanoseconds + b.coreNanoseconds,
      a.coveredNanoseconds + b.coveredNanoseconds,
      a.throttledPeriods + b.throttledPeriods,
      a.totalPeriods + b.totalPeriods,
      a.throttlingSamples + b.throttlingSamples,
      a.psiStallNanoseconds + b.psiStallNanoseconds,
      a.psiSamples + b.psiSamples,
      if b.samples > 0 then a.samples + b.samples else a.samples,
      if b.samples > 0 && (a.samples == 0 || b.minMilli < a.minMilli) then b.minMilli else a.minMilli,
      if b.samples > 0 && (a.samples == 0 || b.maxMilli > a.maxMilli) then b.maxMilli else a.maxMilli,
      a.hist.(counts := MergeCounts(a.hist.counts, b.hist.counts)))
  }

  function CombineMemory(a: MemoryUsage, b: MemoryUsage): MemoryUsage {
    MemoryUsage(
      if b.samples > 0 then a.samples + b.samples else a.samples,
      if b.samples > 0 && (a.samples == 0 || b.minBytes < a.minBytes) then b.minBytes else a.minBytes,
      if b.samples > 0 && (a.samples == 0 || b.maxBytes > a.maxBytes) then b.maxBytes else a.maxBytes,
      if b.samples > 0 then a.sumBytes + b.sumBytes else a.sumBytes,
      a.psiStallNanoseconds + b.psiStallNanoseconds,
      a.psiSamples + b.psiSamples,
      a.hist.(counts := MergeCounts(a.hist.counts, b.hist.counts)))
  }

  /** The merge of two rollups that share key and window. */
  function Combine(a: Rollup, b: Rollup): Rollup {
    a.(cpu := CombineCPU(a.cpu, b.cpu), memory := CombineMemory(a.memory, b.memory))
  }

  predicate SameIdentity(a: Rollup, b: Rollup) {
    a.key == b.key && a.start == b.start && a.seconds == b.seconds
  }

  /** What every rollup the accumulator holds satisfies: no sample leaves no
      trace in the sampled fields, and the grids are the fields' own. */
  ghost predicate SoundCPU(u: CPUUsage) {
    && u.samples >= 0
    && (u.samples == 0 ==> u.minMilli == 0 && u.maxMilli == 0)
    && u.hist.anchorShift == CPU_ANCHOR_SHIFT
    && Valid(u.hist)
  }

  ghost predicate SoundMemory(u: MemoryUsage) {
    && u.samples >= 0
    && (u.samples == 0 ==> u.minBytes == 0 && u.maxBytes == 0 && u.sumBytes == 0)
    && u.hist.anchorShift == MEMORY_ANCHOR_SHIFT
    && Valid(u.hist)
  }

  ghost predicate Sound(r: Rollup) {
    SoundCPU(r.cpu) && SoundMemory(r.memory)
  }

  ghost predicate Positive(counts: map<int, nat>) {
    forall i :: i in counts ==> counts[i] > 0
  }

  lemma MergeCountsCommutes(a: map<int, nat>, b: map<int, nat>)
    requires Positive(a) && Positive(b)
    ensures MergeCounts(a, b) == MergeCounts(b, a)
  {
    hide MergeCounts;
    forall i
      ensures i in MergeCounts(a, b) <==> i in MergeCounts(b, a)
      ensures i in MergeCounts(a, b) && i in MergeCounts(b, a) ==> MergeCounts(a, b)[i] == MergeCounts(b, a)[i]
    {
      MergeCountsAt(a, b, i);
      MergeCountsAt(b, a, i);
    }
  }

  lemma MergeCountsAssociates(a: map<int, nat>, b: map<int, nat>, c: map<int, nat>)
    requires Positive(a) && Positive(b) && Positive(c)
    ensures MergeCounts(MergeCounts(a, b), c) == MergeCounts(a, MergeCounts(b, c))
  {
    hide MergeCounts;
    var left, right := MergeCounts(MergeCounts(a, b), c), MergeCounts(a, MergeCounts(b, c));
    forall i
      ensures i in left <==> i in right
      ensures i in left && i in right ==> left[i] == right[i]
    {
      MergeCountsAt(a, b, i);
      MergeCountsAt(b, c, i);
      MergeCountsAt(MergeCounts(a, b), c, i);
      MergeCountsAt(a, MergeCounts(b, c), i);
    }
    assert left == right;
  }

  lemma MergeCountsEmpty(a: map<int, nat>)
    requires Positive(a)
    ensures MergeCounts(a, map[]) == a && MergeCounts(map[], a) == a
  {
  }

  lemma CombineCommutes(a: Rollup, b: Rollup)
    requires Sound(a) && Sound(b) && SameIdentity(a, b)
    ensures Combine(a, b) == Combine(b, a)
  {
    hide MergeCounts, Reachable;
    MergeCountsCommutes(a.cpu.hist.counts, b.cpu.hist.counts);
    MergeCountsCommutes(a.memory.hist.counts, b.memory.hist.counts);
  }

  lemma CombineAssociates(a: Rollup, b: Rollup, c: Rollup)
    requires Sound(a) && Sound(b) && Sound(c)
    ensures Combine(Combine(a, b), c) == Combine(a, Combine(b, c))
  {
    hide MergeCounts, Reachable;
    MergeCountsAssociates(a.cpu.hist.counts, b.cpu.hist.counts, c.cpu.hist.counts);
    MergeCountsAssociates(a.memory.hist.counts, b.memory.hist.counts, c.memory.hist.counts);
  }

  /** A record nothing was observed in is the identity of the merge. */
  lemma CombineEmpty(r: Rollup)
    requires Sound(r)
    ensures Combine(NewRollup(r.key, r.start, r.seconds), r) == r
    ensures Combine(r, NewRollup(r.key, r.start, r.seconds)) == r
  {
    hide MergeCounts, Reachable;
    MergeCountsEmpty(r.cpu.hist.counts);
    MergeCountsEmpty(r.memory.hist.counts);
  }

  /** Samples an edit may carry: int64 values. */
  predicate InRange(e: Edit) {
    (e.SampleRate? || e.SampleBytes?) ==> e.value <= MAX_INT64
  }

  lemma EditedSound(r: Rollup, e: Edit)
    requires Sound(r) && InRange(e)
    ensures Sound(Edited(r, e))
  {
    hide Observed, Reachable;
    if e.SampleRate? {
      ObservedSound(r.cpu.hist, e.value);
    } else if e.SampleBytes? {
      ObservedSound(r.memory.hist, e.value);
    }
  }

  lemma ObservedSound(h: Histogram, v: int)
    requires Valid(h) && v <= MAX_INT64
    ensures Valid(Observed(h, v)) && Observed(h, v).anchorShift == h.anchorShift
  {
    ObservedValid(h, v);
  }

  /** Every edit is a merge with the record that edit alone would have made. */
  lemma EditIsCombine(r: Rollup, e: Edit)
    requires Sound(r)
    ensures Edited(r, e) == Combine(r, Edited(NewRollup(r.key, r.start, r.seconds), e))
  {
    hide MergeCounts, Observed, Reachable;
    MergeCountsEmpty(r.cpu.hist.counts);
    MergeCountsEmpty(r.memory.hist.counts);
    if e.SampleRate? {
      ObservedIsMerge(r.cpu.hist, e.value);
    } else if e.SampleBytes? {
      ObservedIsMerge(r.memory.hist, e.value);
    }
  }

  lemma ObservedIsMerge(h: Histogram, v: int)
    ensures var one := Observed(Histogram(h.anchorShift, map[]), v);
      Observed(h, v) == h.(counts := MergeCounts(h.counts, one.counts))
  {
    hide Index;
    var one := Observed(Histogram(h.anchorShift, map[]), v).counts;
    assert one == map[Index(h.anchorShift, v) := 1];
    var left, right := Observed(h, v).counts, MergeCounts(h.counts, one);
    forall i
      ensures i in left <==> i in right
      ensures i in left && i in right ==> left[i] == right[i]
    {
      MergeCountsAt(h.counts, one, i);
    }
    assert left == right;
  }
}
