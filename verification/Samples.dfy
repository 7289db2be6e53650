/** What a record means in terms of the observations themselves: every counter, count,
    extremum, sum and bucket, and when a window has a record at all
    (internal/rollup/accumulator.go, internal/rollup/record.go). */
module Samples {
  import opened Basics
  import opened Windows
  import opened Histograms
  import opened HistogramCodec
  import opened Records
  import opened Rollups
  import opened Journals
  import opened Conservation

  /** What is filed under a window: rate and working-set samples, amounts of a counter,
      and the three sample counts. */
  datatype Filing = Rate | WorkingSet | Added(c: Counter) | ThrottlingCount | CPUStallCount | MemoryStallCount

  // ---- what one observation files under one window ----

  /** The aligned window starting at w holds an instant. */
  predicate Holds(length: int, w: int, at: int)
    requires length > 0
  {
    w % length == 0 && w <= at < w + length
  }

  /** The aligned window starting at w overlaps an interval. */
  predicate Overlaps(length: int, w: int, from: int, to: int)
    requires length > 0
  {
    w % length == 0 && from < to && w < to && from < w + length
  }

  /** What an interval observation carries for a counter; a CPU delta covers its interval. */
  function Carries(c: Counter, o: Observation): Option<int> {
    match o
    case CPUDelta(_, from, to, core) =>
      if core < 0 then None else if c.Core? then Some(core)
      else if c.Covered? then Some(Min(to - from, MAX_INT64)) else None
    case Throttling(_, _, _, throttled, total) =>
      if c.Throttled? then Some(throttled) else if c.Periods? then Some(total) else None
    case CPUPSI(_, _, _, stall) => if c.CPUStall? then Some(stall) else None
    case MemoryPSI(_, _, _, stall) => if c.MemoryStall? then Some(stall) else None
    case Memory(_, _, _) => None
  }

  /** The parts of a split that fall to one window: none or one. */
  function PartsAt(parts: seq<Part>, w: int): seq<int> {
    if parts == [] then [] else
    PartsAt(parts[..|parts| - 1], w) + if Last(parts).start == w then [Last(parts).amount] else []
  }

  /** The mean rate over an interval in thousandths of a core. */
  function Millicores(from: int, to: int, coreNanos: nat): int
    requires from < to
  {
    Min(coreNanos * 1000 / Min(to - from, MAX_INT64), MAX_INT64)
  }

  predicate Counts(length: int, o: Observation, w: int)
    requires length > 0 && !o.Memory?
  {
    o.from < o.to && Holds(length, w, o.to - 1)
  }

  /** What an observation files under a window of its key. */
  function Files(f: Filing, length: int, o: Observation, ok: OpenKey): seq<int>
    requires length > 0
  {
    if o.key != ok.of then [] else
    match f
    case Rate =>
      if o.CPUDelta? && o.coreNanos >= 0 && Counts(length, o, ok.start)
      then [Millicores(o.from, o.to, o.coreNanos)] else []
    case WorkingSet =>
      if o.Memory? && o.workingSetBytes >= 0 && Holds(length, ok.start, o.at) then [o.workingSetBytes] else []
    case Added(c) =>
      if Carries(c, o).Some? then PartsAt(SplitSpec(length, o.from, o.to, Carries(c, o).value), ok.start) else []
    case ThrottlingCount => if o.Throttling? && Counts(length, o, ok.start) then [1] else []
    case CPUStallCount => if o.CPUPSI? && Counts(length, o, ok.start) then [1] else []
    case MemoryStallCount => if o.MemoryPSI? && Counts(length, o, ok.start) then [1] else []
  }

  /** Whether an observation opens a window: a CPU delta and a sample where they fall, the
      rest also where only their count falls. */
  predicate Opens(length: int, o: Observation, ok: OpenKey)
    requires length > 0
  {
    && o.key == ok.of
    && match o
       case CPUDelta(_, from, to, core) => core >= 0 && Overlaps(length, ok.start, from, to)
       case Throttling(_, from, to, throttled, total) =>
         ((throttled >= 0 || total >= 0) && Overlaps(length, ok.start, from, to)) || Counts(length, o, ok.start)
       case CPUPSI(_, from, to, stall) =>
         (stall >= 0 && Overlaps(length, ok.start, from, to)) || Counts(length, o, ok.start)
       case MemoryPSI(_, from, to, stall) =>
         (stall >= 0 && Overlaps(length, ok.start, from, to)) || Counts(length, o, ok.start)
       case Memory(_, at, bytes) => bytes >= 0 && Holds(length, ok.start, at)
  }

  /** What a run files under a window. */
  function FiledOver(f: Filing, length: int, os: seq<Observation>, ok: OpenKey): seq<int>
    requires length > 0
  {
    if os == [] then [] else FiledOver(f, length, os[..|os| - 1], ok) + Files(f, length, Last(os), ok)
  }

  // ---- what the record holds ----

  /** How many samples fall in a bucket. */
  function InBucket(anchor: nat, xs: seq<int>, i: int): nat {
    if xs == [] then 0
    else InBucket(anchor, xs[..|xs| - 1], i) + if Index(anchor, Last(xs)) == i then 1 else 0
  }

  ghost predicate Extremes(xs: seq<int>, low: int, high: int) {
    if xs == [] then low == 0 && high == 0
    else low in xs && high in xs && forall x :: x in xs ==> low <= x <= high
  }

  ghost predicate Buckets(xs: seq<int>, h: Histogram) {
    forall i :: (i in h.counts <==> InBucket(h.anchorShift, xs, i) > 0)
      && Get(h.counts, i) == InBucket(h.anchorShift, xs, i)
  }

  ghost predicate Describes(u: CPUUsage, xs: seq<int>) {
    u.hist.anchorShift == CPU_ANCHOR_SHIFT && u.samples == |xs| && Extremes(xs, u.minMilli, u.maxMilli)
    && Buckets(xs, u.hist)
  }

  ghost predicate DescribesMemory(u: MemoryUsage, xs: seq<int>) {
    && u.hist.anchorShift == MEMORY_ANCHOR_SHIFT && u.samples == |xs|
    && Extremes(xs, u.minBytes, u.maxBytes) && Buckets(xs, u.hist)
    && u.sumBytes == SumSeq(xs)
  }

  /** A record holds exactly what was filed. */
  ghost predicate Tells(r: Rollup, filed: Filing -> seq<int>) {
    && Describes(r.cpu, filed(Rate))
    && DescribesMemory(r.memory, filed(WorkingSet))
    && (forall c :: AmountIn(c, r) == SumSeq(filed(Added(c))))
    && r.cpu.throttlingSamples == |filed(ThrottlingCount)|
    && r.cpu.psiSamples == |filed(CPUStallCount)|
    && r.memory.psiSamples == |filed(MemoryStallCount)|
  }

  lemma ExtremesStep(xs: seq<int>, low: int, high: int, x: int)
    requires Extremes(xs, low, high)
    ensures Extremes(xs + [x], if xs == [] || x < low then x else low, if xs == [] || x > high then x else high)
  {
    assert forall y :: y in xs + [x] <==> y in xs || y == x;
  }

  lemma BucketsStep(xs: seq<int>, h: Histogram, x: int)
    requires Buckets(xs, h)
    ensures Buckets(xs + [x], Observed(h, x))
  {
    hide Index;
    assert (xs + [x])[..|xs + [x]| - 1] == xs;
  }

  lemma RateDescribes(u: CPUUsage, xs: seq<int>, x: int)
    requires Describes(u, xs)
    ensures Describes(WithRate(u, x), xs + [x])
  {
    hide Observed, Buckets, Extremes;
    ExtremesStep(xs, u.minMilli, u.maxMilli, x);
    BucketsStep(xs, u.hist, x);
    GridKept(u.hist, x);
  }

  lemma BytesDescribe(u: MemoryUsage, xs: seq<int>, x: int)
    requires DescribesMemory(u, xs)
    ensures DescribesMemory(WithBytes(u, x), xs + [x])
  {
    hide Observed, Buckets, Extremes;
    ExtremesStep(xs, u.minBytes, u.maxBytes, x);
    BucketsStep(xs, u.hist, x);
    GridKept(u.hist, x);
    assert (xs + [x])[..|xs + [x]| - 1] == xs;
  }

  lemma GridKept(h: Histogram, x: int)
    ensures Observed(h, x).anchorShift == h.anchorShift
  {
  }

  // ---- field updates ----

  /** What one field update files. */
  function Carried(f: Filing, e: Edit): seq<int> {
    match e
    case AddCore(n) => if f == Added(Core) then [n] else []
    case AddCovered(n) => if f == Added(Covered) then [n] else []
    case AddThrottled(n) => if f == Added(Throttled) then [n] else []
    case AddPeriods(n) => if f == Added(Periods) then [n] else []
    case CountThrottling => if f == ThrottlingCount then [1] else []
    case AddCPUStall(n) => if f == Added(CPUStall) then [n] else []
    case CountCPUStall => if f == CPUStallCount then [1] else []
    case AddMemoryStall(n) => if f == Added(MemoryStall) then [n] else []
    case CountMemoryStall => if f == MemoryStallCount then [1] else []
    case SampleRate(v) => if f == Rate then [v] else []
    case SampleBytes(v) => if f == WorkingSet then [v] else []
  }

  function FiledIn(f: Filing, ts: seq<Touch>, ok: OpenKey): seq<int> {
    if ts == [] then [] else
    FiledIn(f, ts[..|ts| - 1], ok) + if Last(ts).at == ok then Carried(f, Last(ts).edit) else []
  }

  lemma FiledMore(f: Filing, ts: seq<Touch>, t: Touch, ok: OpenKey)
    ensures FiledIn(f, ts + [t], ok) == FiledIn(f, ts, ok) + if t.at == ok then Carried(f, t.edit) else []
  {
    assert (ts + [t])[..|ts + [t]| - 1] == ts;
  }

  lemma {:induction false} FiledConcat(f: Filing, a: seq<Touch>, b: seq<Touch>, ok: OpenKey)
    ensures FiledIn(f, a + b, ok) == FiledIn(f, a, ok) + FiledIn(f, b, ok)
  {
    hide Carried;
    if b == [] {
      assert a + b == a;
    } else {
      var init, t := b[..|b| - 1], Last(b);
      FiledConcat(f, a, init, ok);
      assert a + b == (a + init) + [t] && b == init + [t];
      FiledMore(f, a + init, t, ok);
      FiledMore(f, init, t, ok);
    }
  }

  lemma EditAmount(c: Counter, r: Rollup, e: Edit)
    ensures AmountIn(c, Edited(r, e)) == AmountIn(c, r) + SumSeq(Carried(Added(c), e))
  {
    hide Observed;
    assert forall n :: SumSeq([n]) == n;
  }

  lemma EditCounts(r: Rollup, e: Edit)
    ensures var after := Edited(r, e);
      && after.cpu.throttlingSamples == r.cpu.throttlingSamples + |Carried(ThrottlingCount, e)|
      && after.cpu.psiSamples == r.cpu.psiSamples + |Carried(CPUStallCount, e)|
      && after.memory.psiSamples == r.memory.psiSamples + |Carried(MemoryStallCount, e)|
  {
    hide Observed;
  }

  lemma EditSamples(r: Rollup, rates: seq<int>, sets: seq<int>, e: Edit)
    requires Describes(r.cpu, rates) && DescribesMemory(r.memory, sets)
    ensures Describes(Edited(r, e).cpu, rates + Carried(Rate, e))
    ensures DescribesMemory(Edited(r, e).memory, sets + Carried(WorkingSet, e))
  {
    hide Buckets, Extremes, Observed, SumSeq;
    assert rates + [] == rates && sets + [] == sets;
    if e.SampleRate? {
      hide Describes, WithRate;
      RateDescribes(r.cpu, rates, e.value);
    } else if e.SampleBytes? {
      hide DescribesMemory, WithBytes;
      BytesDescribe(r.memory, sets, e.value);
    }
  }

  lemma EditRecords(r: Rollup, was: Filing -> seq<int>, e: Edit)
    requires Tells(r, was)
    ensures Tells(Edited(r, e), (f: Filing) => was(f) + Carried(f, e))
  {
    hide Describes, DescribesMemory, Carried, Edited, AmountIn;
    EditSamples(r, was(Rate), was(WorkingSet), e);
    EditCounts(r, e);
    forall c: Counter
      ensures AmountIn(c, Edited(r, e)) == SumSeq(was(Added(c)) + Carried(Added(c), e))
    {
      EditAmount(c, r, e);
      SumSeqConcat(was(Added(c)), Carried(Added(c), e));
    }
  }

  lemma NewRecords(key: Key, start: int, seconds: int, filed: Filing -> seq<int>)
    requires forall f :: filed(f) == []
    ensures Tells(NewRollup(key, start, seconds), filed)
  {
  }

  lemma SameRecords(r: Rollup, a: Filing -> seq<int>, b: Filing -> seq<int>)
    requires Tells(r, a) && forall f :: a(f) == b(f)
    ensures Tells(r, b)
  {
    hide Describes, DescribesMemory;
  }

  function FiledBy(ts: seq<Touch>, ok: OpenKey): Filing -> seq<int> { (f: Filing) => FiledIn(f, ts, ok) }

  /** Some field update reached the window. */
  ghost predicate Reached(ts: seq<Touch>, ok: OpenKey) {
    exists t :: t in ts && t.at == ok
  }

  lemma {:induction false} TouchesRecord(length: int, ts: seq<Touch>, ok: OpenKey)
    ensures var open := TouchedAll(length, map[], ts);
      && (ok in open <==> Reached(ts, ok))
      && Tells(RecordAt(length, open, ok), FiledBy(ts, ok))
  {
    hide Tells, Edited, Carried;
    if ts == [] {
      NewRecords(ok.of, ok.start, Seconds(length), FiledBy(ts, ok));
    } else {
      var init, t := ts[..|ts| - 1], Last(ts);
      TouchesRecord(length, init, ok);
      assert ts == init + [t];
      assert forall x :: x in ts <==> x in init || x == t;
      var r, was := RecordAt(length, TouchedAll(length, map[], init), ok), FiledBy(init, ok);
      if t.at == ok {
        EditRecords(r, was, t.edit);
        forall f: Filing
          ensures was(f) + Carried(f, t.edit) == FiledBy(ts, ok)(f)
        {
          FiledMore(f, init, t, ok);
        }
        SameRecords(Edited(r, t.edit), (f: Filing) => was(f) + Carried(f, t.edit), FiledBy(ts, ok));
      } else {
        forall f: Filing
          ensures was(f) == FiledBy(ts, ok)(f)
        {
          FiledMore(f, init, t, ok);
          assert was(f) + [] == was(f);
        }
        SameRecords(r, was, FiledBy(ts, ok));
      }
    }
  }

  // ---- from observations to field updates ----

  lemma {:induction false} PartsFile(f: Filing, key: Key, c: Counter, parts: seq<Part>, ok: OpenKey)
    ensures FiledIn(f, PartTouches(key, c, parts), ok)
         == if f == Added(c) && key == ok.of then PartsAt(parts, ok.start) else []
  {
    if parts != [] {
      var init, last := parts[..|parts| - 1], Last(parts);
      PartsFile(f, key, c, init, ok);
      var ts := PartTouches(key, c, parts);
      assert ts[..|ts| - 1] == PartTouches(key, c, init);
    }
  }

  lemma OneFiles(f: Filing, t: Touch, ok: OpenKey)
    ensures FiledIn(f, [t], ok) == if t.at == ok then Carried(f, t.edit) else []
  {
    hide Carried;
    FiledMore(f, [], t, ok);
    assert [] + [t] == [t];
    assert FiledIn(f, [], ok) == [];
    assert [] + Carried(f, t.edit) == Carried(f, t.edit);
  }

  lemma NoneFiles(f: Filing, ok: OpenKey)
    ensures FiledIn(f, [], ok) == []
  {
  }

  lemma CountFiles(f: Filing, length: int, key: Key, from: int, to: int, e: Edit, ok: OpenKey)
    requires length > 0
    ensures FiledIn(f, CountIf(length, key, from, to, e), ok)
         == if from < to && key == ok.of && Holds(length, ok.start, to - 1) then Carried(f, e) else []
  {
    hide Carried, StartOf;
    NoneFiles(f, ok);
    StartOfUnique(length, to - 1, ok.start);
    if from < to {
      OneFiles(f, Touch(LastInstant(length, key, to), e), ok);
    }
  }

  lemma RateIs(from: int, to: int, core: nat)
    requires from < to
    ensures MulDiv(core, 1000, Sub(to, from)) == Millicores(from, to, core)
  {
    hide MulDiv;
    MulDivExact(core, 1000, Sub(to, from));
  }

  lemma NothingSplit(length: int, from: int, to: int, amount: int, w: int)
    requires length > 0 && to <= from
    ensures PartsAt(SplitSpec(length, from, to, amount), w) == []
  {
  }

  lemma DeltaFiles(f: Filing, length: int, o: Observation, ok: OpenKey)
    requires length > 0 && o.CPUDelta?
    ensures FiledIn(f, Touches(length, o), ok) == Files(f, length, o, ok)
  {
    hide FiledIn, PartsAt, MulDiv, StartOf, SplitSpec, PartTouches, Millicores;
    var k, from, to, core := o.key, o.from, o.to, o.coreNanos;
    NoneFiles(f, ok);
    if core >= 0 {
      NothingSplit2(length, from, to, core, ok.start);
      if from < to {
        RateIs(from, to, core);
        StartOfUnique(length, to - 1, ok.start);
        var a, b := ProRata(length, k, from, to, core, Core), ProRata(length, k, from, to, Sub(to, from), Covered);
        var c := Touch(LastInstant(length, k, to), SampleRate(MulDiv(core, 1000, Sub(to, from))));
        PartsFile(f, k, Core, SplitSpec(length, from, to, core), ok);
        PartsFile(f, k, Covered, SplitSpec(length, from, to, Sub(to, from)), ok);
        OneFiles(f, c, ok);
        FiledConcat(f, a + b, [c], ok);
        FiledConcat(f, a, b, ok);
      }
    }
  }

  lemma NothingSplit2(length: int, from: int, to: int, amount: int, w: int)
    requires length > 0
    ensures to <= from ==> PartsAt(SplitSpec(length, from, to, amount), w) == []
    ensures to <= from ==> PartsAt(SplitSpec(length, from, to, Min(to - from, MAX_INT64)), w) == []
  {
    if to <= from {
      NothingSplit(length, from, to, amount, w);
      NothingSplit(length, from, to, Min(to - from, MAX_INT64), w);
    }
  }

  lemma PairFiles(f: Filing, length: int, o: Observation, ok: OpenKey)
    requires length > 0 && !o.CPUDelta? && !o.Memory?
    ensures FiledIn(f, Touches(length, o), ok) == Files(f, length, o, ok)
  {
    hide FiledIn, PartsAt, StartOf, SplitSpec, PartTouches;
    match o
    case Throttling(k, from, to, throttled, total) =>
      var a, b := ProRata(length, k, from, to, throttled, Throttled), ProRata(length, k, from, to, total, Periods);
      PartsFile(f, k, Throttled, SplitSpec(length, from, to, throttled), ok);
      PartsFile(f, k, Periods, SplitSpec(length, from, to, total), ok);
      CountFiles(f, length, k, from, to, CountThrottling, ok);
      FiledConcat(f, a + b, CountIf(length, k, from, to, CountThrottling), ok);
      FiledConcat(f, a, b, ok);
    case CPUPSI(k, from, to, stall) =>
      PartsFile(f, k, CPUStall, SplitSpec(length, from, to, stall), ok);
      CountFiles(f, length, k, from, to, CountCPUStall, ok);
      FiledConcat(f, ProRata(length, k, from, to, stall, CPUStall), CountIf(length, k, from, to, CountCPUStall), ok);
    case MemoryPSI(k, from, to, stall) =>
      PartsFile(f, k, MemoryStall, SplitSpec(length, from, to, stall), ok);
      CountFiles(f, length, k, from, to, CountMemoryStall, ok);
      FiledConcat(f, ProRata(length, k, from, to, stall, MemoryStall),
        CountIf(length, k, from, to, CountMemoryStall), ok);
  }

  /** One observation files under each window exactly what its own fields say: the rate
      over its interval in the window holding its last instant, its amounts in the parts
      of its interval, its working set where it was taken. */
  lemma ObservationFiles(f: Filing, length: int, o: Observation, ok: OpenKey)
    requires length > 0
    ensures FiledIn(f, Touches(length, o), ok) == Files(f, length, o, ok)
  {
    if o.CPUDelta? {
      DeltaFiles(f, length, o, ok);
    } else if o.Memory? {
      StartOfUnique(length, o.at, ok.start);
      if o.workingSetBytes >= 0 {
        OneFiles(f, Touch(Slot(o.key, StartOf(length, o.at)), SampleBytes(o.workingSetBytes)), ok);
      }
    } else {
      PairFiles(f, length, o, ok);
    }
  }

  // ---- which windows have a record ----

  lemma {:induction false} Progression(length: int, from: int, to: int, parts: seq<Part>, i: nat)
    requires length > 0 && Consecutive(length, from, to, parts) && i < |parts|
    ensures parts[i].start == parts[0].start + i * length
  {
    if i > 0 {
      Progression(length, from, to, parts, i - 1);
      assert i * length == (i - 1) * length + length;
    }
  }

  /** Split parts go to exactly the windows their interval overlaps. */
  lemma SplitReaches(length: int, from: int, to: int, amount: int, w: int)
    requires length > 0
    ensures (exists p :: p in SplitSpec(length, from, to, amount) && p.start == w) <==>
      amount >= 0 && Overlaps(length, w, from, to)
  {
    hide SplitFrom, MulDiv, StartOf;
    var parts := SplitSpec(length, from, to, amount);
    if amount >= 0 && from < to {
      SplitFromWindows(length, to, amount, Sub(to, from), from, amount);
      var s0, s1 := StartOf(length, from), StartOf(length, to - 1);
      StartOfUnique(length, from, s0);
      StartOfUnique(length, to - 1, s1);
      Progression(length, from, to, parts, |parts| - 1);
      if p :| p in parts && p.start == w {
        var i :| 0 <= i < |parts| && parts[i] == p;
        Progression(length, from, to, parts, i);
        StepsUp(length, i, |parts| - 1);
        AlignedSum(s0, i, length);
      }
      if Overlaps(length, w, from, to) {
        BetweenAligned(length, s0, w, from);
        BetweenAligned(length, w, s1, to - 1);
        var i := (w - s0) / length;
        Quotient(length, s0, w);
        StepsDown(length, i, |parts| - 1, s0, w, s1);
        Progression(length, from, to, parts, i);
        assert parts[i] in parts;
      }
    }
  }

  lemma StepsUp(length: int, i: int, n: int)
    requires 0 < length && 0 <= i <= n
    ensures 0 <= i * length <= n * length
  {
    assert (n - i) * length >= 0;
  }

  lemma AlignedSum(s: int, i: int, length: int)
    requires length > 0 && s % length == 0
    ensures (s + i * length) % length == 0
  {
    var q := s / length;
    assert s + i * length == (q + i) * length;
    MultipleMod(q + i, length);
  }

  /** Of two aligned starts, the one whose window holds an earlier instant is not later. */
  lemma BetweenAligned(length: int, a: int, b: int, at: int)
    requires length > 0 && a % length == 0 && b % length == 0
    ensures a <= at < b + length ==> a <= b || at < a
    ensures a <= at && at < a + length && b + length > at ==> a <= b
    ensures b <= at && at < b + length && a <= at ==> a <= b
  {
    var p, q := a / length, b / length;
    assert a == length * p && b == length * q;
    if a > b {
      MulCancel(length, q, p);
      assert length * (p - q - 1) >= 0;
    }
  }

  lemma Quotient(length: int, s: int, w: int)
    requires length > 0 && s % length == 0 && w % length == 0 && s <= w
    ensures (w - s) / length >= 0 && s + (w - s) / length * length == w
  {
    var p, q := s / length, w / length;
    assert s == length * p && w == length * q;
    assert w - s == (q - p) * length;
    MultipleMod(q - p, length);
    DivLower(w - s, length, 0);
  }

  lemma StepsDown(length: int, i: int, n: int, s: int, w: int, last: int)
    requires length > 0 && s + i * length == w && s + n * length == last && w <= last
    ensures i <= n
  {
    assert length * (n + 1) == n * length + length;
    MulCancel(length, i, n + 1);
  }

  lemma {:induction false} PartsReach(key: Key, c: Counter, parts: seq<Part>, ok: OpenKey)
    ensures Reached(PartTouches(key, c, parts), ok) <==>
      key == ok.of && exists p :: p in parts && p.start == ok.start
  {
    if parts != [] {
      var init, last := parts[..|parts| - 1], Last(parts);
      PartsReach(key, c, init, ok);
      var ts := PartTouches(key, c, parts);
      assert ts == PartTouches(key, c, init) + [Touch(Slot(key, last.start), AddTo(c, last.amount))];
      assert parts == init + [last];
      ReachedConcat(PartTouches(key, c, init), [Touch(Slot(key, last.start), AddTo(c, last.amount))], ok);
      assert forall p :: p in parts <==> p in init || p == last;
    }
  }

  lemma ReachedConcat(a: seq<Touch>, b: seq<Touch>, ok: OpenKey)
    ensures Reached(a + b, ok) <==> Reached(a, ok) || Reached(b, ok)
  {
    assert forall t :: t in a + b <==> t in a || t in b;
  }

  lemma ProRataReaches(length: int, key: Key, from: int, to: int, amount: int, c: Counter, ok: OpenKey)
    requires length > 0
    ensures Reached(ProRata(length, key, from, to, amount, c), ok) <==>
      key == ok.of && amount >= 0 && Overlaps(length, ok.start, from, to)
  {
    hide SplitSpec;
    PartsReach(key, c, SplitSpec(length, from, to, amount), ok);
    SplitReaches(length, from, to, amount, ok.start);
  }

  lemma CountReaches(length: int, key: Key, from: int, to: int, e: Edit, ok: OpenKey)
    requires length > 0
    ensures Reached(CountIf(length, key, from, to, e), ok) <==>
      key == ok.of && from < to && Holds(length, ok.start, to - 1)
  {
    hide StartOf;
    StartOfUnique(length, to - 1, ok.start);
    if from < to {
      assert CountIf(length, key, from, to, e) == [Touch(LastInstant(length, key, to), e)];
    }
  }

  lemma LastOverlaps(length: int, w: int, from: int, to: int)
    requires length > 0 && from < to && Holds(length, w, to - 1)
    ensures Overlaps(length, w, from, to)
  {
  }

  /** One observation reaches exactly the windows it opens. */
  lemma ObservationReaches(length: int, o: Observation, ok: OpenKey)
    requires length > 0
    ensures Reached(Touches(length, o), ok) <==> Opens(length, o, ok)
  {
    hide ProRata, StartOf, MulDiv, Reached, CountIf, Overlaps, Holds;
    match o
    case CPUDelta(k, from, to, core) =>
      NoneReached(ok);
      OverlapsOrdered(length, ok.start, from, to);
      if core >= 0 && from < to {
        var a, b := ProRata(length, k, from, to, core, Core), ProRata(length, k, from, to, Sub(to, from), Covered);
        var c := [Touch(LastInstant(length, k, to), SampleRate(MulDiv(core, 1000, Sub(to, from))))];
        ProRataReaches(length, k, from, to, core, Core, ok);
        ProRataReaches(length, k, from, to, Sub(to, from), Covered, ok);
        OneReaches(c[0], ok);
        StartOfUnique(length, to - 1, ok.start);
        HoldsIs(length, ok.start, to - 1);
        if Holds(length, ok.start, to - 1) {
          LastOverlaps(length, ok.start, from, to);
        }
        ReachedConcat(a + b, c, ok);
        ReachedConcat(a, b, ok);
      }
    case Throttling(k, from, to, throttled, total) =>
      var a, b := ProRata(length, k, from, to, throttled, Throttled), ProRata(length, k, from, to, total, Periods);
      ProRataReaches(length, k, from, to, throttled, Throttled, ok);
      ProRataReaches(length, k, from, to, total, Periods, ok);
      CountReaches(length, k, from, to, CountThrottling, ok);
      ReachedConcat(a + b, CountIf(length, k, from, to, CountThrottling), ok);
      ReachedConcat(a, b, ok);
    case CPUPSI(k, from, to, stall) =>
      ProRataReaches(length, k, from, to, stall, CPUStall, ok);
      CountReaches(length, k, from, to, CountCPUStall, ok);
      ReachedConcat(ProRata(length, k, from, to, stall, CPUStall), CountIf(length, k, from, to, CountCPUStall), ok);
    case MemoryPSI(k, from, to, stall) =>
      ProRataReaches(length, k, from, to, stall, MemoryStall, ok);
      CountReaches(length, k, from, to, CountMemoryStall, ok);
      ReachedConcat(ProRata(length, k, from, to, stall, MemoryStall),
        CountIf(length, k, from, to, CountMemoryStall), ok);
    case Memory(k, at, bytes) =>
      NoneReached(ok);
      StartOfUnique(length, at, ok.start);
      HoldsIs(length, ok.start, at);
      if bytes >= 0 {
        OneReaches(Touch(Slot(k, StartOf(length, at)), SampleBytes(bytes)), ok);
      }
  }

  lemma NoneReached(ok: OpenKey)
    ensures !Reached([], ok)
  {
  }

  lemma OneReaches(t: Touch, ok: OpenKey)
    ensures Reached([t], ok) <==> t.at == ok
  {
    assert t in [t];
  }

  lemma HoldsIs(length: int, w: int, at: int)
    requires length > 0
    ensures Holds(length, w, at) <==> w % length == 0 && w <= at < w + length
  {
  }

  lemma OverlapsOrdered(length: int, w: int, from: int, to: int)
    requires length > 0
    ensures Overlaps(length, w, from, to) ==> from < to
  {
  }

  // ---- whole runs ----

  /** Every field update of a run, in order. */
  function AllTouches(length: int, os: seq<Observation>): seq<Touch>
    requires length > 0
  {
    if os == [] then [] else AllTouches(length, os[..|os| - 1]) + Touches(length, Last(os))
  }

  lemma {:induction false} RollupIsTouches(length: int, os: seq<Observation>)
    requires length > 0
    ensures RollupOf(length, os) == TouchedAll(length, map[], AllTouches(length, os))
  {
    hide Touches, TouchedAll;
    if os == [] {
      NoTouches(length);
    } else {
      var init := os[..|os| - 1];
      RollupIsTouches(length, init);
      TouchedAllConcat(length, map[], AllTouches(length, init), Touches(length, Last(os)));
    }
  }

  lemma NoTouches(length: int)
    ensures TouchedAll(length, map[], []) == map[]
  {
  }

  lemma {:induction false} RunFiles(f: Filing, length: int, os: seq<Observation>, ok: OpenKey)
    requires length > 0
    ensures FiledIn(f, AllTouches(length, os), ok) == FiledOver(f, length, os, ok)
  {
    hide Touches, Files;
    if os == [] {
      NoneFiles(f, ok);
    } else {
      var init := os[..|os| - 1];
      RunFiles(f, length, init, ok);
      FiledConcat(f, AllTouches(length, init), Touches(length, Last(os)), ok);
      ObservationFiles(f, length, Last(os), ok);
    }
  }

  lemma {:induction false} RunReaches(length: int, os: seq<Observation>, ok: OpenKey)
    requires length > 0
    ensures Reached(AllTouches(length, os), ok) <==> exists o :: o in os && Opens(length, o, ok)
  {
    hide Touches, Opens, Reached;
    if os == [] {
      NoneReached(ok);
    } else {
      var init := os[..|os| - 1];
      RunReaches(length, init, ok);
      ReachedConcat(AllTouches(length, init), Touches(length, Last(os)), ok);
      ObservationReaches(length, Last(os), ok);
      assert os == init + [Last(os)];
      assert forall o :: o in os <==> o in init || o == Last(os);
    }
  }

  function FiledFor(length: int, os: seq<Observation>, ok: OpenKey): Filing -> seq<int>
    requires length > 0
  {
    (f: Filing) => FiledOver(f, length, os, ok)
  }

  /** Main result: in the rollup of any run of observations - and so, by the merge
      property, in any merge of partial rollups - a window has a record exactly when some
      observation opens it, and the record holds exactly what the observations file under
      it: counters, counts, extrema, sums and buckets. */
  lemma RecordMeaning(length: int, os: seq<Observation>, ok: OpenKey)
    requires length > 0
    ensures var open := RollupOf(length, os);
      && (ok in open <==> exists o :: o in os && Opens(length, o, ok))
      && (ok in open ==> Tells(open[ok], FiledFor(length, os, ok)))
  {
    hide Tells, Reached, RollupOf, Opens;
    RollupIsTouches(length, os);
    TouchesRecord(length, AllTouches(length, os), ok);
    RunReaches(length, os, ok);
    forall f: Filing
      ensures FiledBy(AllTouches(length, os), ok)(f) == FiledFor(length, os, ok)(f)
    {
      RunFiles(f, length, os, ok);
    }
    if ok in RollupOf(length, os) {
      SameRecords(RollupOf(length, os)[ok], FiledBy(AllTouches(length, os), ok), FiledFor(length, os, ok));
    }
  }

  /** Ten seconds that used five core-seconds are one sample of 500 millicores, in the
      window holding the last instant. */
  lemma HalfCoreExample(key: Key, w: int)
    requires Holds(3600 * SECOND, w, 10 * SECOND - 1)
    ensures Files(Rate, 3600 * SECOND, CPUDelta(key, 0, 10 * SECOND, 5 * SECOND), Slot(key, w)) == [500]
  {
  }

  // ---- extrema against buckets ----

  lemma {:induction false} InBucketMember(anchor: nat, xs: seq<int>, i: int)
    ensures InBucket(anchor, xs, i) > 0 <==> exists x :: x in xs && Index(anchor, x) == i
  {
    hide Index;
    if xs != [] {
      var init := xs[..|xs| - 1];
      InBucketMember(anchor, init, i);
      assert xs == init + [Last(xs)];
      assert forall x :: x in xs <==> x in init || x == Last(xs);
    }
  }

  /** The extrema and the histogram agree: the lowest and the highest occupied
      buckets are those of the smallest and the largest sample. */
  lemma ExtremesBracketBuckets(h: Histogram, xs: seq<int>, low: int, high: int)
    requires h.anchorShift <= 62 && xs != [] && Extremes(xs, low, high) && Buckets(xs, h)
    requires forall x :: x in xs ==> 0 <= x <= MAX_INT64
    ensures Index(h.anchorShift, low) in h.counts && Index(h.anchorShift, high) in h.counts
    ensures forall i :: i in h.counts ==> Index(h.anchorShift, low) <= i <= Index(h.anchorShift, high)
  {
    hide Index, InBucket;
    InBucketMember(h.anchorShift, xs, Index(h.anchorShift, low));
    InBucketMember(h.anchorShift, xs, Index(h.anchorShift, high));
    forall i | i in h.counts
      ensures Index(h.anchorShift, low) <= i <= Index(h.anchorShift, high)
    {
      InBucketMember(h.anchorShift, xs, i);
      var x :| x in xs && Index(h.anchorShift, x) == i;
      IndexMonotone(h.anchorShift, low, x);
      IndexMonotone(h.anchorShift, x, high);
    }
  }

  function One(): (int, nat) -> int { (_: int, n: nat) => n }

  /** The histogram's counts add up to the number of samples. */
  lemma {:induction false} BucketsTotal(h: Histogram, xs: seq<int>)
    requires Buckets(xs, h)
    ensures Total(h.counts, One()) == |xs|
    decreases |xs|
  {
    hide Index;
    if xs == [] {
      assert forall i :: i !in h.counts;
      assert h.counts == map[];
    } else {
      var init, x := xs[..|xs| - 1], Last(xs);
      var i := Index(h.anchorShift, x);
      assert xs == init + [x];
      var less := h.(counts := if h.counts[i] == 1 then h.counts - {i} else h.counts[i := h.counts[i] - 1]);
      BucketsTotal(less, init);
      TotalRemove(h.counts, One(), i);
      if h.counts[i] > 1 {
        TotalUpdate(h.counts, One(), i, h.counts[i] - 1);
      }
    }
  }
}
