/** Counter totals over all windows: what an observation adds is what the
    records gain, however it is split (internal/rollup/accumulator.go,
    internal/rollup/window.go). */
module Conservation {
  import opened Basics
  import opened Windows
  import opened Records
  import opened Rollups
  import opened Journals

  /** A counter's amount in one record. */
  function AmountIn(c: Counter, r: Rollup): int {
    match c
    case Core => r.cpu.coreNanoseconds
    case Covered => r.cpu.coveredNanoseconds
    case Throttled => r.cpu.throttledPeriods
    case Periods => r.cpu.totalPeriods
    case CPUStall => r.cpu.psiStallNanoseconds
    case MemoryStall => r.memory.psiStallNanoseconds
  }

  function Weight(c: Counter, key: Key): (OpenKey, Rollup) -> int {
    (ok: OpenKey, r: Rollup) => if ok.of == key then AmountIn(c, r) else 0
  }

  /** A key's counter summed over the open windows. */
  ghost function TotalOf(c: Counter, key: Key, open: Open): int {
    Total(open, Weight(c, key))
  }

  /** What one field update adds to a counter. */
  function Gain(c: Counter, e: Edit): int {
    match e
    case AddCore(n) => if c.Core? then n else 0
    case AddCovered(n) => if c.Covered? then n else 0
    case AddThrottled(n) => if c.Throttled? then n else 0
    case AddPeriods(n) => if c.Periods? then n else 0
    case AddCPUStall(n) => if c.CPUStall? then n else 0
    case AddMemoryStall(n) => if c.MemoryStall? then n else 0
    case _ => 0
  }

  function GainAt(c: Counter, key: Key, t: Touch): int {
    if t.at.of == key then Gain(c, t.edit) else 0
  }

  lemma EditGains(c: Counter, r: Rollup, e: Edit)
    ensures AmountIn(c, Edited(r, e)) == AmountIn(c, r) + Gain(c, e)
  {
  }

  lemma TouchGains(length: int, c: Counter, key: Key, open: Open, t: Touch)
    ensures TotalOf(c, key, Touched(length, open, t)) == TotalOf(c, key, open) + GainAt(c, key, t)
  {
    hide Edited, AmountIn, Gain;
    var r := RecordAt(length, open, t.at);
    EditGains(c, r, t.edit);
    NothingIn(c, t.at.of, t.at.start, Seconds(length));
    TotalUpdate(open, Weight(c, key), t.at, Edited(r, t.edit));
  }

  lemma NothingIn(c: Counter, key: Key, start: int, seconds: int)
    ensures AmountIn(c, NewRollup(key, start, seconds)) == 0
  {
  }

  function Gains(c: Counter, key: Key, ts: seq<Touch>): int {
    if ts == [] then 0 else Gains(c, key, ts[..|ts| - 1]) + GainAt(c, key, Last(ts))
  }

  lemma {:induction false} TouchesGain(length: int, c: Counter, key: Key, open: Open, ts: seq<Touch>)
    ensures TotalOf(c, key, TouchedAll(length, open, ts)) == TotalOf(c, key, open) + Gains(c, key, ts)
  {
    hide TotalOf, Touched, GainAt;
    if ts != [] {
      TouchesGain(length, c, key, open, ts[..|ts| - 1]);
      TouchGains(length, c, key, TouchedAll(length, open, ts[..|ts| - 1]), Last(ts));
    }
  }

  lemma {:induction false} GainsConcat(c: Counter, key: Key, a: seq<Touch>, b: seq<Touch>)
    ensures Gains(c, key, a + b) == Gains(c, key, a) + Gains(c, key, b)
  {
    hide GainAt;
    if b == [] {
      assert a + b == a;
    } else {
      GainsConcat(c, key, a, b[..|b| - 1]);
      assert (a + b)[..|a + b| - 1] == a + b[..|b| - 1];
    }
  }

  lemma GainsOne(c: Counter, key: Key, t: Touch)
    ensures Gains(c, key, [t]) == GainAt(c, key, t)
  {
    assert [t][..0] == [];
  }

  lemma {:induction false} PartsGain(c: Counter, key: Key, k: Key, d: Counter, parts: seq<Part>)
    ensures Gains(c, key, PartTouches(k, d, parts)) == if c == d && k == key then SumSeq(Amounts(parts)) else 0
  {
    if parts != [] {
      var init := parts[..|parts| - 1];
      PartsGain(c, key, k, d, init);
      var ts := PartTouches(k, d, parts);
      assert ts[..|ts| - 1] == PartTouches(k, d, init);
      assert Amounts(parts)[..|parts| - 1] == Amounts(init);
    }
  }

  /** A delta over an interval counts when the interval is not empty and the
      delta is not negative. */
  function Counted(from: int, to: int, amount: int): int {
    if from < to && amount >= 0 then amount else 0
  }

  lemma ProRataGain(length: int, c: Counter, key: Key, k: Key, from: int, to: int, amount: int, d: Counter)
    requires length > 0
    ensures Gains(c, key, ProRata(length, k, from, to, amount, d))
         == if c == d && k == key then Counted(from, to, amount) else 0
  {
    hide SplitFrom, Gains;
    var parts := SplitSpec(length, from, to, amount);
    PartsGain(c, key, k, d, parts);
    if from < to && amount >= 0 {
      SplitFromSum(length, to, amount, Sub(to, from), from, amount);
    }
  }

  /** What an observation states about a counter. */
  function Contribution(c: Counter, key: Key, o: Observation): int {
    if o.key != key then 0 else
    match o
    case CPUDelta(_, from, to, core) =>
      if core < 0 then 0
      else if c.Core? then Counted(from, to, core)
      else if c.Covered? then Counted(from, to, Sub(to, from))
      else 0
    case Throttling(_, from, to, throttled, total) =>
      if c.Throttled? then Counted(from, to, throttled)
      else if c.Periods? then Counted(from, to, total)
      else 0
    case CPUPSI(_, from, to, stall) => if c.CPUStall? then Counted(from, to, stall) else 0
    case MemoryPSI(_, from, to, stall) => if c.MemoryStall? then Counted(from, to, stall) else 0
    case Memory(_, _, _) => 0
  }

  lemma CountIfGain(length: int, c: Counter, key: Key, k: Key, from: int, to: int, e: Edit)
    requires length > 0 && (e.CountThrottling? || e.CountCPUStall? || e.CountMemoryStall?)
    ensures Gains(c, key, CountIf(length, k, from, to, e)) == 0
  {
    hide StartOf;
    if to > from {
      GainsOne(c, key, Touch(LastInstant(length, k, to), e));
    }
  }

  lemma ObservationGain(length: int, c: Counter, key: Key, o: Observation)
    requires length > 0
    ensures Gains(c, key, Touches(length, o)) == Contribution(c, key, o)
  {
    hide ProRata, CountIf, StartOf, MulDiv, Gains;
    match o
    case CPUDelta(k, from, to, core) =>
      GainsNone(c, key);
      if !(Sub(to, from) <= 0 || core < 0) {
        var a, b := ProRata(length, k, from, to, core, Core), ProRata(length, k, from, to, Sub(to, from), Covered);
        var t := Touch(LastInstant(length, k, to), SampleRate(MulDiv(core, 1000, Sub(to, from))));
        GainsConcat(c, key, a, b);
        GainsConcat(c, key, a + b, [t]);
        GainsOne(c, key, t);
        ProRataGain(length, c, key, k, from, to, core, Core);
        ProRataGain(length, c, key, k, from, to, Sub(to, from), Covered);
      }
    case Throttling(k, from, to, throttled, total) =>
      var a, b := ProRata(length, k, from, to, throttled, Throttled), ProRata(length, k, from, to, total, Periods);
      GainsConcat(c, key, a, b);
      GainsConcat(c, key, a + b, CountIf(length, k, from, to, CountThrottling));
      CountIfGain(length, c, key, k, from, to, CountThrottling);
      ProRataGain(length, c, key, k, from, to, throttled, Throttled);
      ProRataGain(length, c, key, k, from, to, total, Periods);
    case CPUPSI(k, from, to, stall) =>
      GainsConcat(c, key, ProRata(length, k, from, to, stall, CPUStall), CountIf(length, k, from, to, CountCPUStall));
      CountIfGain(length, c, key, k, from, to, CountCPUStall);
      ProRataGain(length, c, key, k, from, to, stall, CPUStall);
    case MemoryPSI(k, from, to, stall) =>
      GainsConcat(c, key, ProRata(length, k, from, to, stall, MemoryStall),
        CountIf(length, k, from, to, CountMemoryStall));
      CountIfGain(length, c, key, k, from, to, CountMemoryStall);
      ProRataGain(length, c, key, k, from, to, stall, MemoryStall);
    case Memory(k, at, bytes) =>
      GainsNone(c, key);
      if bytes >= 0 {
        GainsOne(c, key, Touch(Slot(k, StartOf(length, at)), SampleBytes(bytes)));
      }
  }

  lemma GainsNone(c: Counter, key: Key)
    ensures Gains(c, key, []) == 0
  {
  }

  /** One observation moves a key's total by exactly what it states, wherever
      the window boundaries fall. */
  lemma ObservationConserved(length: int, c: Counter, key: Key, open: Open, o: Observation)
    requires length > 0
    ensures TotalOf(c, key, Observe(length, open, o)) == TotalOf(c, key, open) + Contribution(c, key, o)
  {
    hide TotalOf, Touches, TouchedAll, Gains;
    TouchesGain(length, c, key, open, Touches(length, o));
    ObservationGain(length, c, key, o);
  }

  function Contributions(c: Counter, key: Key, os: seq<Observation>): int {
    if os == [] then 0 else Contributions(c, key, os[..|os| - 1]) + Contribution(c, key, Last(os))
  }

  lemma {:induction false} ObservationsConserved(length: int, c: Counter, key: Key, open: Open, os: seq<Observation>)
    requires length > 0
    ensures TotalOf(c, key, ObserveAll(length, open, os)) == TotalOf(c, key, open) + Contributions(c, key, os)
  {
    hide TotalOf, Observe, Contribution;
    if os != [] {
      ObservationsConserved(length, c, key, open, os[..|os| - 1]);
      ObservationConserved(length, c, key, ObserveAll(length, open, os[..|os| - 1]), Last(os));
    }
  }
}
