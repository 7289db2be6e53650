/** The accumulator as the object it is: open records updated in place
    (internal/rollup/accumulator.go, internal/rollup/record.go). */
module Accumulators {
  import opened Basics
  import opened Windows
  import opened Histograms
  import opened HistogramCodec
  import opened Records
  import opened Rollups
  import opened Orders
  import opened Journals
  import Recovery

  /** Totals add, extrema combine while either side has samples, histograms
      merge bucket by bucket. */
  method MergeCPU(u: CPUUsage, o: CPUUsage) returns (c: CPUUsage)
    requires u.hist.anchorShift == o.hist.anchorShift
    ensures c == CombineCPU(u, o)
  {
    hide MergeCounts;
    c := u.(coreNanoseconds := u.coreNanoseconds + o.coreNanoseconds,
            coveredNanoseconds := u.coveredNanoseconds + o.coveredNanoseconds,
            throttledPeriods := u.throttledPeriods + o.throttledPeriods,
            totalPeriods := u.totalPeriods + o.totalPeriods,
            throttlingSamples := u.throttlingSamples + o.throttlingSamples,
            psiStallNanoseconds := u.psiStallNanoseconds + o.psiStallNanoseconds,
            psiSamples := u.psiSamples + o.psiSamples);
    if o.samples > 0 {
      if c.samples == 0 || o.minMilli < c.minMilli {
        c := c.(minMilli := o.minMilli);
      }
      if c.samples == 0 || o.maxMilli > c.maxMilli {
        c := c.(maxMilli := o.maxMilli);
      }
      c := c.(samples := c.samples + o.samples);
    }
    var merged := HistogramCodec.Merge(c.hist, o.hist);
    c := c.(hist := merged.value);
  }

  method MergeMemory(u: MemoryUsage, o: MemoryUsage) returns (m: MemoryUsage)
    requires u.hist.anchorShift == o.hist.anchorShift
    ensures m == CombineMemory(u, o)
  {
    hide MergeCounts;
    m := u.(psiStallNanoseconds := u.psiStallNanoseconds + o.psiStallNanoseconds,
            psiSamples := u.psiSamples + o.psiSamples);
    if o.samples > 0 {
      if m.samples == 0 || o.minBytes < m.minBytes {
        m := m.(minBytes := o.minBytes);
      }
      if m.samples == 0 || o.maxBytes > m.maxBytes {
        m := m.(maxBytes := o.maxBytes);
      }
      m := m.(samples := m.samples + o.samples, sumBytes := m.sumBytes + o.sumBytes);
    }
    var merged := HistogramCodec.Merge(m.hist, o.hist);
    m := m.(hist := merged.value);
  }

  /** One open record. */
  class Record {
    const key: Key
    const start: int
    const seconds: int
    var cpu: CPUUsage
    var memory: MemoryUsage

    function Value(): Rollup
      reads this
    {
      Rollup(key, start, seconds, cpu, memory)
    }

    constructor (key: Key, start: int, seconds: int)
      ensures Value() == NewRollup(key, start, seconds)
    {
      this.key, this.start, this.seconds := key, start, seconds;
      cpu, memory := NO_CPU, NO_MEMORY;
    }

    /** A deep copy: later updates of the original do not reach it. */
    constructor Clone(r: Record)
      ensures Value() == r.Value()
    {
      key, start, seconds := r.key, r.start, r.seconds;
      cpu, memory := r.cpu, r.memory;
    }

    method ObserveRate(milli: int)
      modifies this
      ensures Value() == Edited(old(Value()), SampleRate(milli))
    {
      if cpu.samples == 0 || milli < cpu.minMilli {
        cpu := cpu.(minMilli := milli);
      }
      if cpu.samples == 0 || milli > cpu.maxMilli {
        cpu := cpu.(maxMilli := milli);
      }
      cpu := cpu.(samples := cpu.samples + 1);
      cpu := cpu.(hist := Observed(cpu.hist, milli));
    }

    method ObserveBytes(bytes: int)
      modifies this
      ensures Value() == Edited(old(Value()), SampleBytes(bytes))
    {
      if memory.samples == 0 || bytes < memory.minBytes {
        memory := memory.(minBytes := bytes);
      }
      if memory.samples == 0 || bytes > memory.maxBytes {
        memory := memory.(maxBytes := bytes);
      }
      memory := memory.(samples := memory.samples + 1);
      memory := memory.(sumBytes := memory.sumBytes + bytes);
      memory := memory.(hist := Observed(memory.hist, bytes));
    }

    /** One field update, as the callbacks of the pro-rata splitter and the
        sample counters make it. */
    method Apply(e: Edit)
      modifies this
      ensures Value() == Edited(old(Value()), e)
    {
      match e
      case AddCore(n) => cpu := cpu.(coreNanoseconds := cpu.coreNanoseconds + n);
      case AddCovered(n) => cpu := cpu.(coveredNanoseconds := cpu.coveredNanoseconds + n);
      case AddThrottled(n) => cpu := cpu.(throttledPeriods := cpu.throttledPeriods + n);
      case AddPeriods(n) => cpu := cpu.(totalPeriods := cpu.totalPeriods + n);
      case CountThrottling => cpu := cpu.(throttlingSamples := cpu.throttlingSamples + 1);
      case AddCPUStall(n) => cpu := cpu.(psiStallNanoseconds := cpu.psiStallNanoseconds + n);
      case CountCPUStall => cpu := cpu.(psiSamples := cpu.psiSamples + 1);
      case AddMemoryStall(n) => memory := memory.(psiStallNanoseconds := memory.psiStallNanoseconds + n);
      case CountMemoryStall => memory := memory.(psiSamples := memory.psiSamples + 1);
      case SampleRate(v) => ObserveRate(v);
      case SampleBytes(v) => ObserveBytes(v);
    }

    /** Folding another record in, field by field. */
    method Merge(o: Rollup) returns (ok: bool)
      requires cpu.hist.anchorShift == o.cpu.hist.anchorShift
      requires memory.hist.anchorShift == o.memory.hist.anchorShift
      modifies this
      ensures ok == SameIdentity(old(Value()), o)
      ensures Value() == if ok then Combine(old(Value()), o) else old(Value())
    {
      hide CombineCPU, CombineMemory;
      ok := key == o.key && start == o.start && seconds == o.seconds;
      if ok {
        cpu := MergeCPU(cpu, o.cpu);
        memory := MergeMemory(memory, o.memory);
      }
    }
  }

  /** Assigns observations to windows and owns the open records. */
  class Accumulator {
    const length: int
    var open: map<OpenKey, Record>

    /** No two windows share a record, and every record is filed under its own
        key on the grids its fields are on. */
    ghost predicate Valid()
      reads this, open.Values
    {
      && length > 0
      && (forall ok :: ok in open ==>
            && open[ok].key == ok.of
            && open[ok].start == ok.start
            && open[ok].seconds == Seconds(length)
            && open[ok].cpu.hist.anchorShift == CPU_ANCHOR_SHIFT
            && open[ok].memory.hist.anchorShift == MEMORY_ANCHOR_SHIFT)
      && (forall a, b :: a in open && b in open && a != b ==> open[a] != open[b])
    }

    ghost function View(): Open
      reads this, open.Values
    {
      map ok | ok in open :: open[ok].Value()
    }

    constructor (length: int)
      requires length > 0
      ensures Valid() && open == map[] && View() == map[] && this.length == length
    {
      this.length := length;
      open := map[];
    }

    /** The record of an aligned window, created on first touch. */
    method RecordAt(ok: OpenKey) returns (r: Record)
      requires Valid()
      modifies this
      ensures Valid() && ok in open && open[ok] == r
      ensures fresh(open.Values - old(open.Values))
      ensures View() == old(View())[ok := Rollups.RecordAt(length, old(View()), ok)]
    {
      if ok in open {
        r := open[ok];
      } else {
        r := new Record(ok.of, ok.start, Seconds(length));
        open := open[ok := r];
      }
      assert View() == old(View())[ok := Rollups.RecordAt(length, old(View()), ok)];
    }

    /** Updating an open record in place. */
    method Update(ok: OpenKey, e: Edit)
      requires Valid() && ok in open
      modifies open[ok]
      ensures Valid()
      ensures View() == old(View())[ok := Edited(old(View())[ok], e)]
    {
      hide Edited, Seconds;
      var r := open[ok];
      GridsKept(r.Value(), e);
      ghost var was := View();
      assert forall k :: k in open && k != ok ==> open[k] != r;
      r.Apply(e);
      assert r.Value() == Edited(was[ok], e);
      assert r.cpu.hist.anchorShift == CPU_ANCHOR_SHIFT && r.memory.hist.anchorShift == MEMORY_ANCHOR_SHIFT;
    }

    /** One field update of one window's record. */
    method Touch(t: Rollups.Touch)
      requires Valid()
      modifies this, open.Values
      ensures Valid()
      ensures fresh(open.Values - old(open.Values))
      ensures View() == Touched(length, old(View()), t)
    {
      hide Edited, Valid, View;
      var _ := RecordAt(t.at);
      Update(t.at, t.edit);
    }

    /** Splitting a counter delta over the windows it overlaps. */
    method AddProRata(key: Key, from: int, to: int, amount: int, c: Counter)
      requires Valid()
      modifies this, open.Values
      ensures Valid()
      ensures fresh(open.Values - old(open.Values))
      ensures View() == TouchedAll(length, old(View()), ProRata(length, key, from, to, amount, c))
    {
      hide Touched, Valid, View, SplitSpec, TouchedAll;
      LengthPositive();
      var parts := Split(length, from, to, amount);
      ghost var ts := PartTouches(key, c, parts);
      TouchNone(length, View());
      for i := 0 to |parts|
        invariant Valid()
        invariant fresh(open.Values - old(open.Values))
        invariant View() == TouchedAll(length, old(View()), ts[..i])
      {
        var t := Rollups.Touch(Slot(key, parts[i].start), AddTo(c, parts[i].amount));
        assert t == ts[i] && ts[..i + 1] == ts[..i] + [t];
        TouchedAllStep(length, old(View()), ts[..i], t);
        Touch(t);
      }
      assert ts[..|parts|] == ts;
    }

    lemma LengthPositive()
      requires Valid()
      ensures length > 0
    {
    }

    method ObserveCPUDelta(key: Key, from: int, to: int, coreNanos: int)
      requires Valid()
      modifies this, open.Values
      ensures Valid()
      ensures fresh(open.Values - old(open.Values))
      ensures length > 0 && View() == Rollups.Observe(length, old(View()), CPUDelta(key, from, to, coreNanos))
    {
      hide Valid, View, ProRata, Touched, TouchedAll, MulDiv, StartOf, Sub;
      LengthPositive();
      ghost var was := View();
      TouchNone(length, was);
      if Sub(to, from) <= 0 || coreNanos < 0 {
        return;
      }
      AddProRata(key, from, to, coreNanos, Core);
      AddProRata(key, from, to, Sub(to, from), Covered);
      var t := Rollups.Touch(LastInstant(length, key, to), SampleRate(MulDiv(coreNanos, 1000, Sub(to, from))));
      Touch(t);
      ghost var a, b := ProRata(length, key, from, to, coreNanos, Core),
        ProRata(length, key, from, to, Sub(to, from), Covered);
      TouchedAllConcat(length, was, a, b);
      TouchedAllStep(length, was, a + b, t);
    }

    /** A sample counter, filed where the interval ends. */
    method CountSample(key: Key, from: int, to: int, e: Edit)
      requires Valid()
      modifies this, open.Values
      ensures Valid()
      ensures fresh(open.Values - old(open.Values))
      ensures length > 0 && View() == TouchedAll(length, old(View()), CountIf(length, key, from, to, e))
    {
      hide Valid, View, Touched, TouchedAll, StartOf;
      LengthPositive();
      TouchNone(length, View());
      if to > from {
        var t := Rollups.Touch(LastInstant(length, key, to), e);
        TouchedAllStep(length, View(), [], t);
        assert [] + [t] == [t];
        Touch(t);
      }
    }

    method ObserveThrottling(key: Key, from: int, to: int, throttledPeriods: int, totalPeriods: int)
      requires Valid()
      modifies this, open.Values
      ensures Valid()
      ensures fresh(open.Values - old(open.Values))
      ensures length > 0 && View()
        == Rollups.Observe(length, old(View()), Throttling(key, from, to, throttledPeriods, totalPeriods))
    {
      hide Valid, View, ProRata, TouchedAll, CountIf;
      LengthPositive();
      ghost var was := View();
      AddProRata(key, from, to, throttledPeriods, Throttled);
      AddProRata(key, from, to, totalPeriods, Periods);
      CountSample(key, from, to, CountThrottling);
      ghost var a, b := ProRata(length, key, from, to, throttledPeriods, Throttled),
        ProRata(length, key, from, to, totalPeriods, Periods);
      TouchedAllConcat(length, was, a, b);
      TouchedAllConcat(length, was, a + b, CountIf(length, key, from, to, CountThrottling));
    }

    method ObserveCPUPSI(key: Key, from: int, to: int, stallNanos: int)
      requires Valid()
      modifies this, open.Values
      ensures Valid()
      ensures fresh(open.Values - old(open.Values))
      ensures length > 0 && View() == Rollups.Observe(length, old(View()), CPUPSI(key, from, to, stallNanos))
    {
      hide Valid, View, ProRata, TouchedAll, CountIf;
      LengthPositive();
      ghost var was := View();
      AddProRata(key, from, to, stallNanos, CPUStall);
      CountSample(key, from, to, CountCPUStall);
      TouchedAllConcat(length, was, ProRata(length, key, from, to, stallNanos, CPUStall),
        CountIf(length, key, from, to, CountCPUStall));
    }

    method ObserveMemoryPSI(key: Key, from: int, to: int, stallNanos: int)
      requires Valid()
      modifies this, open.Values
      ensures Valid()
      ensures fresh(open.Values - old(open.Values))
      ensures length > 0 && View() == Rollups.Observe(length, old(View()), MemoryPSI(key, from, to, stallNanos))
    {
      hide Valid, View, ProRata, TouchedAll, CountIf;
      LengthPositive();
      ghost var was := View();
      AddProRata(key, from, to, stallNanos, MemoryStall);
      CountSample(key, from, to, CountMemoryStall);
      TouchedAllConcat(length, was, ProRata(length, key, from, to, stallNanos, MemoryStall),
        CountIf(length, key, from, to, CountMemoryStall));
    }

    method ObserveMemory(key: Key, at: int, workingSetBytes: int)
      requires Valid()
      modifies this, open.Values
      ensures Valid()
      ensures fresh(open.Values - old(open.Values))
      ensures length > 0 && View() == Rollups.Observe(length, old(View()), Memory(key, at, workingSetBytes))
    {
      hide Valid, View, Touched, TouchedAll, StartOf;
      LengthPositive();
      TouchNone(length, View());
      if workingSetBytes >= 0 {
        var t := Rollups.Touch(Slot(key, StartOf(length, at)), SampleBytes(workingSetBytes));
        TouchedAllStep(length, View(), [], t);
        assert [] + [t] == [t];
        Touch(t);
      }
    }

    /** Merging a recovered record into the open record of its window. */
    method Fold(ok: OpenKey, o: Rollup)
      requires Valid() && ok in open
      requires Slot(o.key, o.start) == ok && o.seconds == Seconds(length)
      requires o.cpu.hist.anchorShift == CPU_ANCHOR_SHIFT && o.memory.hist.anchorShift == MEMORY_ANCHOR_SHIFT
      modifies open[ok]
      ensures Valid()
      ensures View() == old(View())[ok := Combine(old(View())[ok], o)]
    {
      hide Combine, Seconds;
      var r := open[ok];
      ghost var was := View();
      GridsCombined(was[ok], o);
      assert forall k :: k in open && k != ok ==> open[k] != r;
      var same := r.Merge(o);
      assert same && r.Value() == Combine(was[ok], o);
      assert forall k :: k in open && k != ok ==> open[k].Value() == was[k];
    }

    /** Adopting a recovered record. One of another window length, one not aligned to
        a window and one without histograms are refused, and nothing is opened. */
    method Seed(r: Rollup, hasHistograms: bool) returns (ok: bool)
      requires Valid()
      requires r.cpu.hist.anchorShift == CPU_ANCHOR_SHIFT && r.memory.hist.anchorShift == MEMORY_ANCHOR_SHIFT
      modifies this, open.Values
      ensures Valid()
      ensures fresh(open.Values - old(open.Values))
      ensures length > 0
      ensures ok == (hasHistograms && Recovery.Seed(length, old(View()), r).Ok?)
      ensures View() == if ok then Recovery.Seed(length, old(View()), r).value else old(View())
    {
      hide Valid, View, Combine, StartOf;
      LengthPositive();
      if r.seconds != Seconds(length) || StartOf(length, r.start) != r.start || !hasHistograms {
        return false;
      }
      var at := Slot(r.key, r.start);
      var _ := RecordAt(at);
      Fold(at, r);
      ok := true;
    }

    /** Takes out the ended windows' records, leaving the records themselves alone. */
    method Drop(now: int) returns (gone: map<OpenKey, Record>)
      requires Valid()
      modifies this`open
      ensures Valid() && open.Values <= old(open.Values)
      ensures open == map ok | ok in old(open) && ok.start + length > now :: old(open)[ok]
      ensures gone == map ok | ok in old(open) && ok.start + length <= now :: old(open)[ok]
    {
      open, gone := Partition(open, length, now);
    }

    /** Hands over the records of ended windows, in payload order. */
    method CloseBefore(now: int) returns (out: seq<Record>)
      requires Valid()
      modifies this`open
      ensures Valid() && open.Values <= old(open.Values)
      ensures View() == StillOpen(length, old(View()), now)
      ensures Recovery.Listing(ClosedAt(length, old(View()), now), Values(out))
      ensures InPayloadOrder(Values(out))
    {
      hide Recovery.Listing, Listed, RankLess;
      ghost var was := open;
      var gone := Drop(now);
      assert ClosedAt(length, old(View()), now) == ValuesOf(gone);
      assert View() == StillOpen(length, old(View()), now);
      out := ListAll(gone);
      ListedValues(gone, out);
    }

    /** Deep copies of every open record, in payload order: nothing the accumulator
        does later reaches them. */
    method Snapshots() returns (out: seq<Record>)
      requires Valid()
      ensures fresh(out)
      ensures Recovery.Listing(View(), Values(out))
      ensures InPayloadOrder(Values(out))
    {
      hide Recovery.Listing, Listed, RankLess;
      var all := ListAll(open);
      out := CloneAll(all);
      ListedValues(open, all);
      assert View() == ValuesOf(open);
    }
  }

  method CloneAll(rs: seq<Record>) returns (out: seq<Record>)
    ensures fresh(out)
    ensures Values(out) == Values(rs)
  {
    out := [];
    for i := 0 to |rs|
      invariant fresh(out)
      invariant |out| == i && forall j :: 0 <= j < i ==> out[j].Value() == rs[j].Value()
    {
      var copy := new Record.Clone(rs[i]);
      out := out + [copy];
    }
  }

  /** The objects of a map, each once. */
  ghost predicate Listed(m: map<OpenKey, Record>, out: seq<Record>) {
    && (forall r :: r in out ==> Slot(r.key, r.start) in m && m[Slot(r.key, r.start)] == r)
    && (forall ok :: ok in m ==> m[ok] in out)
    && (forall i, j :: 0 <= i < j < |out| ==> Slot(out[i].key, out[i].start) != Slot(out[j].key, out[j].start))
  }

  /** Ranging over the records and sorting them. */
  method ListAll(m: map<OpenKey, Record>) returns (out: seq<Record>)
    requires forall ok :: ok in m ==> Slot(m[ok].key, m[ok].start) == ok
    ensures Listed(m, out) && InPayloadOrder(Values(out))
  {
    hide RankLess;
    RanksDiffer(m.Keys);
    var keys := KeysInOrder(RankOf, m.Keys);
    assert forall i :: 0 <= i < |keys| ==> keys[i] in keys;
    out := seq(|keys|, i requires 0 <= i < |keys| => m[keys[i]]);
    forall i, j | 0 <= i < j < |out|
      ensures Slot(out[i].key, out[i].start) != Slot(out[j].key, out[j].start)
    {
      RankLessStrict(RankOf(keys[i]));
    }
    forall ok | ok in m
      ensures m[ok] in out
    {
      var i :| 0 <= i < |keys| && keys[i] == ok;
      assert out[i] == m[ok];
    }
  }

  /** The ranging-and-deleting loop of CloseBefore. */
  method Partition(open: map<OpenKey, Record>, length: int, now: int)
    returns (kept: map<OpenKey, Record>, gone: map<OpenKey, Record>)
    ensures kept == map ok | ok in open && ok.start + length > now :: open[ok]
    ensures gone == map ok | ok in open && ok.start + length <= now :: open[ok]
  {
    kept, gone := open, map[];
    var todo := open.Keys;
    while todo != {}
      invariant todo <= open.Keys
      invariant kept == map ok | ok in open && (ok in todo || ok.start + length > now) :: open[ok]
      invariant gone == map ok | ok in open && ok !in todo && ok.start + length <= now :: open[ok]
      decreases |todo|
    {
      var ok := Pick(todo);
      todo := todo - {ok};
      if ok.start + length <= now {
        gone := gone[ok := open[ok]];
        kept := kept - {ok};
      }
    }
  }

  ghost function ValuesOf(m: map<OpenKey, Record>): Open
    reads m.Values
  {
    map ok | ok in m :: m[ok].Value()
  }

  lemma ListedValues(m: map<OpenKey, Record>, out: seq<Record>)
    requires Listed(m, out)
    ensures Recovery.Listing(ValuesOf(m), Values(out))
  {
    var vs := Values(out);
    forall i | 0 <= i < |vs|
      ensures Slot(vs[i].key, vs[i].start) in m && m[Slot(vs[i].key, vs[i].start)] == out[i]
    {
      assert out[i] in out;
    }
    forall ok | ok in m
      ensures m[ok].Value() in vs
    {
      var i :| 0 <= i < |out| && out[i] == m[ok];
      assert vs[i] == m[ok].Value();
    }
  }

  function Values(rs: seq<Record>): seq<Rollup>
    reads rs
  {
    seq(|rs|, i requires 0 <= i < |rs| reads rs => rs[i].Value())
  }

  lemma GridsCombined(r: Rollup, o: Rollup)
    ensures Combine(r, o).cpu.hist.anchorShift == r.cpu.hist.anchorShift
    ensures Combine(r, o).memory.hist.anchorShift == r.memory.hist.anchorShift
  {
  }

  lemma TouchNone(length: int, open: Open)
    ensures TouchedAll(length, open, []) == open
  {
  }

  lemma GridsKept(r: Rollup, e: Edit)
    ensures Edited(r, e).cpu.hist.anchorShift == r.cpu.hist.anchorShift
    ensures Edited(r, e).memory.hist.anchorShift == r.memory.hist.anchorShift
  {
  }
}
