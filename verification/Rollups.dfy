/** The open windows as a value: what each observation does to them, and the
    merge property (internal/rollup/accumulator.go). */
module Rollups {
  import opened Basics
  import opened Windows
  import opened Records
  import opened Orders
  import opened Journals

  /** Where a record is filed: its key and its window. */
  type OpenKey = Slot<Key>

  type Open = map<OpenKey, Rollup>

  /** Records are written by window, then namespace, workload kind, workload name
      and container. */
  function RankOf(ok: OpenKey): Rank {
    Rank(ok.start, [ok.of.namespace, ok.of.workloadKind, ok.of.workloadName, ok.of.container])
  }

  lemma OrderIs(a: OpenKey, b: OpenKey)
    ensures RankLess(RankOf(a), RankOf(b)) <==>
      a.start < b.start
      || (a.start == b.start
          && (NameLess(a.of.namespace, b.of.namespace)
              || (a.of.namespace == b.of.namespace
                  && (NameLess(a.of.workloadKind, b.of.workloadKind)
                      || (a.of.workloadKind == b.of.workloadKind
                          && (NameLess(a.of.workloadName, b.of.workloadName)
                              || (a.of.workloadName == b.of.workloadName
                                  && NameLess(a.of.container, b.of.container))))))))
  {
    hide NamesLess;
    var x, y := a.of, b.of;
    ThreeNames(x.workloadKind, x.workloadName, x.container, y.workloadKind, y.workloadName, y.container);
    FirstDecides(x.namespace, [x.workloadKind, x.workloadName, x.container],
      y.namespace, [y.workloadKind, y.workloadName, y.container]);
    assert RankOf(a).names == [x.namespace] + [x.workloadKind, x.workloadName, x.container];
    assert RankOf(b).names == [y.namespace] + [y.workloadKind, y.workloadName, y.container];
  }

  lemma RanksDiffer(keys: set<OpenKey>)
    ensures Injective(RankOf, keys)
  {
    forall a: OpenKey, b: OpenKey | RankOf(a) == RankOf(b)
      ensures a == b
    {
      assert RankOf(a).names[0] == RankOf(b).names[0];
      assert RankOf(a).names[1] == RankOf(b).names[1];
      assert RankOf(a).names[2] == RankOf(b).names[2];
      assert RankOf(a).names[3] == RankOf(b).names[3];
    }
  }

  ghost predicate InPayloadOrder(rs: seq<Rollup>) {
    forall i, j :: 0 <= i < j < |rs| ==>
      RankLess(RankOf(Slot(rs[i].key, rs[i].start)), RankOf(Slot(rs[j].key, rs[j].start)))
  }

  const SECOND: int := 1_000_000_000

  function Seconds(length: int): int { length / SECOND }

  function RecordAt(length: int, open: Open, ok: OpenKey): Rollup {
    if ok in open then open[ok] else NewRollup(ok.of, ok.start, Seconds(length))
  }

  /** One field update of one record. */
  datatype Touch = Touch(at: OpenKey, edit: Edit)

  function Touched(length: int, open: Open, t: Touch): Open {
    open[t.at := Edited(RecordAt(length, open, t.at), t.edit)]
  }

  function TouchedAll(length: int, open: Open, ts: seq<Touch>): Open {
    if ts == [] then open
    else Touched(length, TouchedAll(length, open, ts[..|ts| - 1]), Last(ts))
  }

  lemma TouchedAllStep(length: int, open: Open, ts: seq<Touch>, t: Touch)
    ensures TouchedAll(length, open, ts + [t]) == Touched(length, TouchedAll(length, open, ts), t)
  {
    hide Touched;
    assert (ts + [t])[..|ts + [t]| - 1] == ts;
  }

  lemma {:induction false} TouchedAllConcat(length: int, open: Open, a: seq<Touch>, b: seq<Touch>)
    ensures TouchedAll(length, open, a + b) == TouchedAll(length, TouchedAll(length, open, a), b)
  {
    hide Touched;
    if b == [] {
      assert a + b == a;
    } else {
      hide TouchedAll;
      var init, t := b[..|b| - 1], Last(b);
      TouchedAllConcat(length, open, a, init);
      assert b == init + [t] && a + b == (a + init) + [t];
      TouchedAllStep(length, open, a + init, t);
      TouchedAllStep(length, TouchedAll(length, open, a), init, t);
    }
  }

  // ---- observations ----

  datatype Observation =
    | CPUDelta(key: Key, from: int, to: int, coreNanos: int)
    | Throttling(key: Key, from: int, to: int, throttledPeriods: int, totalPeriods: int)
    | CPUPSI(key: Key, from: int, to: int, stallNanos: int)
    | MemoryPSI(key: Key, from: int, to: int, stallNanos: int)
    | Memory(key: Key, at: int, workingSetBytes: int)

  /** The counter a pro-rata part is added to. */
  datatype Counter = Core | Covered | Throttled | Periods | CPUStall | MemoryStall

  function AddTo(c: Counter, amount: int): Edit {
    match c
    case Core => AddCore(amount)
    case Covered => AddCovered(amount)
    case Throttled => AddThrottled(amount)
    case Periods => AddPeriods(amount)
    case CPUStall => AddCPUStall(amount)
    case MemoryStall => AddMemoryStall(amount)
  }

  function PartTouches(key: Key, c: Counter, parts: seq<Part>): (ts: seq<Touch>)
    ensures |ts| == |parts|
  {
    seq(|parts|, i requires 0 <= i < |parts| => Touch(Slot(key, parts[i].start), AddTo(c, parts[i].amount)))
  }

  /** Splitting a delta over the windows it overlaps. */
  function ProRata(length: int, key: Key, from: int, to: int, amount: int, c: Counter): seq<Touch>
    requires length > 0
  {
    PartTouches(key, c, SplitSpec(length, from, to, amount))
  }

  /** The record holding the interval's last instant. */
  function LastInstant(length: int, key: Key, to: int): OpenKey
    requires length > 0
  {
    Slot(key, StartOf(length, to - 1))
  }

  function CountIf(length: int, key: Key, from: int, to: int, e: Edit): seq<Touch>
    requires length > 0
  {
    if to > from then [Touch(LastInstant(length, key, to), e)] else []
  }

  /** The field updates one observation comes down to, in order. */
  function Touches(length: int, o: Observation): seq<Touch>
    requires length > 0
  {
    match o
    case CPUDelta(k, from, to, core) =>
      if Sub(to, from) <= 0 || core < 0 then [] else
      ProRata(length, k, from, to, core, Core)
      + ProRata(length, k, from, to, Sub(to, from), Covered)
      + [Touch(LastInstant(length, k, to), SampleRate(MulDiv(core, 1000, Sub(to, from))))]
    case Throttling(k, from, to, throttled, total) =>
      ProRata(length, k, from, to, throttled, Throttled)
      + ProRata(length, k, from, to, total, Periods)
      + CountIf(length, k, from, to, CountThrottling)
    case CPUPSI(k, from, to, stall) =>
      ProRata(length, k, from, to, stall, CPUStall) + CountIf(length, k, from, to, CountCPUStall)
    case MemoryPSI(k, from, to, stall) =>
      ProRata(length, k, from, to, stall, MemoryStall) + CountIf(length, k, from, to, CountMemoryStall)
    case Memory(k, at, bytes) =>
      if bytes < 0 then [] else [Touch(Slot(k, StartOf(length, at)), SampleBytes(bytes))]
  }

  function Observe(length: int, open: Open, o: Observation): Open
    requires length > 0
  {
    TouchedAll(length, open, Touches(length, o))
  }

  function ObserveAll(length: int, open: Open, os: seq<Observation>): Open
    requires length > 0
  {
    if os == [] then open
    else Observe(length, ObserveAll(length, open, os[..|os| - 1]), Last(os))
  }

  /** Working-set samples are int64 values. */
  predicate Measured(o: Observation) {
    o.Memory? ==> o.workingSetBytes <= MAX_INT64
  }

  // ---- what every reachable set of open windows satisfies ----

  ghost predicate SoundOpen(length: int, open: Open) {
    forall ok :: ok in open ==>
      && Sound(open[ok])
      && open[ok].key == ok.of
      && open[ok].start == ok.start
      && open[ok].seconds == Seconds(length)
  }

  lemma NewSound(key: Key, start: int, seconds: int)
    ensures Sound(NewRollup(key, start, seconds))
  {
  }

  lemma TouchedSound(length: int, open: Open, t: Touch)
    requires SoundOpen(length, open) && InRange(t.edit)
    ensures SoundOpen(length, Touched(length, open, t))
  {
    hide Sound;
    NewSound(t.at.of, t.at.start, Seconds(length));
    EditedSound(RecordAt(length, open, t.at), t.edit);
  }

  ghost predicate AllInRange(ts: seq<Touch>) {
    forall t :: t in ts ==> InRange(t.edit)
  }

  lemma {:induction false} TouchedAllSound(length: int, open: Open, ts: seq<Touch>)
    requires SoundOpen(length, open) && AllInRange(ts)
    ensures SoundOpen(length, TouchedAll(length, open, ts))
  {
    if ts != [] {
      hide SoundOpen, InRange;
      TouchedAllSound(length, open, ts[..|ts| - 1]);
      TouchedSound(length, TouchedAll(length, open, ts[..|ts| - 1]), Last(ts));
    }
  }

  lemma MulDivInRange(a: int, b: int, c: int)
    ensures 0 <= MulDiv(a, b, c) <= MAX_INT64
  {
    hide MulDiv;
    if a >= 0 && b >= 0 && c > 0 {
      MulDivExact(a, b, c);
      DivLower(a * b, c, 0);
    } else {
      MulDivOutside(a, b, c);
    }
  }

  lemma MulDivOutside(a: int, b: int, c: int)
    requires a < 0 || b < 0 || c <= 0
    ensures MulDiv(a, b, c) == 0
  {
  }

  lemma TouchesInRange(length: int, o: Observation)
    requires length > 0 && Measured(o)
    ensures AllInRange(Touches(length, o))
  {
    hide MulDiv, StartOf, SplitSpec, Sub;
    if o.CPUDelta? {
      MulDivInRange(o.coreNanos, 1000, Sub(o.to, o.from));
    }
  }

  lemma {:induction false} ObserveAllSound(length: int, open: Open, os: seq<Observation>)
    requires length > 0 && SoundOpen(length, open) && forall o :: o in os ==> Measured(o)
    ensures SoundOpen(length, ObserveAll(length, open, os))
  {
    if os != [] {
      hide SoundOpen, Touches, Measured;
      ObserveAllSound(length, open, os[..|os| - 1]);
      TouchesInRange(length, Last(os));
      TouchedAllSound(length, ObserveAll(length, open, os[..|os| - 1]), Touches(length, Last(os)));
    }
  }

  // ---- merging two accumulators, key by key and window by window ----

  function MergeOpen(a: Open, b: Open): Open {
    map ok | ok in a.Keys + b.Keys ::
      if ok !in b then a[ok] else if ok !in a then b[ok] else Combine(a[ok], b[ok])
  }

  lemma MergeOpenCommutes(length: int, a: Open, b: Open)
    requires SoundOpen(length, a) && SoundOpen(length, b)
    ensures MergeOpen(a, b) == MergeOpen(b, a)
  {
    hide Sound, Combine;
    forall ok | ok in a && ok in b
      ensures Combine(a[ok], b[ok]) == Combine(b[ok], a[ok])
    {
      CombineCommutes(a[ok], b[ok]);
    }
  }

  lemma MergeOpenAssociates(length: int, a: Open, b: Open, c: Open)
    requires SoundOpen(length, a) && SoundOpen(length, b) && SoundOpen(length, c)
    ensures MergeOpen(MergeOpen(a, b), c) == MergeOpen(a, MergeOpen(b, c))
  {
    hide Sound, Combine;
    forall ok | ok in a && ok in b && ok in c
      ensures Combine(Combine(a[ok], b[ok]), c[ok]) == Combine(a[ok], Combine(b[ok], c[ok]))
    {
      CombineAssociates(a[ok], b[ok], c[ok]);
    }
  }

  lemma TouchIsMerge(length: int, open: Open, t: Touch)
    requires SoundOpen(length, open)
    ensures Touched(length, open, t) == MergeOpen(open, Touched(length, map[], t))
  {
    hide Combine, Edited, Sound;
    var left, right := Touched(length, open, t), MergeOpen(open, Touched(length, map[], t));
    if t.at in open {
      EditIsCombine(open[t.at], t.edit);
    }
    assert left.Keys == right.Keys;
  }

  lemma {:induction false} TouchesMerge(length: int, open: Open, ts: seq<Touch>)
    requires SoundOpen(length, open) && AllInRange(ts)
    ensures TouchedAll(length, open, ts) == MergeOpen(open, TouchedAll(length, map[], ts))
  {
    hide SoundOpen, Touched, MergeOpen, InRange;
    EmptySound(length);
    if ts == [] {
      MergeOpenEmpty(open);
    } else {
      var init, t := ts[..|ts| - 1], Last(ts);
      var some := TouchedAll(length, map[], init);
      var one := Touched(length, map[], t);
      TouchesMerge(length, open, init);
      TouchedAllSound(length, open, init);
      TouchedAllSound(length, map[], init);
      TouchedSound(length, map[], t);
      TouchIsMerge(length, TouchedAll(length, open, init), t);
      TouchIsMerge(length, some, t);
      MergeOpenAssociates(length, open, some, one);
    }
  }

  lemma EmptySound(length: int)
    ensures SoundOpen(length, map[])
  {
  }

  lemma MergeOpenEmpty(open: Open)
    ensures MergeOpen(open, map[]) == open && MergeOpen(map[], open) == open
  {
  }

  /** The rollup of a sequence of observations, from nothing. */
  function RollupOf(length: int, os: seq<Observation>): Open
    requires length > 0
  {
    ObserveAll(length, map[], os)
  }

  ghost predicate AllMeasured(os: seq<Observation>) {
    forall o :: o in os ==> Measured(o)
  }

  lemma RollupSound(length: int, os: seq<Observation>)
    requires length > 0 && AllMeasured(os)
    ensures SoundOpen(length, RollupOf(length, os))
  {
    EmptySound(length);
    ObserveAllSound(length, map[], os);
  }

  /** Observing onto open windows equals merging in what the observations make alone. */
  lemma {:induction false} ObserveAllIsMerge(length: int, open: Open, os: seq<Observation>)
    requires length > 0 && SoundOpen(length, open) && AllMeasured(os)
    ensures ObserveAll(length, open, os) == MergeOpen(open, RollupOf(length, os))
  {
    hide SoundOpen, Touches, MergeOpen, Measured;
    EmptySound(length);
    if os == [] {
      MergeOpenEmpty(open);
    } else {
      var init, o := os[..|os| - 1], Last(os);
      var ts := Touches(length, o);
      assert AllMeasured(init) && Measured(o);
      ObserveAllIsMerge(length, open, init);
      ObserveAllSound(length, open, init);
      RollupSound(length, init);
      TouchesInRange(length, o);
      TouchesMerge(length, ObserveAll(length, open, init), ts);
      TouchesMerge(length, RollupOf(length, init), ts);
      TouchedAllSound(length, map[], ts);
      MergeOpenAssociates(length, open, RollupOf(length, init), TouchedAll(length, map[], ts));
    }
  }

  lemma ObserveAllStep(length: int, open: Open, os: seq<Observation>, o: Observation)
    requires length > 0
    ensures ObserveAll(length, open, os + [o]) == Observe(length, ObserveAll(length, open, os), o)
  {
    hide Observe;
    assert (os + [o])[..|os + [o]| - 1] == os;
  }

  lemma {:induction false} ObserveAllConcat(length: int, open: Open, a: seq<Observation>, b: seq<Observation>)
    requires length > 0
    ensures ObserveAll(length, open, a + b) == ObserveAll(length, ObserveAll(length, open, a), b)
  {
    hide Observe, ObserveAll;
    if b == [] {
      ObserveNone(length, ObserveAll(length, open, a));
      assert a + b == a;
    } else {
      var init, o := b[..|b| - 1], Last(b);
      ObserveAllConcat(length, open, a, init);
      assert b == init + [o] && a + b == (a + init) + [o];
      ObserveAllStep(length, open, a + init, o);
      ObserveAllStep(length, ObserveAll(length, open, a), init, o);
    }
  }

  lemma ObserveNone(length: int, open: Open)
    requires length > 0
    ensures ObserveAll(length, open, []) == open
  {
  }

  lemma RollupConcat(length: int, a: seq<Observation>, b: seq<Observation>)
    requires length > 0 && AllMeasured(a) && AllMeasured(b)
    ensures RollupOf(length, a + b) == MergeOpen(RollupOf(length, a), RollupOf(length, b))
  {
    hide SoundOpen, MergeOpen, Measured;
    ObserveAllConcat(length, map[], a, b);
    RollupSound(length, a);
    ObserveAllIsMerge(length, RollupOf(length, a), b);
  }

  /** The order observations arrive in does not matter. */
  lemma {:induction false} RollupOrder(length: int, a: seq<Observation>, b: seq<Observation>)
    requires length > 0 && AllMeasured(a) && multiset(a) == multiset(b)
    ensures RollupOf(length, a) == RollupOf(length, b)
    decreases |a|
  {
    hide SoundOpen, MergeOpen, Measured, ObserveAll;
    SameMembers(a, b);
    if a != [] {
      var i := PlaceOf(a, b);
      var x, rest := Last(a), a[..|a| - 1];
      var before, after := b[..i], b[i + 1..];
      assert a == rest + [x];
      assert forall o :: o in before + after ==> o in b;
      RollupOrder(length, rest, before + after);
      MoveLast(length, before, x, after);
      RollupConcat(length, rest, [x]);
      RollupConcat(length, before + after, [x]);
    }
  }

  lemma MoveLast(length: int, before: seq<Observation>, x: Observation, after: seq<Observation>)
    requires length > 0 && AllMeasured(before) && Measured(x) && AllMeasured(after)
    ensures RollupOf(length, before + [x] + after) == RollupOf(length, before + after + [x])
  {
    hide SoundOpen, MergeOpen, ObserveAll, Measured;
    var p, q, r := RollupOf(length, before), RollupOf(length, [x]), RollupOf(length, after);
    RollupSound(length, before);
    RollupSound(length, [x]);
    RollupSound(length, after);
    RollupConcat(length, before, [x]);
    RollupConcat(length, before + [x], after);
    RollupConcat(length, before, after);
    RollupConcat(length, before + after, [x]);
    MergeOpenAssociates(length, p, q, r);
    MergeOpenCommutes(length, q, r);
    MergeOpenAssociates(length, p, r, q);
  }

  function Flatten(parts: seq<seq<Observation>>): seq<Observation> {
    if parts == [] then [] else Flatten(parts[..|parts| - 1]) + Last(parts)
  }

  function MergeAll(length: int, parts: seq<seq<Observation>>): Open
    requires length > 0
  {
    if parts == [] then map[]
    else MergeOpen(MergeAll(length, parts[..|parts| - 1]), RollupOf(length, Last(parts)))
  }

  /** Main result, the merge property: however the observations are divided
      between N accumulators and in whatever order each of them and the union
      sees its share, merging the N partial rollups gives exactly the rollup over
      the union - records created, totals, extrema and histograms. */
  lemma MergeProperty(length: int, parts: seq<seq<Observation>>, union: seq<Observation>)
    requires length > 0 && AllMeasured(union)
    requires multiset(union) == multiset(Flatten(parts))
    ensures MergeAll(length, parts) == RollupOf(length, union)
  {
    hide Measured, RollupOf, MergeAll;
    SameMembers(union, Flatten(parts));
    MergeFlatten(length, parts);
    RollupOrder(length, Flatten(parts), union);
  }

  lemma {:induction false} MergeFlatten(length: int, parts: seq<seq<Observation>>)
    requires length > 0 && AllMeasured(Flatten(parts))
    ensures MergeAll(length, parts) == RollupOf(length, Flatten(parts))
  {
    if parts != [] {
      hide Measured, ObserveAll, MergeOpen;
      var init := parts[..|parts| - 1];
      assert forall o :: o in Flatten(init) || o in Last(parts) ==> o in Flatten(parts);
      MergeFlatten(length, init);
      RollupConcat(length, Flatten(init), Last(parts));
    }
  }
}
