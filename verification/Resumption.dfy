/** Poller restarts: the resumed set, and that a process which seeds itself from its
    predecessor's windows attributes nothing twice (internal/collector/usage.go). */
module Resumption {
  import opened Basics
  import opened Windows
  import opened Records
  import opened Rollups
  import opened Conservation
  import opened Baselines
  import opened Journals
  import opened Trackers
  import opened Telescoping
  import Recovery

  // ---- the resumed set ----

  /** Adopting one recovered record marks its key and extends the guard to the
      end of its window. */
  function Resumed(p: Poller, r: Rollup): Poller {
    var end := r.start + r.seconds * SECOND;
    p.(resumedKeys := p.resumedKeys + {r.key}, resumedUntil := if end > p.resumedUntil then end else p.resumedUntil)
  }

  function ResumedAll(p: Poller, rs: seq<Rollup>): Poller {
    if rs == [] then p else Resumed(ResumedAll(p, rs[..|rs| - 1]), Last(rs))
  }

  lemma {:induction false} ResumedCovers(p: Poller, rs: seq<Rollup>)
    ensures var q := ResumedAll(p, rs);
      && (forall r :: r in rs ==> r.key in q.resumedKeys && r.start + r.seconds * SECOND <= q.resumedUntil)
      && p.resumedUntil <= q.resumedUntil && q.tracker == p.tracker && q.throttle == p.throttle
  {
    if rs != [] {
      ResumedCovers(p, rs[..|rs| - 1]);
    }
  }

  /** The guard itself never moves, and a key leaves the resumed set only at a
      sweep at or after it. */
  lemma {:induction false} ResumedUntilSwept(length: int, s: Polling, ops: seq<Op>, key: Key)
    requires length > 0 && key in s.poller.resumedKeys
    ensures RunOps(length, s, ops).poller.resumedUntil == s.poller.resumedUntil
    ensures key !in RunOps(length, s, ops).poller.resumedKeys <==>
      exists n :: 0 <= n < |ops| && ops[n].Sweep? && ops[n].now >= s.poller.resumedUntil
  {
    hide ObserveAll, Emits;
    if ops != [] {
      var init, op := ops[..|ops| - 1], Last(ops);
      ResumedUntilSwept(length, s, init, key);
      assert forall n :: 0 <= n < |init| ==> init[n] == ops[n];
      assert ops[|ops| - 1] == op;
      OnlyShrinks(length, s, init);
    }
  }

  lemma {:induction false} OnlyShrinks(length: int, s: Polling, ops: seq<Op>)
    requires length > 0
    ensures RunOps(length, s, ops).poller.resumedKeys <= s.poller.resumedKeys
  {
    hide ObserveAll, Emits;
    if ops != [] {
      OnlyShrinks(length, s, ops[..|ops| - 1]);
    }
  }

  /** The resumed set outlives every window it was taken from: while a seeded
      record's window is still running, no run of operations has unmarked its key. */
  lemma ResumedWhileRunning(length: int, p: Poller, rs: seq<Rollup>, open: Open, ops: seq<Op>, r: Rollup)
    requires length > 0 && r in rs
    requires forall op :: op in ops && op.Sweep? ==> op.now < r.start + r.seconds * SECOND
    ensures r.key in RunOps(length, Polling(ResumedAll(p, rs), open, []), ops).poller.resumedKeys
  {
    ResumedCovers(p, rs);
    ResumedUntilSwept(length, Polling(ResumedAll(p, rs), open, []), ops, r.key);
  }

  /** The guard reaches the end of a seeded window exactly where windows are a whole number
      of seconds long, as a record carries its length in seconds. */
  lemma GuardReachesEnd(length: int, r: Rollup)
    requires length > 0 && r.seconds == Seconds(length)
    ensures r.start + r.seconds * SECOND <= r.start + length
    ensures r.start + r.seconds * SECOND == r.start + length <==> length % 1_000_000_000 == 0
  {
  }

  /** The operation is the first sight of what a counter is read from. */
  predicate FirstSight(p: Poller, c: Counter, op: Op) {
    match op
    case Container(tk, _, _, _) =>
      if c.MemoryStall? then TrackerOf(p, tk).mem.time == 0 else TrackerOf(p, tk).cpu.time == 0
    case Scraped(s, _) => ThrottleOf(p, s.tk).ts == 0
    case _ => true
  }

  /** While a key is resumed, a first sight of it emits no counter amount at all:
      no CPU, no PSI stall, no throttling. */
  lemma ResumedFirstSight(p: Poller, c: Counter, op: Op, key: Key)
    requires key in p.resumedKeys && FirstSight(p, c, op)
    ensures Contributions(c, key, Emits(p, op)) == 0
  {
    forall o | o in Emits(p, op)
      ensures Contribution(c, key, o) == 0
    {
    }
    NoneOfIt(c, key, Emits(p, op));
  }

  // ---- no double attribution ----

  /** How far each replica's counter rose since this process first read it. */
  function Rises(line: Line, length: int, s: Polling, ops: seq<Op>, replicas: set<TrackerKey>): map<TrackerKey, int>
    requires length > 0
  {
    map tk | tk in replicas ::
      Level(SideOf(line), BaseAt(line, RunOps(length, s, ops).poller, tk))
      - FirstShown(SideOf(line), Fed(line, length, s, ops, tk))
  }

  function Plus(a: map<TrackerKey, int>, b: map<TrackerKey, int>): map<TrackerKey, int> {
    map tk | tk in a && tk in b :: a[tk] + b[tk]
  }

  /** Where each replica's first sight falls while its key is resumed, a run adds at
      most what the counters rose after that sight, plus what fell or was forgotten on
      the way. */
  lemma NoDoubleAttribution(line: Line, length: int, key: Key, replicas: set<TrackerKey>, s: Polling, ops: seq<Op>)
    requires length > 0 && FedBy(key, replicas, ops) && AllFresh(line, length, s, ops, replicas)
    requires !line.CoveredLine? && forall tk :: tk in replicas ==> SeenResumed(Fed(line, length, s, ops, tk))
    ensures var end, c := RunOps(length, s, ops), CounterOf(line);
      var rises, excess := Rises(line, length, s, ops, replicas), Excess(line, length, s, ops, replicas);
      && Everywhere(c, key, end) <= Everywhere(c, key, s) + Total(rises, Itself()) + Total(excess, Itself())
      && (AllNever(Fallen, line, length, s, ops, replicas) && AllNever(Forgotten, line, length, s, ops, replicas) ==>
            Everywhere(c, key, end) <= Everywhere(c, key, s) + Total(rises, Itself()))
  {
    hide Everywhere, Moves, RunOps, Tally, Follow, Fed, Never, FedBy, Stamped, Total, FirstShown, SeenResumed, BaseAt;
    PollingConserved(length, CounterOf(line), key, s, ops);
    ReplicaMoves(line, length, key, replicas, s, ops);
    ExcessZero(line, length, s, ops, replicas);
    var rises, excess := Rises(line, length, s, ops, replicas), Excess(line, length, s, ops, replicas);
    var moved, both := PerReplica(Moved, line, length, s, ops, replicas), Plus(rises, excess);
    forall tk | tk in replicas
      ensures moved[tk] <= both[tk]
    {
      Telescope(SideOf(line), UNSET, Fed(line, length, s, ops, tk));
      FirstGapStays(SideOf(line), Fed(line, length, s, ops, tk));
      TrackerFollows(line, length, s, ops, tk);
    }
    TotalAtMost(moved, both, Itself());
    TotalSum(rises, excess, both);
  }

  // ---- two processes ----

  const FIRST: Polling := Polling(Poller(map[], map[], {}, 0), map[], [])

  lemma EmitsMeasured(p: Poller, op: Op)
    ensures AllMeasured(Emits(p, op))
  {
  }

  lemma {:induction false} ObserveAllAligned(length: int, open: Open, os: seq<Observation>)
    requires length > 0 && Recovery.Aligned(length, open)
    ensures Recovery.Aligned(length, ObserveAll(length, open, os))
  {
    hide StartOf, Touches, TouchedAll;
    if os != [] {
      var init := os[..|os| - 1];
      ObserveAllAligned(length, open, init);
      Recovery.TouchesAligned(length, Last(os));
      Recovery.TouchedAllAligned(length, ObserveAll(length, open, init), Touches(length, Last(os)));
    }
  }

  /** Every window a poller run leaves open can be encoded, decoded and seeded. */
  lemma {:induction false} PollingSound(length: int, ops: seq<Op>)
    requires length > 0
    ensures var open := RunOps(length, FIRST, ops).open;
      SoundOpen(length, open) && Recovery.Aligned(length, open)
  {
    hide ObserveAll, Sound, StartOf, Emits, Advance, AllMeasured;
    if ops != [] {
      var init := ops[..|ops| - 1];
      var s := RunOps(length, FIRST, init);
      var os := Emits(s.poller, Last(ops));
      PollingSound(length, init);
      EmitsMeasured(s.poller, Last(ops));
      MeasuredAll(os);
      ObserveAllSound(length, s.open, os);
      ObserveAllAligned(length, s.open, os);
    }
  }

  lemma MeasuredAll(os: seq<Observation>)
    requires AllMeasured(os)
    ensures forall o :: o in os ==> Measured(o)
  {
  }

  /** The successor of a crashed process: the poller is new but for the resumed set,
      the windows are seeded from the decoded snapshot, and what was handed over
      before the crash stays handed over. */
  function Born(length: int, died: Polling, snapshot: seq<Rollup>): Polling
    requires length > 0
  {
    Polling(ResumedAll(FIRST.poller, snapshot),
            Recovery.SeedAll(length, map[], Recovery.EncodeAll(snapshot)), died.handed)
  }

  lemma SeedKeepsTotals(length: int, ops: seq<Op>, snapshot: seq<Rollup>, c: Counter, key: Key)
    requires length > 0 && Recovery.Listing(RunOps(length, FIRST, ops).open, snapshot)
    ensures var died := RunOps(length, FIRST, ops);
      && Born(length, died, snapshot).open == died.open
      && Everywhere(c, key, Born(length, died, snapshot)) == Everywhere(c, key, died)
  {
    hide RunOps, SoundOpen, Recovery.Aligned, Recovery.Listing, Recovery.SeedAll, Recovery.EncodeAll;
    PollingSound(length, ops);
    Recovery.SeedingRebuilds(length, RunOps(length, FIRST, ops).open, snapshot);
  }

  lemma NothingYet(c: Counter, key: Key)
    ensures Everywhere(c, key, FIRST) == 0
  {
  }

  /** A crash: what a first process did, what it left open, and what its successor does. */
  datatype Crash = Crash(before: seq<Op>, snapshot: seq<Rollup>, after: seq<Op>)

  function Died(length: int, x: Crash): Polling
    requires length > 0
  {
    RunOps(length, FIRST, x.before)
  }

  function Reborn(length: int, x: Crash): Polling
    requires length > 0
  {
    Born(length, Died(length, x), x.snapshot)
  }

  /** Where both processes end. */
  function Ends(length: int, x: Crash): Polling
    requires length > 0
  {
    RunOps(length, Reborn(length, x), x.after)
  }

  function FedFirst(line: Line, length: int, x: Crash, tk: TrackerKey): seq<Feed>
    requires length > 0
  {
    Fed(line, length, FIRST, x.before, tk)
  }

  function FedSecond(line: Line, length: int, x: Crash, tk: TrackerKey): seq<Feed>
    requires length > 0
  {
    Fed(line, length, Reborn(length, x), x.after, tk)
  }

  /** The snapshot is what the first process left open, and the readings of the key come
      from these replicas, whose counters rise within and across the processes and are
      not forgotten by a sweep. */
  ghost predicate Survived(line: Line, length: int, key: Key, replicas: set<TrackerKey>, x: Crash)
    requires length > 0
  {
    && !line.CoveredLine?
    && FedBy(key, replicas, x.before) && FedBy(key, replicas, x.after)
    && Recovery.Listing(Died(length, x).open, x.snapshot)
    && forall tk :: tk in replicas ==>
      var a, b := FedFirst(line, length, x, tk), FedSecond(line, length, x, tk);
      Rising(SideOf(line), a) && Rising(SideOf(line), b) && RisesAcross(SideOf(line), a, b)
  }

  /** Per replica: what the two processes filed, what they saw, what was filed twice and
      what was missed. */
  function FiledBy(line: Line, length: int, x: Crash, replicas: set<TrackerKey>): map<TrackerKey, int>
    requires length > 0
  {
    map tk | tk in replicas :: Filed(SideOf(line), FedFirst(line, length, x, tk), FedSecond(line, length, x, tk))
  }

  function SeenBy(line: Line, length: int, x: Crash, replicas: set<TrackerKey>): map<TrackerKey, int>
    requires length > 0
  {
    map tk | tk in replicas :: Seen(SideOf(line), FedFirst(line, length, x, tk), FedSecond(line, length, x, tk))
  }

  function TwiceBy(line: Line, length: int, x: Crash, replicas: set<TrackerKey>): map<TrackerKey, int>
    requires length > 0
  {
    map tk | tk in replicas :: Twice(SideOf(line), FedFirst(line, length, x, tk), FedSecond(line, length, x, tk))
  }

  function MissedBy(line: Line, length: int, x: Crash, replicas: set<TrackerKey>): map<TrackerKey, int>
    requires length > 0
  {
    map tk | tk in replicas :: Missed(SideOf(line), FedFirst(line, length, x, tk), FedSecond(line, length, x, tk))
  }

  lemma BornUnset(line: Line, length: int, x: Crash, tk: TrackerKey)
    requires length > 0
    ensures BaseAt(line, FIRST.poller, tk) == UNSET && BaseAt(line, Reborn(length, x).poller, tk) == UNSET
  {
    ResumedCovers(FIRST.poller, x.snapshot);
  }

  lemma {:induction false} FirstIsReading(line: Line, length: int, s: Polling, ops: seq<Op>, tk: TrackerKey)
    requires length > 0 && BaseAt(line, s.poller, tk) == UNSET && Stamped(Fed(line, length, s, ops, tk))
    ensures ReadFirst(Fed(line, length, s, ops, tk))
  {
    hide RunOps;
    if ops != [] {
      FedMore(line, length, s, ops, tk);
      FirstIsReading(line, length, s, ops[..|ops| - 1], tk);
      TrackerFollows(line, length, s, ops[..|ops| - 1], tk);
    }
  }

  lemma SecondReadFirst(line: Line, length: int, key: Key, replicas: set<TrackerKey>, x: Crash, tk: TrackerKey)
    requires length > 0 && Survived(line, length, key, replicas, x) && tk in replicas
    ensures ReadFirst(FedSecond(line, length, x, tk))
  {
    hide Fed, Never, RisesAcross, Recovery.Listing, FedBy, Born, RunOps;
    BornUnset(line, length, x, tk);
    FirstIsReading(line, length, Reborn(length, x), x.after, tk);
  }

  /** What a key has over every window after both processes is what its replicas' trackers
      filed. */
  lemma FiledTotal(line: Line, length: int, key: Key, replicas: set<TrackerKey>, x: Crash)
    requires length > 0 && Survived(line, length, key, replicas, x)
    ensures Everywhere(CounterOf(line), key, Ends(length, x)) == Total(FiledBy(line, length, x, replicas), Itself())
  {
    hide Everywhere, Moves, RunOps, Fed, FedBy, Never, Follow, Tally, Total, Recovery.Listing, BaseAt, Born, Stamped,
      RisesAcross, Level;
    var c := CounterOf(line);
    forall tk | tk in replicas
      ensures BaseAt(line, FIRST.poller, tk) == UNSET && BaseAt(line, Reborn(length, x).poller, tk) == UNSET
    {
      BornUnset(line, length, x, tk);
    }
    PollingConserved(length, c, key, FIRST, x.before);
    NothingYet(c, key);
    ReplicaMoves(line, length, key, replicas, FIRST, x.before);
    SeedKeepsTotals(length, x.before, x.snapshot, c, key);
    PollingConserved(length, c, key, Reborn(length, x), x.after);
    ReplicaMoves(line, length, key, replicas, Reborn(length, x), x.after);
    var a := PerReplica(Moved, line, length, FIRST, x.before, replicas);
    var b := PerReplica(Moved, line, length, Reborn(length, x), x.after, replicas);
    TotalSum(a, b, FiledBy(line, length, x, replicas));
  }

  /** Across a crash, what two processes file for a key over every window never exceeds
      what its replicas' counters were seen at, plus where those stood that the successor
      first sees after the guard lifted or without the key in the snapshot. */
  lemma CrashAttributesOnce(line: Line, length: int, key: Key, replicas: set<TrackerKey>, x: Crash)
    requires length > 0 && Survived(line, length, key, replicas, x)
    ensures Everywhere(CounterOf(line), key, Ends(length, x))
         <= Total(SeenBy(line, length, x, replicas), Itself()) + Total(TwiceBy(line, length, x, replicas), Itself())
    ensures (forall tk :: tk in replicas ==> SeenResumed(FedSecond(line, length, x, tk))) ==>
      Everywhere(CounterOf(line), key, Ends(length, x)) <= Total(SeenBy(line, length, x, replicas), Itself())
  {
    hide Everywhere, Ends, FedFirst, FedSecond, Rising, Total, Filed, Seen, RisesAcross, Follow, Recovery.Listing,
      FedBy, Level;
    FiledTotal(line, length, key, replicas, x);
    var filed, seen := FiledBy(line, length, x, replicas), SeenBy(line, length, x, replicas);
    var twice := TwiceBy(line, length, x, replicas);
    forall tk | tk in replicas
      ensures filed[tk] <= Plus(seen, twice)[tk] && twice[tk] >= 0
      ensures SeenResumed(FedSecond(line, length, x, tk)) ==> twice[tk] == 0
    {
      SecondReadFirst(line, length, key, replicas, x, tk);
      FiledAtMost(SideOf(line), FedFirst(line, length, x, tk), FedSecond(line, length, x, tk));
    }
    TotalAtMost(filed, Plus(seen, twice), Itself());
    TotalSum(seen, twice, Plus(seen, twice));
    ZeroTotal(twice);
  }

  /** The exact account of a crash: where every rise is attributed but the one a resumed
      first sight shows, the key's total is what was seen, less the rises missed between
      the processes, plus what unresumed first sights attribute again; and per replica
      nothing is filed twice if and only if it is not seen again, is first seen resumed,
      or stood at zero. */
  lemma CrashExactly(line: Line, length: int, key: Key, replicas: set<TrackerKey>, x: Crash)
    requires length > 0 && Survived(line, length, key, replicas, x)
    requires forall tk :: tk in replicas ==>
      && Never(Unattributed, SideOf(line), UNSET, FedFirst(line, length, x, tk))
      && AttributedSince(SideOf(line), FedSecond(line, length, x, tk))
    ensures Everywhere(CounterOf(line), key, Ends(length, x)) + Total(MissedBy(line, length, x, replicas), Itself())
         == Total(SeenBy(line, length, x, replicas), Itself()) + Total(TwiceBy(line, length, x, replicas), Itself())
    ensures forall tk :: tk in replicas ==>
      var a, b := FedFirst(line, length, x, tk), FedSecond(line, length, x, tk);
      Filed(SideOf(line), a, b) <= Seen(SideOf(line), a, b) <==>
        (SeenResumed(b) || Level(SideOf(line), Follow(UNSET, a)) == 0)
  {
    hide Everywhere, Ends, FedFirst, FedSecond, Rising, Total, Filed, Seen, Twice, Missed, Never, AttributedSince,
      Recovery.Listing, FedBy, Level, Follow, SeenResumed, RisesAcross, ReadFirst;
    FiledTotal(line, length, key, replicas, x);
    var filed, missed := FiledBy(line, length, x, replicas), MissedBy(line, length, x, replicas);
    var seen, twice := SeenBy(line, length, x, replicas), TwiceBy(line, length, x, replicas);
    forall tk | tk in replicas
      ensures filed[tk] + missed[tk] == Plus(seen, twice)[tk]
      ensures var a, b := FedFirst(line, length, x, tk), FedSecond(line, length, x, tk);
        Filed(SideOf(line), a, b) <= Seen(SideOf(line), a, b) <==>
          (SeenResumed(b) || Level(SideOf(line), Follow(UNSET, a)) == 0)
    {
      SecondReadFirst(line, length, key, replicas, x, tk);
      FiledExactly(SideOf(line), FedFirst(line, length, x, tk), FedSecond(line, length, x, tk));
    }
    TotalSum(filed, missed, Plus(seen, twice));
    TotalSum(seen, twice, Plus(seen, twice));
  }

  /** A first sight of an unresumed key files the whole counter. */
  lemma FirstSightFiles(length: int, s: Polling, read: Op, tk: TrackerKey, key: Key)
    requires length > 0 && Reads(read, tk, key) && read.Container? && read.stats.cpu.Some?
    requires tk !in s.poller.tracker && key !in s.poller.resumedKeys
    requires read.stats.cpu.value.at > read.stats.start && read.stats.cpu.value.counter <= MAX_INT64
    ensures Everywhere(Core, key, Step(length, s, read))
         == Everywhere(Core, key, s) + read.stats.cpu.value.counter
  {
    hide Everywhere, Step, Emits, Contributions;
    ReadingMoves(CPULine, s.poller, read, tk, key);
    StepConserved(length, Core, key, s, read);
  }

  lemma SweepFiles(length: int, s: Polling, now: int, c: Counter, key: Key)
    requires length > 0
    ensures Everywhere(c, key, Step(length, s, Sweep(now))) == Everywhere(c, key, s)
    ensures Step(length, s, Sweep(now)).poller == Swept(s.poller, now)
  {
    hide Everywhere, ObserveAll, Swept, Contributions;
    StepConserved(length, c, key, s, Sweep(now));
    ContributionsNone(c, key);
  }

  /** A successor that sweeps after the resumed windows ended and only then reads a
      container its predecessor had read files its counter again. */
  lemma GuardLifted(length: int, tk: TrackerKey, key: Key, read: Op, snapshot: seq<Rollup>)
    requires length > 0 && Reads(read, tk, key) && read.Container? && read.stats.cpu.Some?
    requires read.stats.cpu.value.at > read.stats.start && read.stats.cpu.value.counter <= MAX_INT64
    requires Recovery.Listing(RunOps(length, FIRST, [read]).open, snapshot)
    ensures var born := Born(length, RunOps(length, FIRST, [read]), snapshot);
      Everywhere(Core, key, RunOps(length, born, [Sweep(born.poller.resumedUntil), read]))
      == 2 * read.stats.cpu.value.counter
  {
    hide Everywhere, Step, Recovery.Listing, Recovery.SeedAll, Recovery.EncodeAll, Reads;
    assert [read][..0] == [];
    var died := RunOps(length, FIRST, [read]);
    assert died == Step(length, FIRST, read);
    FirstSightFiles(length, FIRST, read, tk, key);
    NothingYet(Core, key);
    SeedKeepsTotals(length, [read], snapshot, Core, key);
    var born := Born(length, died, snapshot);
    var sweep := Sweep(born.poller.resumedUntil);
    ResumedCovers(FIRST.poller, snapshot);
    SweepFiles(length, born, born.poller.resumedUntil, Core, key);
    var swept := Step(length, born, sweep);
    FirstSightFiles(length, swept, read, tk, key);
    assert [sweep, read][..1] == [sweep] && [sweep][..0] == [];
    assert RunOps(length, born, [sweep]) == swept;
  }

  /** An hour's windows, one container read at 100 before the crash and after it. */
  lemma GuardLiftedExample(tk: TrackerKey, key: Key, snapshot: seq<Rollup>)
    requires var read := Container(tk, key, ContainerStats(1, Some(CPUReading(10, 100, None)), None), 10);
      Recovery.Listing(RunOps(3600 * SECOND, FIRST, [read]).open, snapshot)
    ensures var hour := 3600 * SECOND;
      var read := Container(tk, key, ContainerStats(1, Some(CPUReading(10, 100, None)), None), 10);
      var born := Born(hour, RunOps(hour, FIRST, [read]), snapshot);
      Everywhere(Core, key, RunOps(hour, born, [Sweep(born.poller.resumedUntil), read])) == 200
  {
    hide Everywhere, RunOps, Born, Recovery.Listing;
    var read := Container(tk, key, ContainerStats(1, Some(CPUReading(10, 100, None)), None), 10);
    GuardLifted(3600 * SECOND, tk, key, read, snapshot);
  }
}
