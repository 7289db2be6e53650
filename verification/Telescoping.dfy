/** From whole poller runs to single trackers and back: what a run adds to a key is
    what the trackers of its replicas emit, for each of the five counters the poller
    follows (internal/collector/usage.go, internal/collector/cadvisor.go). */
module Telescoping {
  import opened Basics
  import opened Records
  import opened Rollups
  import opened Conservation
  import opened Baselines
  import opened Trackers

  /** The counters followed by baselines, and the time CPU readings cover. */
  datatype Line = CPULine | CoveredLine | CPUStallLine | MemoryStallLine | ThrottledLine | PeriodsLine

  /** What of a reading goes into the counter: the rise, or the interval it was seen over. */
  function PartOf(line: Line): Part { if line.CoveredLine? then Covering else Moved }

  function CounterOf(line: Line): Counter {
    match line
    case CPULine => Core
    case CoveredLine => Covered
    case CPUStallLine => CPUStall
    case MemoryStallLine => MemoryStall
    case ThrottledLine => Throttled
    case PeriodsLine => Periods
  }

  function SideOf(line: Line): Side { if line.CPUStallLine? || line.PeriodsLine? then Two else One }

  predicate Scrapes(line: Line) { line.ThrottledLine? || line.PeriodsLine? }

  function CPUBaseOf(b: CPUBase): Base { Base(b.time, b.counter, b.psi) }

  function MemoryBaseOf(b: MemoryBase): Base { Base(b.time, b.psi, 0) }

  function ThrottleBaseOf(b: ThrottleState): Base { Base(b.ts, b.throttled, b.periods) }

  /** Where a tracker's baseline stands. */
  function BaseAt(line: Line, p: Poller, tk: TrackerKey): Base {
    if Scrapes(line) then ThrottleBaseOf(ThrottleOf(p, tk))
    else if line.MemoryStallLine? then MemoryBaseOf(TrackerOf(p, tk).mem)
    else CPUBaseOf(TrackerOf(p, tk).cpu)
  }

  function CPUFeed(start: int, r: CPUReading, resumed: bool): Feed {
    Feed(r.at, r.counter, OrZero(r.psi), start, r.at > start, resumed)
  }

  function MemoryFeed(start: int, r: MemoryReading, resumed: bool): Feed {
    Feed(r.at, OrZero(r.psi), 0, start, r.at > start, resumed)
  }

  function ScrapeFeed(s: Scrape, now: int, resumed: bool): Feed
    requires s.throttled.Some? && s.periods.Some?
  {
    var at := ScrapeTime(s, now);
    Feed(at, s.throttled.value, s.periods.value, s.start, s.start != 0 && at > s.start, resumed)
  }

  /** What one operation does to one tracker's baseline, if anything. A re-served memory
      reading does nothing. */
  function FeedAt(line: Line, p: Poller, op: Op, tk: TrackerKey): Option<Feed> {
    match op
    case Container(k, key, stats, _) =>
      if k != tk || Scrapes(line) then None
      else if line.MemoryStallLine? then
        if stats.memory.Some? && stats.memory.value.at > TrackerOf(p, tk).mem.time
        then Some(MemoryFeed(stats.start, stats.memory.value, key in p.resumedKeys)) else None
      else if stats.cpu.Some? then Some(CPUFeed(stats.start, stats.cpu.value, key in p.resumedKeys))
      else None
    case Scraped(s, now) =>
      if s.tk == tk && Scrapes(line) && s.throttled.Some? && s.periods.Some?
      then Some(ScrapeFeed(s, now, s.key in p.resumedKeys)) else None
    case Sweep(now) => if Forgets(line, p, now, tk) then Some(Forgot) else None
    case Flush(_) => None
  }

  /** A sweep forgets a baseline it finds stale. */
  predicate Forgets(line: Line, p: Poller, now: int, tk: TrackerKey) {
    && BaseAt(line, p, tk) != UNSET
    && if Scrapes(line) then tk in p.throttle && p.throttle[tk].lastSeen < now - STALE_AFTER
       else tk in p.tracker && p.tracker[tk].lastSeen < now - STALE_AFTER
  }

  /** What one operation makes a tracker emit. */
  function MoveBy(line: Line, p: Poller, op: Op, tk: TrackerKey): int {
    match FeedAt(line, p, op, tk)
    case Some(f) => Amount(PartOf(line), SideOf(line), BaseAt(line, p, tk), f)
    case None => 0
  }

  /** The lines CPU readings feed. */
  predicate ReadsCPU(line: Line) { line.CPULine? || line.CoveredLine? || line.CPUStallLine? }

  /** What a run does to one tracker. */
  function Fed(line: Line, length: int, s: Polling, ops: seq<Op>, tk: TrackerKey): seq<Feed>
    requires length > 0
  {
    if ops == [] then [] else
    var init := ops[..|ops| - 1];
    var f := FeedAt(line, RunOps(length, s, init).poller, Last(ops), tk);
    Fed(line, length, s, init, tk) + if f.Some? then [f.value] else []
  }

  lemma AdvanceFollows(line: Line, p: Poller, op: Op, tk: TrackerKey)
    requires Settled(BaseAt(line, p, tk))
      && (FeedAt(line, p, op, tk).Some? ==> StampedFeed(FeedAt(line, p, op, tk).value))
    ensures BaseAt(line, Advance(p, op), tk) ==
      if FeedAt(line, p, op, tk).Some? then Standing(BaseAt(line, p, tk), FeedAt(line, p, op, tk).value)
      else BaseAt(line, p, tk)
  {
  }

  predicate StampedFeed(f: Feed) { f.Feed? ==> f.at != 0 }

  /** A tracker stands where its own feeds lead, whatever else the run does. */
  lemma {:induction false} TrackerFollows(line: Line, length: int, s: Polling, ops: seq<Op>, tk: TrackerKey)
    requires length > 0 && Settled(BaseAt(line, s.poller, tk)) && Stamped(Fed(line, length, s, ops, tk))
    ensures BaseAt(line, RunOps(length, s, ops).poller, tk)
         == Follow(BaseAt(line, s.poller, tk), Fed(line, length, s, ops, tk))
  {
    hide BaseAt, FeedAt, Advance, ObserveAll, Emits, Settled;
    if ops != [] {
      var init := ops[..|ops| - 1];
      var fs, p := Fed(line, length, s, init, tk), RunOps(length, s, init).poller;
      FedMore(line, length, s, ops, tk);
      TrackerFollows(line, length, s, init, tk);
      FollowSettled(BaseAt(line, s.poller, tk), fs);
      AdvanceFollows(line, p, Last(ops), tk);
      var f := FeedAt(line, p, Last(ops), tk);
      if f.Some? {
        FollowStep(One, BaseAt(line, s.poller, tk), fs, f.value);
      } else {
        assert fs + [] == fs;
      }
    }
  }

  lemma FedMore(line: Line, length: int, s: Polling, ops: seq<Op>, tk: TrackerKey)
    requires length > 0 && ops != [] && Stamped(Fed(line, length, s, ops, tk))
    ensures var init := ops[..|ops| - 1];
      var f := FeedAt(line, RunOps(length, s, init).poller, Last(ops), tk);
      && Stamped(Fed(line, length, s, init, tk))
      && (f.Some? ==> StampedFeed(f.value))
  {
    hide FeedAt, RunOps;
  }

  // ---- what a tracker's move adds to its key ----

  lemma {:induction false} ContributionsConcat(c: Counter, key: Key, a: seq<Observation>, b: seq<Observation>)
    ensures Contributions(c, key, a + b) == Contributions(c, key, a) + Contributions(c, key, b)
  {
    hide Contribution;
    if b == [] {
      assert a + b == a;
    } else {
      ContributionsConcat(c, key, a, b[..|b| - 1]);
      assert (a + b)[..|a + b| - 1] == a + b[..|b| - 1];
    }
  }

  lemma ContributionsOne(c: Counter, key: Key, o: Observation)
    ensures Contributions(c, key, [o]) == Contribution(c, key, o)
  {
    hide Contribution;
    assert [o][..0] == [];
  }

  lemma ContributionsNone(c: Counter, key: Key)
    ensures Contributions(c, key, []) == 0
  {
  }

  lemma {:induction false} NoneOfIt(c: Counter, key: Key, os: seq<Observation>)
    requires forall o :: o in os ==> Contribution(c, key, o) == 0
    ensures Contributions(c, key, os) == 0
  {
    hide Contribution;
    if os != [] {
      NoneOfIt(c, key, os[..|os| - 1]);
      assert Last(os) in os;
    }
  }

  lemma IntervalAdds(line: Line, key: Key, from: int, r: CPUReading, counter: nat, psi: nat)
    requires ReadsCPU(line)
    requires r.psi.None? ==> psi == 0
    ensures Contributions(CounterOf(line), key, CPUObservations(key, from, r, counter, psi))
         == if r.at > from then Clamp(match line case CPULine => counter case CoveredLine => r.at - from case _ => psi)
            else 0
  {
    hide Contributions;
    var c := CounterOf(line);
    ContributionsNone(c, key);
    if r.at > from {
      var a, b := CPUDelta(key, from, r.at, Clamp(counter)), CPUPSI(key, from, r.at, Clamp(psi));
      ContributionsOne(c, key, a);
      ContributionsOne(c, key, b);
      ContributionsConcat(c, key, [a], if r.psi.Some? then [b] else []);
    }
  }

  lemma CPUAdds(line: Line, b: CPUBase, key: Key, start: int, r: CPUReading, resumed: bool)
    requires ReadsCPU(line)
    ensures Contributions(CounterOf(line), key, EmitCPU(b, key, start, r, resumed))
         == Amount(PartOf(line), SideOf(line), CPUBaseOf(b), CPUFeed(start, r, resumed))
  {
    hide Contributions, CPUObservations;
    ContributionsNone(CounterOf(line), key);
    if FirstCPU(b) {
      IntervalAdds(line, key, start, r, r.counter, OrZero(r.psi));
    } else if !StaleCPU(b, r) && !ResetCPU(b, r) {
      IntervalAdds(line, key, b.time, r, r.counter - b.counter, OrZero(r.psi) - b.psi);
    }
  }

  lemma MemoryAdds(b: MemoryBase, key: Key, start: int, r: MemoryReading, resumed: bool)
    requires Settled(MemoryBaseOf(b))
    ensures Contributions(MemoryStall, key, EmitMemory(b, key, start, r, resumed))
         == if r.at > b.time then Move(One, MemoryBaseOf(b), MemoryFeed(start, r, resumed)) else 0
  {
    hide Contributions;
    ContributionsNone(MemoryStall, key);
    if r.at > b.time {
      var first, psi := b.time == 0, OrZero(r.psi);
      var from := if first then start else b.time;
      var a := Memory(key, r.at, Clamp(r.workingSet));
      ContributionsOne(MemoryStall, key, a);
      assert [a] + [] == [a];
      if r.psi.Some? && psi >= b.psi && (!first || !resumed) && r.at > from {
        var c := MemoryPSI(key, from, r.at, Clamp(if first then psi else psi - b.psi));
        ContributionsOne(MemoryStall, key, c);
        ContributionsConcat(MemoryStall, key, [a], [c]);
      }
    }
  }

  lemma ScrapeAdds(line: Line, st: ThrottleState, s: Scrape, now: int, resumed: bool)
    requires Scrapes(line) && s.throttled.Some? && s.periods.Some?
    ensures Contributions(CounterOf(line), s.key, EmitThrottle(st, s, now, resumed))
         == Move(SideOf(line), ThrottleBaseOf(st), ScrapeFeed(s, now, resumed))
  {
    hide Contributions;
    var c, os := CounterOf(line), EmitThrottle(st, s, now, resumed);
    ContributionsNone(c, s.key);
    if os != [] {
      ContributionsOne(c, s.key, os[0]);
      assert os == [os[0]];
    }
  }

  /** Whose reading an operation is, and for which key. */
  predicate Reads(op: Op, tk: TrackerKey, key: Key) {
    (op.Container? && op.tk == tk && op.key == key) || (op.Scraped? && op.scrape.tk == tk && op.scrape.key == key)
  }

  /** A reading adds to its key exactly its tracker's move. */
  lemma ReadingMoves(line: Line, p: Poller, op: Op, tk: TrackerKey, key: Key)
    requires Reads(op, tk, key) && Settled(BaseAt(line, p, tk))
    ensures Contributions(CounterOf(line), key, Emits(p, op)) == MoveBy(line, p, op, tk)
  {
    hide Contributions, EmitCPU, Amount;
    var c := CounterOf(line);
    ContributionsNone(c, key);
    if op.Container? {
      var st, resumed, stats := TrackerOf(p, tk), key in p.resumedKeys, op.stats;
      var a := if stats.cpu.Some? then EmitCPU(st.cpu, key, stats.start, stats.cpu.value, resumed) else [];
      var b := if stats.memory.Some? then EmitMemory(st.mem, key, stats.start, stats.memory.value, resumed) else [];
      ContributionsConcat(c, key, a, b);
      ContainerParts(line, st, key, stats, resumed, a, b);
    } else {
      if op.scrape.throttled.Some? && op.scrape.periods.Some? {
        ScrapeOnly(line, ThrottleOf(p, tk), op.scrape, op.now, key in p.resumedKeys);
      }
    }
  }

  lemma ContainerParts(line: Line, st: CounterState, key: Key, c: ContainerStats, resumed: bool,
      a: seq<Observation>, b: seq<Observation>)
    requires a == if c.cpu.Some? then EmitCPU(st.cpu, key, c.start, c.cpu.value, resumed) else []
    requires b == if c.memory.Some? then EmitMemory(st.mem, key, c.start, c.memory.value, resumed) else []
    requires line.MemoryStallLine? ==> Settled(MemoryBaseOf(st.mem))
    ensures Contributions(CounterOf(line), key, a) ==
      if ReadsCPU(line) && c.cpu.Some?
      then Amount(PartOf(line), SideOf(line), CPUBaseOf(st.cpu), CPUFeed(c.start, c.cpu.value, resumed)) else 0
    ensures Contributions(CounterOf(line), key, b) ==
      if line.MemoryStallLine? && c.memory.Some? && c.memory.value.at > st.mem.time
      then Amount(Moved, One, MemoryBaseOf(st.mem), MemoryFeed(c.start, c.memory.value, resumed)) else 0
  {
    hide Contributions, Move;
    ContributionsNone(CounterOf(line), key);
    if ReadsCPU(line) {
      if c.cpu.Some? {
        CPUAdds(line, st.cpu, key, c.start, c.cpu.value, resumed);
      }
      NoneOfIt(CounterOf(line), key, b);
    } else {
      NoneOfIt(CounterOf(line), key, a);
      if line.MemoryStallLine? {
        if c.memory.Some? {
          MemoryAdds(st.mem, key, c.start, c.memory.value, resumed);
        }
      } else {
        NoneOfIt(CounterOf(line), key, b);
      }
    }
  }

  lemma ScrapeOnly(line: Line, st: ThrottleState, s: Scrape, now: int, resumed: bool)
    requires s.throttled.Some? && s.periods.Some?
    ensures Contributions(CounterOf(line), s.key, EmitThrottle(st, s, now, resumed)) ==
      if Scrapes(line) then Amount(Moved, SideOf(line), ThrottleBaseOf(st), ScrapeFeed(s, now, resumed)) else 0
  {
    if Scrapes(line) {
      ScrapeAdds(line, st, s, now, resumed);
    } else {
      NoneOfIt(CounterOf(line), s.key, EmitThrottle(st, s, now, resumed));
    }
  }

  lemma OtherKeys(line: Line, key: Key, p: Poller, op: Op)
    requires op.Container? ==> op.key != key
    requires op.Scraped? ==> op.scrape.key != key
    ensures Contributions(CounterOf(line), key, Emits(p, op)) == 0
  {
    NoneOfIt(CounterOf(line), key, Emits(p, op));
  }

  // ---- all replicas of one key ----

  function Itself(): (TrackerKey, int) -> int { (tk: TrackerKey, n: int) => n }

  /** One part of a run, per replica. */
  function PerReplica(q: Part, line: Line, length: int, s: Polling, ops: seq<Op>, replicas: set<TrackerKey>)
    : map<TrackerKey, int>
    requires length > 0
  {
    map tk | tk in replicas ::
      Tally(q, SideOf(line), BaseAt(line, s.poller, tk), Fed(line, length, s, ops, tk))
  }

  /** The run's readings of a key come from these trackers and from no other. */
  predicate FedBy(key: Key, replicas: set<TrackerKey>, ops: seq<Op>) {
    && (forall op :: op in ops && op.Container? ==> (op.key == key <==> op.tk in replicas))
    && (forall op :: op in ops && op.Scraped? ==> (op.scrape.key == key <==> op.scrape.tk in replicas))
  }

  /** Baselines that make sense and readings that carry a timestamp. */
  ghost predicate Sane(line: Line, length: int, s: Polling, ops: seq<Op>, replicas: set<TrackerKey>)
    requires length > 0
  {
    forall tk :: tk in replicas ==> Settled(BaseAt(line, s.poller, tk)) && Stamped(Fed(line, length, s, ops, tk))
  }

  /** A tracker's emitted total after one more operation. */
  lemma TallyStep(line: Line, length: int, s: Polling, ops: seq<Op>, tk: TrackerKey)
    requires length > 0 && ops != []
    requires Settled(BaseAt(line, s.poller, tk)) && Stamped(Fed(line, length, s, ops, tk))
    ensures var init := ops[..|ops| - 1];
      var p, b := RunOps(length, s, init).poller, BaseAt(line, s.poller, tk);
      && Settled(BaseAt(line, p, tk))
      && Tally(PartOf(line), SideOf(line), b, Fed(line, length, s, ops, tk))
         == Tally(PartOf(line), SideOf(line), b, Fed(line, length, s, init, tk)) + MoveBy(line, p, Last(ops), tk)
  {
    hide BaseAt, FeedAt, RunOps, Amount, Settled;
    var init := ops[..|ops| - 1];
    var fs, p := Fed(line, length, s, init, tk), RunOps(length, s, init).poller;
    FedMore(line, length, s, ops, tk);
    TrackerFollows(line, length, s, init, tk);
    FollowSettled(BaseAt(line, s.poller, tk), fs);
    var f := FeedAt(line, p, Last(ops), tk);
    if f.Some? {
      FollowStep(SideOf(line), BaseAt(line, s.poller, tk), fs, f.value);
    } else {
      assert fs + [] == fs;
    }
  }

  lemma NotFed(line: Line, p: Poller, op: Op, tk: TrackerKey)
    requires (op.Container? ==> op.tk != tk) && (op.Scraped? ==> op.scrape.tk != tk)
    ensures MoveBy(line, p, op, tk) == 0
  {
  }

  function TrackerOfOp(op: Op): Option<TrackerKey> {
    match op
    case Container(tk, _, _, _) => Some(tk)
    case Scraped(s, _) => Some(s.tk)
    case _ => None
  }

  lemma {:induction false} ReplicaMoves(line: Line, length: int, key: Key, replicas: set<TrackerKey>, s: Polling,
      ops: seq<Op>)
    requires length > 0 && FedBy(key, replicas, ops) && Sane(line, length, s, ops, replicas)
    ensures Moves(length, CounterOf(line), key, s, ops)
         == Total(PerReplica(PartOf(line), line, length, s, ops, replicas), Itself())
  {
    hide Contributions, Emits, MoveBy, RunOps, CounterOf, BaseAt, FeedAt, Fed, Tally, Total, Settled, Stamped;
    if ops == [] {
      NothingFed(line, length, s, replicas);
    } else {
      var init, op := ops[..|ops| - 1], Last(ops);
      var p := RunOps(length, s, init).poller;
      assert op in ops;
      forall tk | tk in replicas
        ensures Stamped(Fed(line, length, s, init, tk))
      {
        FedMore(line, length, s, ops, tk);
      }
      ReplicaMoves(line, length, key, replicas, s, init);
      var was, now := PerReplica(PartOf(line), line, length, s, init, replicas),
        PerReplica(PartOf(line), line, length, s, ops, replicas);
      forall tk | tk in replicas && TrackerOfOp(op) != Some(tk)
        ensures now[tk] == was[tk]
      {
        TallyStep(line, length, s, ops, tk);
        NotFed(line, p, op, tk);
      }
      if TrackerOfOp(op).Some? && TrackerOfOp(op).value in replicas {
        var tk := TrackerOfOp(op).value;
        TallyStep(line, length, s, ops, tk);
        ReadingMoves(line, p, op, tk, key);
        TotalUpdate(was, Itself(), tk, now[tk]);
        assert now == was[tk := now[tk]];
      } else {
        OtherKeys(line, key, p, op);
        assert now == was;
      }
    }
  }

  lemma NothingFed(line: Line, length: int, s: Polling, replicas: set<TrackerKey>)
    requires length > 0
    ensures Total(PerReplica(PartOf(line), line, length, s, [], replicas), Itself()) == 0
  {
    ZeroTotal(PerReplica(PartOf(line), line, length, s, [], replicas));
  }

  /** Values that are not negative add up to zero exactly when each is zero. */
  lemma {:induction false} ZeroTotal(m: map<TrackerKey, int>)
    requires forall tk :: tk in m ==> m[tk] >= 0
    ensures Total(m, Itself()) >= 0
    ensures Total(m, Itself()) == 0 <==> forall tk :: tk in m ==> m[tk] == 0
    decreases |m|
  {
    if m != map[] {
      var tk :| tk in m;
      TotalRemove(m, Itself(), tk);
      var rest := m - {tk};
      ZeroTotal(rest);
      assert forall k :: k in m <==> k == tk || k in rest;
    }
  }

  lemma {:induction false} TotalSum(a: map<TrackerKey, int>, b: map<TrackerKey, int>, c: map<TrackerKey, int>)
    requires a.Keys == b.Keys == c.Keys && forall tk :: tk in a ==> a[tk] + b[tk] == c[tk]
    ensures Total(a, Itself()) + Total(b, Itself()) == Total(c, Itself())
    decreases |a|
  {
    if a == map[] {
      assert b == map[] && c == map[];
    } else {
      var tk :| tk in a;
      TotalRemove(a, Itself(), tk);
      TotalRemove(b, Itself(), tk);
      TotalRemove(c, Itself(), tk);
      TotalSum(a - {tk}, b - {tk}, c - {tk});
    }
  }

  // ---- end to end ----

  /** First seen in this run, by stamped readings. */
  predicate Fresh(line: Line, length: int, s: Polling, ops: seq<Op>, tk: TrackerKey)
    requires length > 0
  {
    BaseAt(line, s.poller, tk) == UNSET && Stamped(Fed(line, length, s, ops, tk))
  }

  ghost predicate AllFresh(line: Line, length: int, s: Polling, ops: seq<Op>, replicas: set<TrackerKey>)
    requires length > 0
  {
    forall tk :: tk in replicas ==> Fresh(line, length, s, ops, tk)
  }

  ghost predicate AllNever(q: Part, line: Line, length: int, s: Polling, ops: seq<Op>, replicas: set<TrackerKey>)
    requires length > 0 && Judged(q)
  {
    forall tk :: tk in replicas ==> Never(q, SideOf(line), UNSET, Fed(line, length, s, ops, tk))
  }

  /** Where each replica's counter stands. */
  function Stands(line: Line, s: Polling, replicas: set<TrackerKey>): map<TrackerKey, int> {
    map tk | tk in replicas :: Level(SideOf(line), BaseAt(line, s.poller, tk))
  }

  /** What each replica's counter was last read at, sweeps or not. */
  function LastRead(line: Line, length: int, s: Polling, ops: seq<Op>, replicas: set<TrackerKey>): map<TrackerKey, int>
    requires length > 0
  {
    map tk | tk in replicas :: Known(SideOf(line), UNSET, Fed(line, length, s, ops, tk))
  }

  /** What each replica's run put into its key beyond where its counter stands. */
  function Excess(line: Line, length: int, s: Polling, ops: seq<Op>, replicas: set<TrackerKey>): map<TrackerKey, int>
    requires length > 0
  {
    map tk | tk in replicas ::
      var fs := Fed(line, length, s, ops, tk);
      Tally(Fallen, SideOf(line), UNSET, fs) + Tally(Forgotten, SideOf(line), UNSET, fs)
  }

  /** What each replica's run attributed a second time, or saw fall. */
  function Surplus(line: Line, length: int, s: Polling, ops: seq<Op>, replicas: set<TrackerKey>): map<TrackerKey, int>
    requires length > 0
  {
    map tk | tk in replicas ::
      var fs := Fed(line, length, s, ops, tk);
      Tally(Fallen, SideOf(line), UNSET, fs) + Recounted(SideOf(line), UNSET, fs)
  }

  lemma ExcessZero(line: Line, length: int, s: Polling, ops: seq<Op>, replicas: set<TrackerKey>)
    requires length > 0 && AllFresh(line, length, s, ops, replicas)
    ensures Total(Excess(line, length, s, ops, replicas), Itself()) >= 0
    ensures Total(Excess(line, length, s, ops, replicas), Itself()) == 0 <==>
      (AllNever(Fallen, line, length, s, ops, replicas) && AllNever(Forgotten, line, length, s, ops, replicas))
  {
    hide Never, Tally, Fed, Total;
    var m, d := Excess(line, length, s, ops, replicas), SideOf(line);
    forall tk | tk in replicas
      ensures m[tk] >= 0
      ensures m[tk] == 0 <==> (Never(Fallen, d, UNSET, Fed(line, length, s, ops, tk))
                               && Never(Forgotten, d, UNSET, Fed(line, length, s, ops, tk)))
    {
      NeverIff(Fallen, d, UNSET, Fed(line, length, s, ops, tk));
      NeverIff(Forgotten, d, UNSET, Fed(line, length, s, ops, tk));
    }
    ZeroTotal(m);
  }

  /** No reading of any replica finds its tracker forgotten after a value above zero. */
  ghost predicate NoneRediscovered(line: Line, length: int, s: Polling, ops: seq<Op>, replicas: set<TrackerKey>)
    requires length > 0
  {
    forall tk :: tk in replicas ==> NeverRediscovers(SideOf(line), Fed(line, length, s, ops, tk))
  }

  predicate NeverRediscovers(d: Side, fs: seq<Feed>) {
    forall n :: 0 <= n < |fs| ==> !Rediscovers(d, UNSET, fs, n)
  }

  lemma SurplusZero(line: Line, length: int, s: Polling, ops: seq<Op>, replicas: set<TrackerKey>)
    requires length > 0 && AllFresh(line, length, s, ops, replicas)
    ensures Total(Surplus(line, length, s, ops, replicas), Itself()) >= 0
    ensures Total(Surplus(line, length, s, ops, replicas), Itself()) == 0 <==>
      (AllNever(Fallen, line, length, s, ops, replicas) && NoneRediscovered(line, length, s, ops, replicas))
  {
    hide Never, Tally, Fed, Total, Recounted, Rediscovers;
    var m, d := Surplus(line, length, s, ops, replicas), SideOf(line);
    forall tk | tk in replicas
      ensures m[tk] >= 0
      ensures m[tk] == 0 <==> (Never(Fallen, d, UNSET, Fed(line, length, s, ops, tk))
                               && NeverRediscovers(d, Fed(line, length, s, ops, tk)))
    {
      NeverIff(Fallen, d, UNSET, Fed(line, length, s, ops, tk));
      RecountedIff(d, UNSET, Fed(line, length, s, ops, tk));
    }
    ZeroTotal(m);
  }

  /** Telescoping end to end, against the standing baselines: for replicas first seen in
      a run whose every rise is attributed, what their key has over every window, handed
      over or open, grows by where their counters stand plus every fall and every value
      a sweep forgot - however polls, re-served snapshots, window boundaries and flushes
      fall. It grows by exactly where the counters stand if and only if no fresh reading
      of any replica is below its baseline and no sweep forgets one of them above zero. */
  lemma ReplicasTelescope(line: Line, length: int, key: Key, replicas: set<TrackerKey>, s: Polling, ops: seq<Op>)
    requires length > 0 && FedBy(key, replicas, ops) && AllFresh(line, length, s, ops, replicas)
    requires !line.CoveredLine? && AllNever(Unattributed, line, length, s, ops, replicas)
    ensures var end, c := RunOps(length, s, ops), CounterOf(line);
      var stands := Total(Stands(line, end, replicas), Itself());
      var excess := Total(Excess(line, length, s, ops, replicas), Itself());
      && Everywhere(c, key, end) == Everywhere(c, key, s) + stands + excess
      && (Everywhere(c, key, end) == Everywhere(c, key, s) + stands <==>
            (AllNever(Fallen, line, length, s, ops, replicas) && AllNever(Forgotten, line, length, s, ops, replicas)))
  {
    hide Everywhere, Moves, RunOps, Tally, Follow, Fed, Never, FedBy, Level, Stamped, Total, BaseAt;
    PollingConserved(length, CounterOf(line), key, s, ops);
    ReplicaMoves(line, length, key, replicas, s, ops);
    ExcessZero(line, length, s, ops, replicas);
    var end := RunOps(length, s, ops);
    var moved, excess := PerReplica(Moved, line, length, s, ops, replicas), Excess(line, length, s, ops, replicas);
    forall tk | tk in replicas
      ensures moved[tk] == Level(SideOf(line), BaseAt(line, end.poller, tk)) + excess[tk]
    {
      TelescopeExact(SideOf(line), Fed(line, length, s, ops, tk));
      TrackerFollows(line, length, s, ops, tk);
    }
    TotalSum(Stands(line, end, replicas), excess, moved);
  }

  /** Main result, nothing attributed twice, end to end: for replicas first seen in a run
      whose every rise is attributed, what their key has over every window grows by what
      their counters were last read at - deleted and forgotten ones included - plus every
      fall and everything counted again. It grows by exactly the last values read if and
      only if no fresh reading is below its baseline and no reading finds its tracker
      forgotten after a value above zero was read. */
  lemma ReplicasCountedOnce(line: Line, length: int, key: Key, replicas: set<TrackerKey>, s: Polling, ops: seq<Op>)
    requires length > 0 && FedBy(key, replicas, ops) && AllFresh(line, length, s, ops, replicas)
    requires !line.CoveredLine? && AllNever(Unattributed, line, length, s, ops, replicas)
    ensures var end, c := RunOps(length, s, ops), CounterOf(line);
      var read := Total(LastRead(line, length, s, ops, replicas), Itself());
      var surplus := Total(Surplus(line, length, s, ops, replicas), Itself());
      && Everywhere(c, key, end) == Everywhere(c, key, s) + read + surplus
      && (Everywhere(c, key, end) == Everywhere(c, key, s) + read <==>
            (AllNever(Fallen, line, length, s, ops, replicas) && NoneRediscovered(line, length, s, ops, replicas)))
  {
    hide Everywhere, Moves, RunOps, Tally, Follow, Fed, Never, FedBy, Stamped, Total, BaseAt, Known, Recounted;
    PollingConserved(length, CounterOf(line), key, s, ops);
    ReplicaMoves(line, length, key, replicas, s, ops);
    SurplusZero(line, length, s, ops, replicas);
    var moved, surplus := PerReplica(Moved, line, length, s, ops, replicas), Surplus(line, length, s, ops, replicas);
    var read, d := LastRead(line, length, s, ops, replicas), SideOf(line);
    forall tk | tk in replicas
      ensures moved[tk] == read[tk] + surplus[tk]
    {
      TelescopeKnown(d, UNSET, Fed(line, length, s, ops, tk));
      NeverIff(Unattributed, d, UNSET, Fed(line, length, s, ops, tk));
    }
    TotalSum(read, surplus, moved);
  }

  /** What each replica's readings cover. */
  ghost predicate AllUnbroken(length: int, s: Polling, ops: seq<Op>, replicas: set<TrackerKey>)
    requires length > 0
  {
    forall tk :: tk in replicas ==>
      Unbroken(Fed(CoveredLine, length, s, ops, tk)) && Short(Fed(CoveredLine, length, s, ops, tk))
  }

  function TimeCovered(length: int, s: Polling, ops: seq<Op>, replicas: set<TrackerKey>): map<TrackerKey, int>
    requires length > 0
  {
    map tk | tk in replicas ::
      var fs := Fed(CoveredLine, length, s, ops, tk);
      if fs == [] || fs[0].Forgot? then 0 else BaseAt(CoveredLine, RunOps(length, s, ops).poller, tk).time - fs[0].start
  }

  /** Covered time, end to end: whatever a run reads, a key's covered time over every window
      grows, replica by replica, by the intervals its attributed readings were taken over;
      and for replicas first seen in the run and read without a break, by the time from
      each container's start to its latest reading. */
  lemma CoveredTime(length: int, key: Key, replicas: set<TrackerKey>, s: Polling, ops: seq<Op>)
    requires length > 0 && FedBy(key, replicas, ops) && Sane(CoveredLine, length, s, ops, replicas)
    ensures var end := RunOps(length, s, ops);
      && Everywhere(Covered, key, end) == Everywhere(Covered, key, s)
         + Total(PerReplica(Covering, CoveredLine, length, s, ops, replicas), Itself())
      && (AllFresh(CoveredLine, length, s, ops, replicas) && AllUnbroken(length, s, ops, replicas) ==>
            Everywhere(Covered, key, end)
            == Everywhere(Covered, key, s) + Total(TimeCovered(length, s, ops, replicas), Itself()))
  {
    hide Everywhere, Moves, RunOps, Tally, Follow, Fed, FedBy, Stamped, Total, BaseAt, Unbroken, Short, Settled;
    PollingConserved(length, Covered, key, s, ops);
    ReplicaMoves(CoveredLine, length, key, replicas, s, ops);
    if AllFresh(CoveredLine, length, s, ops, replicas) && AllUnbroken(length, s, ops, replicas) {
      var a, b := PerReplica(Covering, CoveredLine, length, s, ops, replicas), TimeCovered(length, s, ops, replicas);
      forall tk | tk in replicas
        ensures a[tk] == b[tk]
      {
        UnbrokenReads(Fed(CoveredLine, length, s, ops, tk));
        CoveredTelescopes(One, Fed(CoveredLine, length, s, ops, tk));
        TrackerFollows(CoveredLine, length, s, ops, tk);
      }
      assert a == b;
    }
  }

  lemma UnbrokenReads(fs: seq<Feed>)
    requires Unbroken(fs)
    ensures fs != [] ==> fs[0].Feed?
  {
  }

  // ---- inputs ----

  /** A reading without PSI between two with it drops a rise of the CPU counter, the
      absent counter reading as one that fell, and the stall emitted before it is
      emitted again after it. */
  lemma VanishingPSIExample()
    ensures var fs := [
        CPUFeed(1, CPUReading(10, 100, Some(7)), false),
        CPUFeed(1, CPUReading(20, 150, None), false),
        CPUFeed(1, CPUReading(30, 200, Some(9)), false)];
      && Follow(UNSET, fs) == Base(30, 200, 9)
      && Tally(Moved, One, UNSET, fs) == 150
      && Tally(Moved, Two, UNSET, fs) == 16
  {
    var a, b := CPUFeed(1, CPUReading(10, 100, Some(7)), false), CPUFeed(1, CPUReading(20, 150, None), false);
    var c := CPUFeed(1, CPUReading(30, 200, Some(9)), false);
    ThreeFeeds(One, a, b, c);
    ThreeFeeds(Two, a, b, c);
  }

  /** The memory stall is emitted again in the same way. */
  lemma VanishingMemoryPSIExample()
    ensures var fs := [
        MemoryFeed(1, MemoryReading(10, 0, Some(7)), false),
        MemoryFeed(1, MemoryReading(20, 0, None), false),
        MemoryFeed(1, MemoryReading(30, 0, Some(9)), false)];
      Follow(UNSET, fs) == Base(30, 9, 0) && Tally(Moved, One, UNSET, fs) == 16
  {
    ThreeFeeds(One, MemoryFeed(1, MemoryReading(10, 0, Some(7)), false),
      MemoryFeed(1, MemoryReading(20, 0, None), false), MemoryFeed(1, MemoryReading(30, 0, Some(9)), false));
  }

  lemma ThreeFeeds(d: Side, a: Feed, b: Feed, c: Feed)
    ensures var x := Standing(UNSET, a);
      var y := Standing(x, b);
      && Follow(UNSET, [a, b, c]) == Standing(y, c)
      && Tally(Moved, d, UNSET, [a, b, c]) == Move(d, UNSET, a) + Move(d, x, b) + Move(d, y, c)
  {
    hide Move, Standing;
    assert [] + [a] == [a] && [a] + [b] == [a, b] && [a, b] + [c] == [a, b, c];
    FollowStep(d, UNSET, [], a);
    FollowStep(d, UNSET, [a], b);
    FollowStep(d, UNSET, [a, b], c);
  }

  lemma MovesStep(length: int, c: Counter, key: Key, s: Polling, ops: seq<Op>, op: Op)
    requires length > 0
    ensures RunOps(length, s, ops + [op]) == Step(length, RunOps(length, s, ops), op)
    ensures Moves(length, c, key, s, ops + [op])
         == Moves(length, c, key, s, ops) + Contributions(c, key, Emits(RunOps(length, s, ops).poller, op))
  {
    hide Step, Contributions, Emits;
    assert (ops + [op])[..|ops + [op]| - 1] == ops;
  }

  /** A tracker forgotten by a sweep is a first sight again: the same counter is
      attributed from container start a second time. */
  lemma SweptTrackerExample(tk: TrackerKey, key: Key)
    ensures var hour := 3600 * SECOND;
      var stats := ContainerStats(1, Some(CPUReading(10, 100, None)), None);
      var ops := [Container(tk, key, stats, 10), Sweep(hour), Container(tk, key, stats, hour)];
      Moves(hour, Core, key, Polling(Poller(map[], map[], {}, 0), map[], []), ops) == 200
  {
    hide ObserveAll;
    var hour := 3600 * SECOND;
    var stats := ContainerStats(1, Some(CPUReading(10, 100, None)), None);
    var a, b, c := Container(tk, key, stats, 10), Sweep(hour), Container(tk, key, stats, hour);
    var s := Polling(Poller(map[], map[], {}, 0), map[], []);
    MovesStep(hour, Core, key, s, [], a);
    MovesStep(hour, Core, key, s, [a], b);
    MovesStep(hour, Core, key, s, [a, b], c);
    assert [] + [a] == [a] && [a] + [b] == [a, b] && [a, b] + [c] == [a, b, c];
    var p1 := Advance(s.poller, a);
    var p2 := Advance(p1, b);
    assert tk !in p2.tracker;
    ReadingMoves(CPULine, s.poller, a, tk, key);
    ReadingMoves(CPULine, p2, c, tk, key);
    ContributionsNone(Core, key);
  }
}
