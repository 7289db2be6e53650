/** What one kubelet reading or cAdvisor row files, window by window: over the interval
    since the reading before it, or since the container's start
    (internal/collector/usage.go, internal/collector/cadvisor.go). */
module Readings {
  import opened Basics
  import opened Windows
  import opened Records
  import opened Rollups
  import opened Journals
  import opened Baselines
  import opened Trackers
  import opened Telescoping
  import opened Samples

  /** What the observations of an operation add to a counter of one window. */
  function AddedUnder(c: Counter, length: int, os: seq<Observation>, ok: OpenKey): int
    requires length > 0
  {
    SumSeq(FiledOver(Added(c), length, os, ok))
  }

  /** What a window gets of an amount spread over an interval. */
  function ShareOf(length: int, from: int, to: int, amount: int, w: int): int
    requires length > 0
  {
    SumSeq(PartsAt(SplitSpec(length, from, to, amount), w))
  }

  lemma NoneOver(f: Filing, length: int, ok: OpenKey)
    requires length > 0
    ensures FiledOver(f, length, [], ok) == []
  {
  }

  lemma OverMore(f: Filing, length: int, os: seq<Observation>, o: Observation, ok: OpenKey)
    requires length > 0
    ensures FiledOver(f, length, os + [o], ok) == FiledOver(f, length, os, ok) + Files(f, length, o, ok)
  {
    hide Files;
    assert (os + [o])[..|os + [o]| - 1] == os;
  }

  lemma OneOver(f: Filing, length: int, o: Observation, ok: OpenKey)
    requires length > 0
    ensures FiledOver(f, length, [o], ok) == Files(f, length, o, ok)
  {
    hide Files;
    OverMore(f, length, [], o, ok);
    NoneOver(f, length, ok);
    assert [] + [o] == [o] && [] + Files(f, length, o, ok) == Files(f, length, o, ok);
  }

  lemma {:induction false} OverConcat(f: Filing, length: int, a: seq<Observation>, b: seq<Observation>, ok: OpenKey)
    requires length > 0
    ensures FiledOver(f, length, a + b, ok) == FiledOver(f, length, a, ok) + FiledOver(f, length, b, ok)
  {
    hide Files, FiledOver;
    if b == [] {
      NoneOver(f, length, ok);
      assert a + b == a && FiledOver(f, length, a, ok) + [] == FiledOver(f, length, a, ok);
    } else {
      var init, o := b[..|b| - 1], Last(b);
      OverConcat(f, length, a, init, ok);
      assert a + b == (a + init) + [o] && b == init + [o];
      OverMore(f, length, a + init, o, ok);
      OverMore(f, length, init, o, ok);
    }
  }

  lemma {:induction false} NoneFiled(f: Filing, length: int, os: seq<Observation>, ok: OpenKey)
    requires length > 0 && forall o :: o in os ==> Files(f, length, o, ok) == []
    ensures FiledOver(f, length, os, ok) == []
  {
    hide Files;
    if os != [] {
      assert Last(os) in os;
      NoneFiled(f, length, os[..|os| - 1], ok);
    }
  }

  // ---- nothing spread is nothing ----

  lemma {:induction false} ZeroParts(length: int, to: int, total: int, segFrom: int, w: int)
    requires length > 0
    ensures SumSeq(PartsAt(SplitFrom(length, to, 0, total, segFrom, 0), w)) == 0
    decreases Gap(segFrom, to)
  {
    hide SplitFrom, MulDiv, StartOf;
    if segFrom < to {
      SplitStep(length, to, 0, total, segFrom, 0);
      var start := StartOf(length, segFrom);
      NothingShared(Sub(start + length, segFrom), total);
      ZeroParts(length, to, total, start + length, w);
      HeadPart(Part(start, 0), SplitFrom(length, to, 0, total, start + length, 0), w);
      HeadPart(Part(start, 0), [], w);
      assert [Part(start, 0)] + [] == [Part(start, 0)];
    } else {
      SplitPast(length, to, 0, total, segFrom, 0);
    }
  }

  lemma NothingShared(b: int, c: int)
    ensures MulDiv(0, b, c) == 0
  {
  }

  lemma PartMore(parts: seq<Windows.Part>, p: Windows.Part, w: int)
    ensures SumSeq(PartsAt(parts + [p], w)) == SumSeq(PartsAt(parts, w)) + if p.start == w then p.amount else 0
  {
    assert (parts + [p])[..|parts + [p]| - 1] == parts;
    var one := if p.start == w then [p.amount] else [];
    assert PartsAt(parts + [p], w) == PartsAt(parts, w) + one;
    SumSeqConcat(PartsAt(parts, w), one);
    assert SumSeq([p.amount]) == p.amount;
  }

  lemma {:induction false} HeadPart(p: Windows.Part, rest: seq<Windows.Part>, w: int)
    ensures SumSeq(PartsAt([p] + rest, w)) == (if p.start == w then p.amount else 0) + SumSeq(PartsAt(rest, w))
  {
    if rest == [] {
      PartMore([], p, w);
      assert [p] + rest == [] + [p];
      assert SumSeq(PartsAt([], w)) == 0;
    } else {
      hide PartsAt, SumSeq;
      var init, last := rest[..|rest| - 1], Last(rest);
      HeadPart(p, init, w);
      assert rest == init + [last] && [p] + rest == ([p] + init) + [last];
      PartMore([p] + init, last, w);
      PartMore(init, last, w);
    }
  }

  lemma NothingSpread(length: int, from: int, to: int, w: int)
    requires length > 0
    ensures ShareOf(length, from, to, 0, w) == 0
  {
    hide SplitFrom;
    if Sub(to, from) > 0 {
      ZeroParts(length, to, Sub(to, from), from, w);
    }
  }

  // ---- CPU readings ----

  lemma CPUShares(line: Line, length: int, b: CPUBase, key: Key, start: int, r: CPUReading, resumed: bool, w: int)
    requires length > 0 && ReadsCPU(line)
    ensures var f := CPUFeed(start, r, resumed);
      AddedUnder(CounterOf(line), length, EmitCPU(b, key, start, r, resumed), Slot(key, w))
      == ShareOf(length, Origin(CPUBaseOf(b), f), f.at, Amount(PartOf(line), SideOf(line), CPUBaseOf(b), f), w)
  {
    hide SplitSpec, PartsAt, SumSeq;
    var f, ok := CPUFeed(start, r, resumed), Slot(key, w);
    var c, from := CounterOf(line), Origin(CPUBaseOf(b), f);
    var os := EmitCPU(b, key, start, r, resumed);
    NothingSpread(length, from, r.at, w);
    NoneOver(Added(c), length, ok);
    NoSum();
    if os != [] {
      OneOver(Added(c), length, os[0], ok);
      if r.psi.Some? {
        assert os == [os[0]] + [os[1]];
        OneOver(Added(c), length, os[1], ok);
        OverConcat(Added(c), length, [os[0]], [os[1]], ok);
        EmptyConcat(Files(Added(c), length, os[0], ok), Files(Added(c), length, os[1], ok));
      } else {
        assert os == [os[0]];
      }
    }
  }

  lemma EmptyConcat(a: seq<int>, b: seq<int>)
    ensures a == [] ==> a + b == b
    ensures b == [] ==> a + b == a
  {
  }

  lemma NoSum()
    ensures SumSeq([]) == 0
  {
  }

  lemma MemoryShares(length: int, b: MemoryBase, key: Key, start: int, r: MemoryReading, resumed: bool, w: int)
    requires length > 0 && Settled(MemoryBaseOf(b))
    ensures var f := MemoryFeed(start, r, resumed);
      AddedUnder(MemoryStall, length, EmitMemory(b, key, start, r, resumed), Slot(key, w))
      == if r.at > b.time
         then ShareOf(length, Origin(MemoryBaseOf(b), f), f.at, Amount(Moved, One, MemoryBaseOf(b), f), w) else 0
  {
    hide SplitSpec, PartsAt, SumSeq;
    var f, ok, filing := MemoryFeed(start, r, resumed), Slot(key, w), Added(MemoryStall);
    var os := EmitMemory(b, key, start, r, resumed);
    NothingSpread(length, Origin(MemoryBaseOf(b), f), r.at, w);
    NoneOver(filing, length, ok);
    NoSum();
    if r.at > b.time {
      OneOver(filing, length, os[0], ok);
      if |os| == 2 {
        assert os == [os[0]] + [os[1]];
        OneOver(filing, length, os[1], ok);
        OverConcat(filing, length, [os[0]], [os[1]], ok);
        EmptyConcat(Files(filing, length, os[0], ok), Files(filing, length, os[1], ok));
      } else {
        assert os == [os[0]];
      }
    }
  }

  lemma ScrapeShares(line: Line, length: int, st: ThrottleState, s: Scrape, now: int, resumed: bool, w: int)
    requires length > 0 && Scrapes(line) && s.throttled.Some? && s.periods.Some?
    ensures var f := ScrapeFeed(s, now, resumed);
      AddedUnder(CounterOf(line), length, EmitThrottle(st, s, now, resumed), Slot(s.key, w))
      == ShareOf(length, Origin(ThrottleBaseOf(st), f), f.at, Amount(Moved, SideOf(line), ThrottleBaseOf(st), f), w)
  {
    hide SplitSpec, PartsAt, SumSeq;
    var f, ok, filing := ScrapeFeed(s, now, resumed), Slot(s.key, w), Added(CounterOf(line));
    var os := EmitThrottle(st, s, now, resumed);
    NothingSpread(length, Origin(ThrottleBaseOf(st), f), f.at, w);
    NoneOver(filing, length, ok);
    NoSum();
    if os != [] {
      assert os == [os[0]];
      OneOver(filing, length, os[0], ok);
    }
  }

  /** Readings of one kind add nothing to the counters of another. */
  lemma OtherShares(c: Counter, length: int, os: seq<Observation>, ok: OpenKey)
    requires length > 0 && forall o :: o in os ==> Carries(c, o).None?
    ensures AddedUnder(c, length, os, ok) == 0
  {
    hide SplitSpec, PartsAt;
    NoneFiled(Added(c), length, os, ok);
    NoSum();
  }

  lemma ContainerShares(line: Line, length: int, p: Poller, op: Op, tk: TrackerKey, key: Key, w: int)
    requires length > 0 && op.Container? && Reads(op, tk, key) && Settled(BaseAt(line, p, tk))
    ensures AddedUnder(CounterOf(line), length, Emits(p, op), Slot(key, w)) ==
      match FeedAt(line, p, op, tk)
      case Some(f) => ShareOf(length, Origin(BaseAt(line, p, tk), f), f.at, MoveBy(line, p, op, tk), w)
      case None => 0
  {
    hide SplitSpec, PartsAt, SumSeq, EmitCPU, EmitMemory, ShareOf, Amount, FiledOver;
    var st, resumed, stats, ok := TrackerOf(p, tk), key in p.resumedKeys, op.stats, Slot(key, w);
    var c := CounterOf(line);
    var a := if stats.cpu.Some? then EmitCPU(st.cpu, key, stats.start, stats.cpu.value, resumed) else [];
    var b := if stats.memory.Some? then EmitMemory(st.mem, key, stats.start, stats.memory.value, resumed) else [];
    OverConcat(Added(c), length, a, b, ok);
    SumSeqConcat(FiledOver(Added(c), length, a, ok), FiledOver(Added(c), length, b, ok));
    NoneOver(Added(c), length, ok);
    NoSum();
    if ReadsCPU(line) {
      if stats.memory.Some? {
        MemoryCarries(st.mem, key, stats.start, stats.memory.value, resumed);
        OtherShares(c, length, b, ok);
      }
      if stats.cpu.Some? {
        CPUShares(line, length, st.cpu, key, stats.start, stats.cpu.value, resumed, w);
      }
    } else {
      if stats.cpu.Some? {
        CPUCarries(st.cpu, key, stats.start, stats.cpu.value, resumed);
        OtherShares(c, length, a, ok);
      }
      if stats.memory.Some? {
        if line.MemoryStallLine? {
          MemoryShares(length, st.mem, key, stats.start, stats.memory.value, resumed, w);
        } else {
          MemoryCarries(st.mem, key, stats.start, stats.memory.value, resumed);
          OtherShares(c, length, b, ok);
        }
      }
    }
  }

  lemma CPUCarries(b: CPUBase, key: Key, start: int, r: CPUReading, resumed: bool)
    ensures forall o :: o in EmitCPU(b, key, start, r, resumed) ==>
      Carries(MemoryStall, o).None? && Carries(Throttled, o).None? && Carries(Periods, o).None?
  {
  }

  lemma MemoryCarries(b: MemoryBase, key: Key, start: int, r: MemoryReading, resumed: bool)
    ensures forall o, c :: o in EmitMemory(b, key, start, r, resumed) && c != MemoryStall ==> Carries(c, o).None?
  {
  }

  /** Main result, interval by interval: a reading or scrape spreads what its tracker emits
      over the time since the fresh reading before it - since the container's start at a
      first sight - and each window of its key gets the share of that interval that falls
      to it. This holds for core time, covered time, both stalls and both throttling
      counters. */
  lemma ReadingShares(line: Line, length: int, p: Poller, op: Op, tk: TrackerKey, key: Key, w: int)
    requires length > 0 && Reads(op, tk, key) && Settled(BaseAt(line, p, tk))
    ensures AddedUnder(CounterOf(line), length, Emits(p, op), Slot(key, w)) ==
      match FeedAt(line, p, op, tk)
      case Some(f) => ShareOf(length, Origin(BaseAt(line, p, tk), f), f.at, MoveBy(line, p, op, tk), w)
      case None => 0
  {
    hide SplitSpec, PartsAt, SumSeq, ShareOf;
    if op.Container? {
      ContainerShares(line, length, p, op, tk, key, w);
    } else {
      var s, st, resumed := op.scrape, ThrottleOf(p, tk), key in p.resumedKeys;
      NoneOver(Added(CounterOf(line)), length, Slot(key, w));
      NoSum();
      if s.throttled.Some? && s.periods.Some? {
        if Scrapes(line) {
          ScrapeShares(line, length, st, s, op.now, resumed, w);
        } else {
          OtherShares(CounterOf(line), length, EmitThrottle(st, s, op.now, resumed), Slot(key, w));
        }
      }
    }
  }

  // ---- samples and counts ----

  /** A CPU reading whose rise is attributed is one rate sample over its interval, filed where
      that interval ends; its stall is counted there too where PSI was read. */
  lemma CPUSamples(length: int, b: CPUBase, key: Key, start: int, r: CPUReading, resumed: bool, w: int)
    requires length > 0
    ensures var f, base := CPUFeed(start, r, resumed), CPUBaseOf(b);
      var os, here := EmitCPU(b, key, start, r, resumed), Attributes(base, f) && Holds(length, w, r.at - 1);
      && FiledOver(Rate, length, os, Slot(key, w))
         == (if here then [Millicores(Origin(base, f), r.at, Move(One, base, f))] else [])
      && FiledOver(CPUStallCount, length, os, Slot(key, w)) == (if here && r.psi.Some? then [1] else [])
  {
    hide Millicores, Holds, FiledOver;
    var ok := Slot(key, w);
    var os := EmitCPU(b, key, start, r, resumed);
    forall f | f == Rate || f == CPUStallCount
      ensures FiledOver(f, length, os, ok) ==
        if os == [] then [] else if |os| == 1 then Files(f, length, os[0], ok)
        else Files(f, length, os[0], ok) + Files(f, length, os[1], ok)
    {
      NoneOver(f, length, ok);
      if os != [] {
        OneOver(f, length, os[0], ok);
        if |os| == 2 {
          assert os == [os[0]] + [os[1]];
          OneOver(f, length, os[1], ok);
          OverConcat(f, length, [os[0]], [os[1]], ok);
        } else {
          assert os == [os[0]];
        }
      }
    }
  }

  /** A fresh memory reading is one working-set sample in the window holding its instant;
      its stall is counted where the rise is attributed and PSI was read. */
  lemma MemorySamples(length: int, b: MemoryBase, key: Key, start: int, r: MemoryReading, resumed: bool, w: int)
    requires length > 0 && Settled(MemoryBaseOf(b))
    ensures var f, base := MemoryFeed(start, r, resumed), MemoryBaseOf(b);
      var os := EmitMemory(b, key, start, r, resumed);
      && FiledOver(WorkingSet, length, os, Slot(key, w))
         == (if r.at > b.time && Holds(length, w, r.at) then [Min(r.workingSet, MAX_INT64)] else [])
      && FiledOver(MemoryStallCount, length, os, Slot(key, w))
         == (if r.at > b.time && r.psi.Some? && Attributes(base, f) && Holds(length, w, r.at - 1) then [1] else [])
  {
    hide Holds, FiledOver;
    var ok := Slot(key, w);
    var os := EmitMemory(b, key, start, r, resumed);
    forall f | f == WorkingSet || f == MemoryStallCount
      ensures FiledOver(f, length, os, ok) ==
        if os == [] then [] else if |os| == 1 then Files(f, length, os[0], ok)
        else Files(f, length, os[0], ok) + Files(f, length, os[1], ok)
    {
      NoneOver(f, length, ok);
      if os != [] {
        OneOver(f, length, os[0], ok);
        if |os| == 2 {
          assert os == [os[0]] + [os[1]];
          OneOver(f, length, os[1], ok);
          OverConcat(f, length, [os[0]], [os[1]], ok);
        } else {
          assert os == [os[0]];
        }
      }
    }
  }

  /** A scrape is counted once, where its interval ends, if its rises are attributed. */
  lemma ScrapeCounts(length: int, st: ThrottleState, s: Scrape, now: int, resumed: bool, w: int)
    requires length > 0 && s.throttled.Some? && s.periods.Some?
    ensures var f := ScrapeFeed(s, now, resumed);
      FiledOver(ThrottlingCount, length, EmitThrottle(st, s, now, resumed), Slot(s.key, w))
      == if Attributes(ThrottleBaseOf(st), f) && Holds(length, w, f.at - 1) then [1] else []
  {
    hide Holds, FiledOver;
    var os, ok := EmitThrottle(st, s, now, resumed), Slot(s.key, w);
    NoneOver(ThrottlingCount, length, ok);
    if os != [] {
      assert os == [os[0]];
      OneOver(ThrottlingCount, length, os[0], ok);
    }
  }

  // ---- whole runs ----

  /** Everything a run's readings emit, in order. */
  function EmittedOver(length: int, s: Polling, ops: seq<Op>): seq<Observation>
    requires length > 0
  {
    if ops == [] then [] else
    var init := ops[..|ops| - 1];
    EmittedOver(length, s, init) + Emits(RunOps(length, s, init).poller, Last(ops))
  }

  /** Between flushes the open windows are the rollup of what the readings emitted, so every
      record means what those observations file under it. */
  lemma {:induction false} RunRollsUp(length: int, s: Polling, ops: seq<Op>)
    requires length > 0 && forall op :: op in ops ==> !op.Flush?
    ensures RunOps(length, s, ops).open == ObserveAll(length, s.open, EmittedOver(length, s, ops))
  {
    hide ObserveAll, Emits, Advance;
    if ops == [] {
      ObserveNone(length, s.open);
    } else {
      var init := ops[..|ops| - 1];
      assert Last(ops) in ops;
      RunRollsUp(length, s, init);
      ObserveAllConcat(length, s.open, EmittedOver(length, s, init), Emits(RunOps(length, s, init).poller, Last(ops)));
    }
  }

  /** When a container was last polled, if a tracker of it is still kept: a sweep more than
      five minutes later forgets it. */
  function LastPolled(ops: seq<Op>, tk: TrackerKey): Option<int> {
    if ops == [] then None else
    var before := LastPolled(ops[..|ops| - 1], tk);
    match Last(ops)
    case Container(k, _, _, now) => if k == tk then Some(now) else before
    case Sweep(now) => if before.Some? && now - before.value > 300 * 1_000_000_000 then None else before
    case _ => before
  }

  /** The same for scrapes that carry both counters. */
  function LastScraped(ops: seq<Op>, tk: TrackerKey): Option<int> {
    if ops == [] then None else
    var before := LastScraped(ops[..|ops| - 1], tk);
    match Last(ops)
    case Scraped(s, now) => if s.tk == tk && s.throttled.Some? && s.periods.Some? then Some(now) else before
    case Sweep(now) => if before.Some? && now - before.value > 300 * 1_000_000_000 then None else before
    case _ => before
  }

  /** A tracker is kept exactly until a sweep finds its container unseen for more than five
      minutes. */
  lemma {:induction false} KeptFiveMinutes(length: int, ops: seq<Op>, tk: TrackerKey)
    requires length > 0
    ensures var p := RunOps(length, Polling(Poller(map[], map[], {}, 0), map[], []), ops).poller;
      && (tk in p.tracker <==> LastPolled(ops, tk).Some?)
      && (tk in p.tracker ==> p.tracker[tk].lastSeen == LastPolled(ops, tk).value)
      && (tk in p.throttle <==> LastScraped(ops, tk).Some?)
      && (tk in p.throttle ==> p.throttle[tk].lastSeen == LastScraped(ops, tk).value)
  {
    hide ObserveAll, Emits, AdvanceCPU, AdvanceMemory;
    if ops != [] {
      KeptFiveMinutes(length, ops[..|ops| - 1], tk);
    }
  }

  /** Two readings a minute apart across a boundary: half the time and half the core time
      fall to each window. */
  lemma MinuteExample(key: Key)
    ensures var s, minute := SECOND, 60 * SECOND;
      var b, r := CPUBase(30 * s, 0, 0), CPUReading(90 * s, 60 * s, None);
      && AddedUnder(Core, minute, EmitCPU(b, key, 0, r, false), Slot(key, 0)) == 30 * s
      && AddedUnder(Core, minute, EmitCPU(b, key, 0, r, false), Slot(key, minute)) == 30 * s
      && AddedUnder(Covered, minute, EmitCPU(b, key, 0, r, false), Slot(key, 0)) == 30 * s
      && FiledOver(Rate, minute, EmitCPU(b, key, 0, r, false), Slot(key, minute)) == [1000]
  {
    hide EmitCPU, FiledOver, ShareOf, AddedUnder;
    MinuteAt(key, 0);
    MinuteAt(key, 60 * SECOND);
    CPUSamples(60 * SECOND, CPUBase(30 * SECOND, 0, 0), key, 0, CPUReading(90 * SECOND, 60 * SECOND, None), false,
      60 * SECOND);
  }

  lemma MinuteAt(key: Key, w: int)
    requires w == 0 || w == 60 * SECOND
    ensures var b, r := CPUBase(30 * SECOND, 0, 0), CPUReading(90 * SECOND, 60 * SECOND, None);
      && AddedUnder(Core, 60 * SECOND, EmitCPU(b, key, 0, r, false), Slot(key, w)) == 30 * SECOND
      && AddedUnder(Covered, 60 * SECOND, EmitCPU(b, key, 0, r, false), Slot(key, w)) == 30 * SECOND
  {
    hide EmitCPU, FiledOver, ShareOf, AddedUnder;
    var b, r := CPUBase(30 * SECOND, 0, 0), CPUReading(90 * SECOND, 60 * SECOND, None);
    HalfShare(w);
    CPUShares(CPULine, 60 * SECOND, b, key, 0, r, false, w);
    CPUShares(CoveredLine, 60 * SECOND, b, key, 0, r, false, w);
  }

  lemma HalfShare(w: int)
    requires w == 0 || w == 60 * SECOND
    ensures ShareOf(60 * SECOND, 30 * SECOND, 90 * SECOND, 60 * SECOND, w) == 30 * SECOND
  {
    hide SplitFrom, MulDiv, StartOf;
    var s, minute := SECOND, 60 * SECOND;
    StartOfUnique(minute, 30 * s, 0);
    StartOfUnique(minute, 60 * s, minute);
    SplitStep(minute, 90 * s, 60 * s, minute, 30 * s, 60 * s);
    SplitStep(minute, 90 * s, 60 * s, minute, minute, 30 * s);
    MulDivExact(60 * s, 30 * s, minute);
    var a, b := Windows.Part(0, 30 * s), Windows.Part(minute, 30 * s);
    assert SplitSpec(minute, 30 * s, 90 * s, 60 * s) == [a] + [b];
    HeadPart(a, [b], w);
    HeadPart(b, [], w);
    assert [b] + [] == [b];
    assert SumSeq(PartsAt([], w)) == 0;
  }
}
