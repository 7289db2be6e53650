/** The poller as the object it is: baselines mutated per reading, feeding the
    accumulator it owns (internal/collector/usage.go,
    internal/collector/cadvisor.go). */
module UsagePollers {
  import opened Basics
  import opened Journals
  import opened Histograms
  import opened Records
  import opened Rollups
  import opened Accumulators
  import opened Baselines
  import opened Resumption

  class UsagePoller {
    const acc: Accumulator
    var tracker: map<TrackerKey, CounterState>
    var throttle: map<TrackerKey, ThrottleState>
    var resumedKeys: set<Key>
    var resumedUntil: int

    function State(): Poller
      reads this
    {
      Poller(tracker, throttle, resumedKeys, resumedUntil)
    }

    ghost predicate Valid()
      reads this, acc, acc.open.Values
    {
      acc.Valid()
    }

    constructor (length: int)
      requires length > 0
      ensures Valid() && fresh(acc) && acc.View() == map[] && acc.length == length
      ensures State() == Poller(map[], map[], {}, 0)
    {
      acc := new Accumulator(length);
      tracker, throttle, resumedKeys, resumedUntil := map[], map[], {}, 0;
    }

    predicate AttributableFromStart(key: Key)
      reads this
    {
      key !in resumedKeys
    }

    /** Nothing sane to record where the clock skewed between kubelet fields. */
    method ObserveCPU(key: Key, from: int, to: int, coreNanos: nat)
      requires Valid()
      modifies acc, acc.open.Values
      ensures Valid() && fresh(acc.open.Values - old(acc.open.Values))
      ensures acc.length > 0 && acc.View() ==
        if to <= from then old(acc.View())
        else Observe(acc.length, old(acc.View()), CPUDelta(key, from, to, Clamp(coreNanos)))
    {
      hide Accumulator.Valid, Accumulator.View, Observe;
      acc.LengthPositive();
      if to > from {
        acc.ObserveCPUDelta(key, from, to, Clamp(coreNanos));
      }
    }

    method ObserveCPUPSI(psi: Option<nat>, key: Key, from: int, to: int, stallNanos: nat)
      requires Valid()
      modifies acc, acc.open.Values
      ensures Valid() && fresh(acc.open.Values - old(acc.open.Values))
      ensures acc.length > 0 && acc.View() ==
        if psi.None? || to <= from then old(acc.View())
        else Observe(acc.length, old(acc.View()), CPUPSI(key, from, to, Clamp(stallNanos)))
    {
      hide Accumulator.Valid, Accumulator.View, Observe;
      acc.LengthPositive();
      if psi.Some? && to > from {
        acc.ObserveCPUPSI(key, from, to, Clamp(stallNanos));
      }
    }

    /** The pair of observations one CPU interval makes. */
    method ObserveInterval(key: Key, from: int, r: CPUReading, counter: nat, psi: nat)
      requires Valid()
      modifies acc, acc.open.Values
      ensures Valid() && fresh(acc.open.Values - old(acc.open.Values))
      ensures acc.length > 0
        && acc.View() == ObserveAll(acc.length, old(acc.View()), CPUObservations(key, from, r, counter, psi))
    {
      hide Accumulator.Valid, Accumulator.View, Observe, ObserveAll;
      acc.LengthPositive();
      ghost var was := acc.View();
      ObserveNone(acc.length, was);
      ObserveCPU(key, from, r.at, counter);
      ObserveCPUPSI(r.psi, key, from, r.at, psi);
      if r.at > from {
        var a, b := CPUDelta(key, from, r.at, Clamp(counter)), CPUPSI(key, from, r.at, Clamp(psi));
        ObserveAllStep(acc.length, was, [], a);
        ObserveAllStep(acc.length, was, [a], b);
        assert [] + [a] == [a];
        assert CPUObservations(key, from, r, counter, psi) == if r.psi.Some? then [a] + [b] else [a];
      }
    }

    method IngestCPU(b: CPUBase, key: Key, start: int, r: CPUReading) returns (next: CPUBase)
      requires Valid()
      modifies acc, acc.open.Values
      ensures Valid() && fresh(acc.open.Values - old(acc.open.Values))
      ensures next == AdvanceCPU(b, r)
      ensures acc.length > 0
        && acc.View() == ObserveAll(acc.length, old(acc.View()), EmitCPU(b, key, start, r, key in resumedKeys))
    {
      hide Accumulator.Valid, Accumulator.View, ObserveAll, CPUObservations;
      acc.LengthPositive();
      ObserveNone(acc.length, acc.View());
      var counter, psi := r.counter, OrZero(r.psi);
      var advance := true;
      if b.time == 0 {
        if AttributableFromStart(key) {
          ObserveInterval(key, start, r, counter, psi);
        }
      } else if r.at <= b.time {
        advance := false;
      } else if counter < b.counter || psi < b.psi {
      } else {
        ObserveInterval(key, b.time, r, counter - b.counter, psi - b.psi);
      }
      next := if advance then CPUBase(r.at, counter, psi) else b;
    }

    method IngestMemory(b: MemoryBase, key: Key, start: int, r: MemoryReading) returns (next: MemoryBase)
      requires Valid()
      modifies acc, acc.open.Values
      ensures Valid() && fresh(acc.open.Values - old(acc.open.Values))
      ensures next == AdvanceMemory(b, r)
      ensures acc.length > 0
        && acc.View() == ObserveAll(acc.length, old(acc.View()), EmitMemory(b, key, start, r, key in resumedKeys))
    {
      hide Accumulator.Valid, Accumulator.View, Observe, ObserveAll;
      acc.LengthPositive();
      ghost var was := acc.View();
      ObserveNone(acc.length, was);
      next := b;
      var psi := OrZero(r.psi);
      if r.at > b.time {
        var o := Memory(key, r.at, Clamp(r.workingSet));
        acc.ObserveMemory(key, r.at, Clamp(r.workingSet));
        ObserveAllStep(acc.length, was, [], o);
        assert [] + [o] == [o] && [o] + [] == [o];
        var first := b.time == 0;
        if r.psi.Some? && psi >= b.psi && (!first || AttributableFromStart(key)) {
          var from, delta := b.time, psi - b.psi;
          if first {
            from, delta := start, psi;
          }
          if r.at > from {
            ObserveAllStep(acc.length, was, [o], MemoryPSI(key, from, r.at, Clamp(delta)));
            acc.ObserveMemoryPSI(key, from, r.at, Clamp(delta));
          }
        }
        next := MemoryBase(r.at, psi);
      }
    }

    /** One container's readings: deltas from the timestamps inside the response,
        re-served snapshots discarded, a counter running backwards rebaselined,
        the first sight attributed from container start unless its window was resumed. */
    method IngestContainer(tk: TrackerKey, key: Key, c: ContainerStats, now: int)
      requires Valid()
      modifies this`tracker, acc, acc.open.Values
      ensures Valid() && fresh(acc.open.Values - old(acc.open.Values))
      ensures State() == Advance(old(State()), Container(tk, key, c, now))
      ensures acc.length > 0
        && acc.View() == ObserveAll(acc.length, old(acc.View()), EmitContainer(old(State()), tk, key, c))
    {
      hide Accumulator.Valid, Accumulator.View, ObserveAll, EmitCPU, EmitMemory, AdvanceCPU, AdvanceMemory;
      acc.LengthPositive();
      ghost var p, was := State(), acc.View();
      ghost var a := if c.cpu.Some? then EmitCPU(TrackerOf(p, tk).cpu, key, c.start, c.cpu.value, key in resumedKeys)
        else [];
      ghost var b := if c.memory.Some?
        then EmitMemory(TrackerOf(p, tk).mem, key, c.start, c.memory.value, key in resumedKeys) else [];
      ObserveNone(acc.length, was);
      var st := if tk in tracker then tracker[tk] else UNSEEN;
      st := st.(lastSeen := now);
      if c.cpu.Some? {
        var cpu := IngestCPU(st.cpu, key, c.start, c.cpu.value);
        st := st.(cpu := cpu);
      }
      ObserveNone(acc.length, acc.View());
      if c.memory.Some? {
        var mem := IngestMemory(st.mem, key, c.start, c.memory.value);
        st := st.(mem := mem);
      }
      ObserveAllConcat(acc.length, was, a, b);
      tracker := tracker[tk := st];
    }

    /** One resolved row of a cAdvisor scrape, under the same delta rules on a
        pair of counters. */
    method IngestScrape(s: Scrape, now: int)
      requires Valid()
      modifies this`throttle, acc, acc.open.Values
      ensures Valid() && fresh(acc.open.Values - old(acc.open.Values))
      ensures State() == Advance(old(State()), Scraped(s, now))
      ensures acc.length > 0
        && acc.View() == ObserveAll(acc.length, old(acc.View()), Emits(old(State()), Scraped(s, now)))
    {
      hide Accumulator.Valid, Accumulator.View, ObserveAll, Observe;
      acc.LengthPositive();
      ghost var was := acc.View();
      ObserveNone(acc.length, was);
      if s.throttled.None? || s.periods.None? {
        return;
      }
      var throttled, periods := s.throttled.value, s.periods.value;
      var at := if s.ts == 0 then now else s.ts;
      var st := if s.tk in throttle then throttle[s.tk] else UNSCRAPED;
      st := st.(lastSeen := now);
      if st.ts == 0 {
        if s.start != 0 && at > s.start && AttributableFromStart(s.key) {
          OneObservation(acc.length, was, Throttling(s.key, s.start, at, Clamp(throttled), Clamp(periods)));
          acc.ObserveThrottling(s.key, s.start, at, Clamp(throttled), Clamp(periods));
        }
      } else if at <= st.ts {
        throttle := throttle[s.tk := st];
        return;
      } else if throttled < st.throttled || periods < st.periods {
      } else {
        OneObservation(acc.length, was,
          Throttling(s.key, st.ts, at, Clamp(throttled - st.throttled), Clamp(periods - st.periods)));
        acc.ObserveThrottling(s.key, st.ts, at, Clamp(throttled - st.throttled), Clamp(periods - st.periods));
      }
      throttle := throttle[s.tk := st.(ts := at, throttled := throttled, periods := periods)];
    }

    /** Drops the baselines of containers unseen for a while, and the resumed set
        once the last resumed window has ended. */
    method Sweep(now: int)
      modifies this
      ensures State() == Swept(old(State()), now)
    {
      var cutoff := now - STALE_AFTER;
      tracker := DropStale(tracker, cutoff, (st: CounterState) => st.lastSeen);
      throttle := DropStale(throttle, cutoff, (st: ThrottleState) => st.lastSeen);
      if resumedKeys != {} && now >= resumedUntil {
        resumedKeys := {};
      }
    }

    /** Adopting one open-window record a previous process left. A refused record
        changes nothing; an adopted one marks its key as resumed. */
    method Seed(r: Rollup, hasHistograms: bool) returns (ok: bool)
      requires Valid()
      requires r.cpu.hist.anchorShift == CPU_ANCHOR_SHIFT && r.memory.hist.anchorShift == MEMORY_ANCHOR_SHIFT
      modifies this, acc, acc.open.Values
      ensures Valid() && fresh(acc.open.Values - old(acc.open.Values))
      ensures acc.length > 0
      ensures ok == (hasHistograms && Recovery.Seed(acc.length, old(acc.View()), r).Ok?)
      ensures State() == if ok then Resumed(old(State()), r) else old(State())
      ensures acc.View() == if ok then Recovery.Seed(acc.length, old(acc.View()), r).value else old(acc.View())
    {
      hide Accumulator.Valid, Accumulator.View, Recovery.Seed;
      ok := acc.Seed(r, hasHistograms);
      if ok {
        resumedKeys := resumedKeys + {r.key};
        var end := r.start + r.seconds * SECOND;
        if end > resumedUntil {
          resumedUntil := end;
        }
      }
    }

    /** Hands over the windows that ended, then copies of those still open. */
    method Flush(now: int) returns (closed: seq<Record>, snapshots: seq<Record>)
      requires Valid()
      modifies acc`open
      ensures Valid() && acc.open.Values <= old(acc.open.Values)
      ensures acc.View() == StillOpen(acc.length, old(acc.View()), now)
      ensures Recovery.Listing(ClosedAt(acc.length, old(acc.View()), now), Values(closed))
      ensures InPayloadOrder(Values(closed)) && InPayloadOrder(Values(snapshots))
      ensures fresh(snapshots) && Recovery.Listing(acc.View(), Values(snapshots))
    {
      hide Accumulator.Valid, Accumulator.View, Recovery.Listing;
      closed := acc.CloseBefore(now);
      snapshots := acc.Snapshots();
    }
  }

  lemma OneObservation(length: int, open: Open, o: Observation)
    requires length > 0
    ensures ObserveAll(length, open, [o]) == Observe(length, open, o)
  {
    hide Observe;
    assert [o][..0] == [];
  }

  /** The deleting range loop of a sweep. */
  method DropStale<S>(m: map<TrackerKey, S>, cutoff: int, lastSeen: S -> int) returns (kept: map<TrackerKey, S>)
    ensures kept == map tk | tk in m && lastSeen(m[tk]) >= cutoff :: m[tk]
  {
    kept := m;
    var todo := m.Keys;
    while todo != {}
      invariant todo <= m.Keys
      invariant kept == map tk | tk in m && (tk in todo || lastSeen(m[tk]) >= cutoff) :: m[tk]
      decreases |todo|
    {
      var tk := Pick(todo);
      if lastSeen(m[tk]) < cutoff {
        kept := kept - {tk};
      }
      todo := todo - {tk};
    }
  }
}
