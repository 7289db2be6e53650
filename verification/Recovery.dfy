/** Restarts: the open windows travel through their own payload into a fresh
    accumulator (internal/rollup/accumulator.go, internal/rollup/record.go). */
module Recovery {
  import opened Basics
  import opened Windows
  import opened Histograms
  import opened HistogramCodec
  import opened Records
  import opened Rollups
  import opened Journals

  /** A record as its payload carries it: the plain fields as they are, each
      histogram as an object keyed by bucket bound, or null. */
  datatype Payload = Payload(plain: Rollup, cpuHist: Option<map<int, nat>>, memoryHist: Option<map<int, nat>>)

  function WithoutHists(r: Rollup): Rollup {
    r.(cpu := r.cpu.(hist := NO_CPU.hist), memory := r.memory.(hist := NO_MEMORY.hist))
  }

  function Encode(r: Rollup): Payload {
    Payload(WithoutHists(r), Some(Encoded(r.cpu.hist)), Some(Encoded(r.memory.hist)))
  }

  /** A null histogram is an empty one on the field's own grid. */
  function DecodeHist(anchor: nat, raw: Option<map<int, nat>>): Result<Histogram> {
    match raw
    case None => Ok(Histogram(anchor, map[]))
    case Some(m) => match Decoded(anchor, m) case Ok(counts) => Ok(Histogram(anchor, counts)) case Err => Err
  }

  function Decode(p: Payload): Result<Rollup> {
    match (DecodeHist(CPU_ANCHOR_SHIFT, p.cpuHist), DecodeHist(MEMORY_ANCHOR_SHIFT, p.memoryHist))
    case (Ok(c), Ok(m)) => Ok(p.plain.(cpu := p.plain.cpu.(hist := c), memory := p.plain.memory.(hist := m)))
    case (_, _) => Err
  }

  lemma DecodeEncode(r: Rollup)
    requires Sound(r)
    ensures Decode(Encode(r)) == Ok(r)
  {
    hide Encoded, Decoded, Reachable;
    RoundTrip(r.cpu.hist);
    RoundTrip(r.memory.hist);
  }

  /** Adopting one recovered record. A record from another window length or off
      the window grid is refused and changes nothing. */
  function Seed(length: int, open: Open, r: Rollup): Result<Open>
    requires length > 0
  {
    if r.seconds != Seconds(length) || StartOf(length, r.start) != r.start then Err else
    var ok := Slot(r.key, r.start);
    Ok(open[ok := Combine(RecordAt(length, open, ok), r)])
  }

  /** A record is adopted exactly when it carries the accumulator's window length in seconds
      and starts on its grid, and then only its own window changes: it holds the merge. */
  lemma SeedAdopts(length: int, open: Open, r: Rollup, ok: OpenKey)
    requires length > 0
    ensures Seed(length, open, r).Ok? <==> r.seconds == length / 1_000_000_000 && r.start % length == 0
    ensures Seed(length, open, r).Ok? ==>
      var after := Seed(length, open, r).value;
      if ok == Slot(r.key, r.start)
      then ok in after && after[ok] == Combine(RecordAt(length, open, ok), r)
      else (ok in after <==> ok in open) && (ok in open ==> after[ok] == open[ok])
  {
    hide Combine;
    StartOfUnique(length, r.start, r.start);
  }

  /** Starting from the payloads of a snapshot: what does not decode or is
      refused is skipped, everything else is adopted. */
  function SeedAll(length: int, open: Open, ps: seq<Payload>): Open
    requires length > 0
  {
    if ps == [] then open else
    var sofar := SeedAll(length, open, ps[..|ps| - 1]);
    match Decode(Last(ps))
    case Err => sofar
    case Ok(r) => match Seed(length, sofar, r) case Ok(o) => o case Err => sofar
  }

  function EncodeAll(rs: seq<Rollup>): seq<Payload> {
    seq(|rs|, i requires 0 <= i < |rs| => Encode(rs[i]))
  }

  /** A listing of the open records, each once, in some order. */
  ghost predicate Listing(open: Open, rs: seq<Rollup>) {
    && (forall i :: 0 <= i < |rs| ==> Slot(rs[i].key, rs[i].start) in open)
    && (forall i :: 0 <= i < |rs| ==> open[Slot(rs[i].key, rs[i].start)] == rs[i])
    && (forall ok :: ok in open ==> open[ok] in rs)
    && (forall i, j :: 0 <= i < j < |rs| ==> rs[i] != rs[j])
  }

  ghost predicate Aligned(length: int, open: Open)
    requires length > 0
  {
    forall ok :: ok in open ==> StartOf(length, ok.start) == ok.start
  }

  function Named(rs: seq<Rollup>): set<OpenKey> {
    set r | r in rs :: Slot(r.key, r.start)
  }

  /** Seeding a prefix of a listing rebuilds exactly the records it names. */
  lemma {:induction false} SeedPrefix(length: int, open: Open, rs: seq<Rollup>, n: nat)
    requires length > 0 && SoundOpen(length, open) && Aligned(length, open) && Listing(open, rs) && n <= |rs|
    ensures SeedAll(length, map[], EncodeAll(rs[..n])) == map ok | ok in open && ok in Named(rs[..n]) :: open[ok]
  {
    hide Sound, Combine, StartOf, Encode, Decode;
    if n > 0 {
      var r := rs[n - 1];
      var ok := Slot(r.key, r.start);
      SeedPrefix(length, open, rs, n - 1);
      assert EncodeAll(rs[..n])[..n - 1] == EncodeAll(rs[..n - 1]);
      assert rs[..n] == rs[..n - 1] + [r];
      DecodeEncode(r);
      NamedStep(rs[..n - 1], r);
      assert ok !in Named(rs[..n - 1]);
      CombineEmpty(r);
    }
  }

  lemma NamedStep(rs: seq<Rollup>, r: Rollup)
    ensures Named(rs + [r]) == Named(rs) + {Slot(r.key, r.start)}
  {
    var ok := Slot(r.key, r.start);
    assert r in rs + [r];
    assert forall x :: x in rs + [r] <==> x in rs || x == r;
  }

  /** The open windows survive the trip through their payload. */
  lemma SeedingRebuilds(length: int, open: Open, rs: seq<Rollup>)
    requires length > 0 && SoundOpen(length, open) && Aligned(length, open) && Listing(open, rs)
    ensures SeedAll(length, map[], EncodeAll(rs)) == open
  {
    hide Sound, StartOf, EncodeAll, SeedAll;
    SeedPrefix(length, open, rs, |rs|);
    assert rs[..|rs|] == rs;
    forall ok | ok in open
      ensures ok in Named(rs)
    {
      assert open[ok] in rs && Slot(open[ok].key, open[ok].start) == ok;
    }
    assert (map ok | ok in open && ok in Named(rs) :: open[ok]) == open;
  }

  // ---- whole runs: observations, window closings, restarts ----

  datatype Event = Seen(o: Observation) | Close(now: int)

  /** The open windows after a run, and what each closing handed over. */
  datatype Run = Run(open: Open, handed: seq<Open>)

  function Step(length: int, s: Run, e: Event): Run
    requires length > 0
  {
    match e
    case Seen(o) => s.(open := Observe(length, s.open, o))
    case Close(now) => Run(StillOpen(length, s.open, now), s.handed + [ClosedAt(length, s.open, now)])
  }

  function RunAll(length: int, s: Run, es: seq<Event>): Run
    requires length > 0
  {
    if es == [] then s else Step(length, RunAll(length, s, es[..|es| - 1]), Last(es))
  }

  ghost predicate Fits(e: Event) { e.Seen? ==> Measured(e.o) }

  lemma TouchedAllAligned(length: int, open: Open, ts: seq<Touch>)
    requires length > 0 && Aligned(length, open)
    requires forall t :: t in ts ==> StartOf(length, t.at.start) == t.at.start
    ensures Aligned(length, TouchedAll(length, open, ts))
  {
    hide StartOf, Edited;
    if ts != [] {
      TouchedAllAligned(length, open, ts[..|ts| - 1]);
      assert Last(ts) in ts;
    }
  }

  lemma ProRataAligned(length: int, key: Key, from: int, to: int, amount: int, c: Counter)
    requires length > 0
    ensures forall t :: t in ProRata(length, key, from, to, amount, c) ==> StartOf(length, t.at.start) == t.at.start
  {
    hide StartOf, SplitFrom, MulDiv, Sub;
    var total := Sub(to, from);
    if total > 0 && amount >= 0 {
      SplitFromAligned(length, to, amount, total, from, amount);
    }
  }

  lemma {:induction false} SplitFromAligned(length: int, to: int, amount: int, total: int, segFrom: int, remaining: int)
    requires length > 0
    ensures forall p :: p in SplitFrom(length, to, amount, total, segFrom, remaining) ==>
      StartOf(length, p.start) == p.start
    decreases Gap(segFrom, to)
  {
    hide StartOf, SplitFrom, MulDiv, Sub;
    if segFrom < to {
      SplitStep(length, to, amount, total, segFrom, remaining);
      StartOfAligned(length, segFrom);
      var segTo := StartOf(length, segFrom) + length;
      if segTo < to {
        SplitFromAligned(length, to, amount, total, segTo, remaining - MulDiv(amount, Sub(segTo, segFrom), total));
      }
    } else {
      SplitPast(length, to, amount, total, segFrom, remaining);
    }
  }

  lemma TouchesAligned(length: int, o: Observation)
    requires length > 0
    ensures forall t :: t in Touches(length, o) ==> StartOf(length, t.at.start) == t.at.start
  {
    hide StartOf, ProRata, MulDiv, Sub;
    match o
    case CPUDelta(k, from, to, core) =>
      ProRataAligned(length, k, from, to, core, Core);
      ProRataAligned(length, k, from, to, Sub(to, from), Covered);
      StartOfAligned(length, to - 1);
    case Throttling(k, from, to, throttled, total) =>
      ProRataAligned(length, k, from, to, throttled, Throttled);
      ProRataAligned(length, k, from, to, total, Periods);
      StartOfAligned(length, to - 1);
    case CPUPSI(k, from, to, stall) =>
      ProRataAligned(length, k, from, to, stall, CPUStall);
      StartOfAligned(length, to - 1);
    case MemoryPSI(k, from, to, stall) =>
      ProRataAligned(length, k, from, to, stall, MemoryStall);
      StartOfAligned(length, to - 1);
    case Memory(k, at, bytes) =>
      StartOfAligned(length, at);
  }

  lemma {:induction false} RunSound(length: int, es: seq<Event>)
    requires length > 0 && forall e :: e in es ==> Fits(e)
    ensures var s := RunAll(length, Run(map[], []), es);
      SoundOpen(length, s.open) && Aligned(length, s.open)
  {
    hide Touches, TouchedAll, StartOf, Measured, Sound;
    if es != [] {
      RunSound(length, es[..|es| - 1]);
      var s := RunAll(length, Run(map[], []), es[..|es| - 1]);
      var e := Last(es);
      assert e in es;
      if e.Seen? {
        TouchesInRange(length, e.o);
        TouchedAllSound(length, s.open, Touches(length, e.o));
        TouchesAligned(length, e.o);
        TouchedAllAligned(length, s.open, Touches(length, e.o));
      }
    }
  }

  /** Main result, restart invisibility: whatever a run observed and closed, a
      process that dies after a snapshot and a successor that seeds itself from
      the decoded payload of that snapshot go on, over any further events, to the
      same open windows and the same handed-over windows as a process that never died. */
  lemma RestartInvisible(length: int, before: seq<Event>, snapshot: seq<Rollup>, after: seq<Event>)
    requires length > 0 && forall e :: e in before ==> Fits(e)
    requires Listing(RunAll(length, Run(map[], []), before).open, snapshot)
    ensures var died := RunAll(length, Run(map[], []), before);
      var born := Run(SeedAll(length, map[], EncodeAll(snapshot)), died.handed);
      born == died && RunAll(length, born, after) == RunAll(length, Run(map[], []), before + after)
  {
    hide StartOf, Sound, EncodeAll, SeedAll, Measured;
    RunSound(length, before);
    SeedingRebuilds(length, RunAll(length, Run(map[], []), before).open, snapshot);
    RunConcat(length, Run(map[], []), before, after);
  }

  lemma RunStep(length: int, s: Run, es: seq<Event>, e: Event)
    requires length > 0
    ensures RunAll(length, s, es + [e]) == Step(length, RunAll(length, s, es), e)
  {
    hide Step;
    assert (es + [e])[..|es + [e]| - 1] == es;
  }

  lemma {:induction false} RunConcat(length: int, s: Run, a: seq<Event>, b: seq<Event>)
    requires length > 0
    ensures RunAll(length, s, a + b) == RunAll(length, RunAll(length, s, a), b)
  {
    hide Step;
    if b == [] {
      assert a + b == a;
    } else {
      hide RunAll;
      var init, e := b[..|b| - 1], Last(b);
      RunConcat(length, s, a, init);
      assert b == init + [e] && a + b == (a + init) + [e];
      RunStep(length, s, a + init, e);
      RunStep(length, RunAll(length, s, a), init, e);
    }
  }
}
