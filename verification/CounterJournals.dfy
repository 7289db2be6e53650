/** The agent's own counters as change per window
    (internal/journal/counters.go). The zero instant means "never". */
module CounterJournals {
  import opened Basics
  import opened Windows
  import opened Spans
  import opened Orders
  import opened Journals

  type RecordKey = Slot<string>

  /** Records are written by window, then counter. */
  function RankOf(k: RecordKey): Rank { Rank(k.start, [k.of]) }

  lemma OrderIs(a: RecordKey, b: RecordKey)
    ensures RankLess(RankOf(a), RankOf(b)) <==> a.start < b.start || (a.start == b.start && NameLess(a.of, b.of))
  {
    OneName(a.of, b.of);
  }

  lemma RanksDiffer(keys: set<RecordKey>)
    ensures Injective(RankOf, keys)
  {
    forall a: RecordKey, b: RecordKey | RankOf(a) == RankOf(b)
      ensures a == b
    {
      assert RankOf(a).names[0] == RankOf(b).names[0];
    }
  }

  datatype CounterRecord = CounterRecord(delta: int, observedNanos: int, accruedTo: int)

  const NO_CHANGE: CounterRecord := CounterRecord(0, 0, 0)

  type Journal = map<RecordKey, CounterRecord>

  type Readings = map<string, int>

  function RecordOf(open: Journal, k: RecordKey): CounterRecord {
    if k in open then open[k] else NO_CHANGE
  }

  /** The records of these counters in one window, created where missing. */
  function InWindow(names: set<string>, start: int): set<RecordKey> {
    set n | n in names :: Slot(n, start)
  }

  /** Observing every reading over one span. */
  function AddSpan(open: Journal, names: set<string>, start: int, nanos: int): Journal {
    map k | k in open.Keys + InWindow(names, start) ::
      var r := RecordOf(open, k);
      if k.of in names && k.start == start then r.(observedNanos := r.observedNanos + nanos) else r
  }

  function AddSpans(length: int, open: Journal, names: set<string>, spans: seq<Span>): Journal
    requires length > 0
  {
    if spans == [] then open else
    var s := Last(spans);
    AddSpan(AddSpans(length, open, names, spans[..|spans| - 1]), names, StartOf(length, s.start), s.end - s.start)
  }

  /** How far a counter rose between two passes; one that fell is a new base. */
  function Rise(prev: Readings, now: Readings, name: string): int {
    if name in now && name in prev && now[name] >= prev[name] then now[name] - prev[name] else 0
  }

  predicate Rose(prev: Readings, now: Readings, name: string) {
    name in now && name in prev && now[name] >= prev[name]
  }

  function Risers(prev: Readings, now: Readings): set<string> {
    set n | n in now && Rose(prev, now, n)
  }

  /** The rises land whole in the window the pass saw them in. */
  function AddRisesOf(open: Journal, prev: Readings, now: Readings, names: set<string>, start: int): Journal {
    map k | k in open.Keys + InWindow(names, start) ::
      var r := RecordOf(open, k);
      if k.of in names && k.start == start then r.(delta := r.delta + Rise(prev, now, k.of)) else r
  }

  lemma AddRiseStep(open: Journal, prev: Readings, now: Readings, names: set<string>, name: string, start: int)
    requires name !in names
    ensures var m, k := AddRisesOf(open, prev, now, names, start), Slot(name, start);
      AddRisesOf(open, prev, now, names + {name}, start)
      == m[k := RecordOf(m, k).(delta := RecordOf(m, k).delta + Rise(prev, now, name))]
  {
    hide Rise;
    var m, k := AddRisesOf(open, prev, now, names, start), Slot(name, start);
    var more := AddRisesOf(open, prev, now, names + {name}, start);
    assert InWindow(names + {name}, start) == InWindow(names, start) + {k};
    assert more.Keys == m.Keys + {k};
  }

  function AddRises(open: Journal, prev: Readings, now: Readings, start: int): Journal {
    AddRisesOf(open, prev, now, Risers(prev, now), start)
  }

  function Stamp(open: Journal, names: set<string>, start: int, at: int): Journal {
    map k | k in open.Keys + InWindow(names, start) ::
      var r := RecordOf(open, k);
      if k.of in names && k.start == start then r.(accruedTo := at) else r
  }

  lemma AllRisers(prev: Readings, now: Readings, done: set<string>)
    requires forall n :: n in done <==> n in now && Rose(prev, now, n)
    ensures done == Risers(prev, now)
  {
  }

  lemma NoRises(open: Journal, prev: Readings, now: Readings, start: int)
    ensures AddRisesOf(open, prev, now, {}, start) == open
  {
    assert InWindow({}, start) == {};
  }

  datatype State = State(open: Journal, prev: Readings, prevSince: int, prevAt: int)

  datatype Pass = Pass(at: int, since: int, readings: Readings)

  /** The pass is subtractable from the one before it. */
  predicate Accrues(s: State, p: Pass) {
    s.prevSince != 0 && s.prevSince == p.since && p.at > s.prevAt
  }

  function Accrued(length: int, s: State, p: Pass): Journal
    requires length > 0
  {
    AddRises(AddSpans(length, s.open, p.readings.Keys, SpansOf(length, s.prevAt, p.at)),
             s.prev, p.readings, StartOf(length, p.at))
  }

  function Observed(length: int, s: State, p: Pass): State
    requires length > 0
  {
    var open := if Accrues(s, p) then Accrued(length, s, p) else s.open;
    State(Stamp(open, p.readings.Keys, StartOf(length, p.at), p.at), p.readings, p.since, p.at)
  }

  // ---- the object ----

  class Counters {
    const length: int
    var open: Journal
    var prev: Readings
    var prevSince: int
    var prevAt: int

    function View(): State
      reads this
    {
      State(open, prev, prevSince, prevAt)
    }

    constructor (length: int)
      requires length > 0
      ensures this.length == length && View() == State(map[], map[], 0, 0)
    {
      this.length := length;
      open, prev, prevSince, prevAt := map[], map[], 0, 0;
    }

    method Observe(p: Pass)
      requires length > 0
      modifies this
      ensures View() == Observed(length, old(View()), p)
    {
      hide AddSpan, AddRises, Stamp, StartOf;
      var sameBase := prevSince != 0 && prevSince == p.since;
      if sameBase && p.at > prevAt {
        Accrue(p.at, p.readings);
      }
      StampAll(p.readings.Keys, StartOf(length, p.at), p.at);
      prev, prevSince, prevAt := p.readings, p.since, p.at;
    }

    /** The interval is split at window boundaries, the rises are not. */
    method Accrue(at: int, readings: Readings)
      requires length > 0
      modifies this`open
      ensures open == AddRises(AddSpans(length, old(open), readings.Keys, SpansOf(length, prevAt, at)), prev,
        readings, StartOf(length, at))
    {
      hide AddSpan, AddRises, StartOf;
      ghost var was := open;
      var spans := Cut(length, prevAt, at);
      for i := 0 to |spans|
        invariant open == AddSpans(length, was, readings.Keys, spans[..i])
      {
        assert spans[..i + 1][..i] == spans[..i];
        ObserveSpan(readings.Keys, StartOf(length, spans[i].start), spans[i].end - spans[i].start);
      }
      assert spans[..|spans|] == spans;
      CountRises(readings, StartOf(length, at));
    }

    method ObserveSpan(names: set<string>, start: int, nanos: int)
      modifies this`open
      ensures open == AddSpan(old(open), names, start, nanos)
    {
      var todo := names;
      while todo != {}
        invariant todo <= names
        invariant open == AddSpan(old(open), names - todo, start, nanos)
        decreases |todo|
      {
        var name := Pick(todo);
        var k := Slot(name, start);
        var r := RecordOf(open, k);
        open := open[k := r.(observedNanos := r.observedNanos + nanos)];
        todo := todo - {name};
      }
      assert names - todo == names;
    }

    method CountRises(readings: Readings, start: int)
      modifies this`open
      ensures open == AddRises(old(open), prev, readings, start)
    {
      hide AddRisesOf, Risers;
      ghost var was := open;
      ghost var done: set<string> := {};
      var todo := readings.Keys;
      NoRises(open, prev, readings, start);
      while todo != {}
        invariant todo <= readings.Keys
        invariant forall n :: n in done <==> n in readings && n !in todo && Rose(prev, readings, n)
        invariant open == AddRisesOf(was, prev, readings, done, start)
        decreases |todo|
      {
        var name := Pick(todo);
        todo := todo - {name};
        if name in prev && readings[name] >= prev[name] {
          AddRiseStep(was, prev, readings, done, name, start);
          var k := Slot(name, start);
          var r := RecordOf(open, k);
          open := open[k := r.(delta := r.delta + (readings[name] - prev[name]))];
          done := done + {name};
        }
      }
      AllRisers(prev, readings, done);
    }

    method StampAll(names: set<string>, start: int, at: int)
      modifies this`open
      ensures open == Stamp(old(open), names, start, at)
    {
      var todo := names;
      while todo != {}
        invariant todo <= names
        invariant open == Stamp(old(open), names - todo, start, at)
        decreases |todo|
      {
        var name := Pick(todo);
        var k := Slot(name, start);
        open := open[k := RecordOf(open, k).(accruedTo := at)];
        todo := todo - {name};
      }
      assert names - todo == names;
    }

    /** Seeds open windows a previous process left; readings are not seeded. */
    method Resume(records: seq<(RecordKey, CounterRecord)>) returns (seeded: nat)
      modifies this`open
      ensures open == ResumedAll(old(open), records)
      ensures seeded == |open| - |old(open)|
    {
      open, seeded := Journals.Resume(open, records);
    }

    /** Hands over the records whose window ended, in payload order. */
    method CloseBefore(now: int) returns (out: seq<(RecordKey, CounterRecord)>)
      modifies this`open
      ensures open == StillOpen(length, old(open), now)
      ensures Sorted(RankOf, ClosedAt(length, old(open), now), out)
    {
      RanksDiffer(open.Keys);
      open, out := Journals.Close(length, open, now, RankOf);
    }
  }

  // ---- conservation over whole runs ----

  datatype Field = Delta | Watched

  function ValueOf(f: Field, r: CounterRecord): int {
    match f case Delta => r.delta case Watched => r.observedNanos
  }

  function Weight(f: Field, name: string): (RecordKey, CounterRecord) -> int {
    (k: RecordKey, r: CounterRecord) => if k.of == name then ValueOf(f, r) else 0
  }

  ghost function TotalIn(f: Field, name: string, open: Journal): int {
    Total(open, Weight(f, name))
  }

  lemma InWindowAt(names: set<string>, start: int, k: RecordKey)
    ensures k in InWindow(names, start) <==> k.of in names && k.start == start
  {
  }

  lemma AddSpanTotal(f: Field, name: string, open: Journal, names: set<string>, start: int, nanos: int)
    ensures TotalIn(f, name, AddSpan(open, names, start, nanos))
         == TotalIn(f, name, open) + if f.Watched? && name in names then nanos else 0
  {
    hide InWindow;
    var k := Slot(name, start);
    var after := AddSpan(open, names, start, nanos);
    forall j ensures j in InWindow(names, start) <==> j.of in names && j.start == start { InWindowAt(names, start, j); }
    TotalChange(open, after, Weight(f, name), k);
  }

  lemma StampTotal(f: Field, name: string, open: Journal, names: set<string>, start: int, at: int)
    ensures TotalIn(f, name, Stamp(open, names, start, at)) == TotalIn(f, name, open)
  {
    TotalSame(open, Stamp(open, names, start, at), Weight(f, name));
  }

  lemma AddRisesTotal(f: Field, name: string, open: Journal, prev: Readings, now: Readings, start: int)
    ensures TotalIn(f, name, AddRises(open, prev, now, start))
         == TotalIn(f, name, open) + if f.Delta? then Rise(prev, now, name) else 0
  {
    hide InWindow;
    var k := Slot(name, start);
    var after := AddRises(open, prev, now, start);
    forall j ensures j in InWindow(Risers(prev, now), start) <==> j.of in Risers(prev, now) && j.start == start {
      InWindowAt(Risers(prev, now), start, j);
    }
    TotalChange(open, after, Weight(f, name), k);
  }

  lemma {:induction false} AddSpansTotal(f: Field, name: string, length: int, open: Journal, names: set<string>,
      spans: seq<Span>)
    requires length > 0
    ensures TotalIn(f, name, AddSpans(length, open, names, spans))
         == TotalIn(f, name, open) + if f.Watched? && name in names then Durations(spans) else 0
  {
    hide TotalIn, AddSpan, StartOf;
    if spans != [] {
      var init, s := spans[..|spans| - 1], Last(spans);
      AddSpansTotal(f, name, length, open, names, init);
      AddSpanTotal(f, name, AddSpans(length, open, names, init), names, StartOf(length, s.start), s.end - s.start);
      DurationsLast(spans);
    }
  }

  lemma {:induction false} DurationsLast(spans: seq<Span>)
    requires spans != []
    ensures Durations(spans) == Durations(spans[..|spans| - 1]) + (Last(spans).end - Last(spans).start)
  {
    if |spans| > 1 {
      DurationsLast(spans[1..]);
      assert spans[1..][..|spans| - 2] == spans[..|spans| - 1][1..];
    }
  }

  /** What one pass adds to a counter. */
  function Contribution(f: Field, name: string, s: State, p: Pass): int {
    if !Accrues(s, p) then 0
    else match f
      case Delta => Rise(s.prev, p.readings, name)
      case Watched => if name in p.readings then p.at - s.prevAt else 0
  }

  lemma ObservedTotal(f: Field, name: string, length: int, s: State, p: Pass)
    requires length > 0
    ensures TotalIn(f, name, Observed(length, s, p).open) == TotalIn(f, name, s.open) + Contribution(f, name, s, p)
  {
    hide TotalIn, AddSpans, AddRises, Stamp, StartOf;
    var start := StartOf(length, p.at);
    if Accrues(s, p) {
      var spans := SpansOf(length, s.prevAt, p.at);
      AddSpansTotal(f, name, length, s.open, p.readings.Keys, spans);
      SpansSum(length, s.prevAt, p.at);
      AddRisesTotal(f, name, AddSpans(length, s.open, p.readings.Keys, spans), s.prev, p.readings, start);
      StampTotal(f, name, Accrued(length, s, p), p.readings.Keys, start, p.at);
    } else {
      StampTotal(f, name, s.open, p.readings.Keys, start, p.at);
    }
  }

  datatype Op = Look(pass: Pass) | Close(now: int)

  datatype Run = Run(state: State, handed: seq<Journal>)

  function Step(length: int, r: Run, op: Op): Run
    requires length > 0
  {
    match op
    case Look(p) => r.(state := Observed(length, r.state, p))
    case Close(now) => Run(r.state.(open := StillOpen(length, r.state.open, now)),
      r.handed + [ClosedAt(length, r.state.open, now)])
  }

  function RunOps(length: int, r: Run, ops: seq<Op>): Run
    requires length > 0
  {
    if ops == [] then r else Step(length, RunOps(length, r, ops[..|ops| - 1]), Last(ops))
  }

  ghost function Everywhere(f: Field, name: string, r: Run): int {
    AllWindows(r.state.open, r.handed, Weight(f, name))
  }

  /** The passes of a run, in order. */
  function Passes(ops: seq<Op>): seq<Pass> {
    if ops == [] then [] else Passes(ops[..|ops| - 1]) + if Last(ops).Look? then [Last(ops).pass] else []
  }

  /** A journal remembers of its past only the pass before. */
  function Since(s: State, ps: seq<Pass>): State {
    if ps == [] then s else var p := Last(ps); State(s.open, p.readings, p.since, p.at)
  }

  /** The sum of a counter's changes between adjacent passes. */
  function Changes(f: Field, name: string, s: State, ps: seq<Pass>): int {
    if ps == [] then 0 else
    var init := ps[..|ps| - 1];
    Changes(f, name, s, init) + Contribution(f, name, Since(s, init), Last(ps))
  }

  lemma PassesStep(f: Field, name: string, s: State, ps: seq<Pass>, p: Pass)
    ensures Changes(f, name, s, ps + [p]) == Changes(f, name, s, ps) + Contribution(f, name, Since(s, ps), p)
    ensures Since(s, ps + [p]) == State(s.open, p.readings, p.since, p.at)
  {
    assert (ps + [p])[..|ps + [p]| - 1] == ps;
  }

  /** Main result: over any run of passes and closings, whatever windows it
      resumed, a counter's deltas and observed time over all windows grow by
      exactly its changes between adjacent passes on one base. */
  lemma {:induction false} CountersConserved(f: Field, name: string, length: int, r: Run, ops: seq<Op>)
    requires length > 0
    ensures var end := RunOps(length, r, ops);
      && Everywhere(f, name, end) == Everywhere(f, name, r) + Changes(f, name, r.state, Passes(ops))
      && end.state.(open := r.state.open) == Since(r.state, Passes(ops))
  {
    hide Total, HandedTotal, Observed, StillOpen, ClosedAt, Contribution;
    if ops != [] {
      var init, op := ops[..|ops| - 1], Last(ops);
      var mid := RunOps(length, r, init);
      CountersConserved(f, name, length, r, init);
      match op
      case Look(p) =>
        ObservedTotal(f, name, length, mid.state, p);
        PassesStep(f, name, r.state, Passes(init), p);
        OnlyThePast(f, name, mid.state, Since(r.state, Passes(init)), p);
        ObservedPast(length, mid.state, p);
      case Close(now) =>
        assert Passes(ops) == Passes(init);
        HandOver(length, mid.state.open, mid.handed, now, Weight(f, name));
    }
  }

  lemma OnlyThePast(f: Field, name: string, s: State, t: State, p: Pass)
    requires s.(open := t.open) == t
    ensures Contribution(f, name, s, p) == Contribution(f, name, t, p)
  {
  }

  lemma ObservedPast(length: int, s: State, p: Pass)
    requires length > 0
    ensures Observed(length, s, p) == State(Observed(length, s, p).open, p.readings, p.since, p.at)
  {
  }

  /** A journal that has seen no pass: fresh, or just resumed. */
  predicate Blank(s: State) { s.prevSince == 0 }

  /** Passes on one base, strictly increasing, all carrying the counter. */
  ghost predicate OneBase(ps: seq<Pass>, name: string) {
    && (forall i :: 0 <= i < |ps| ==> ps[i].since != 0 && ps[i].since == ps[0].since && name in ps[i].readings)
    && (forall i :: 0 <= i < |ps| - 1 ==> ps[i].at < ps[i + 1].at)
  }

  ghost predicate NeverFalls(ps: seq<Pass>, name: string)
    requires OneBase(ps, name)
  {
    forall i :: 0 <= i < |ps| - 1 ==> ps[i].readings[name] <= ps[i + 1].readings[name]
  }

  /** On one base the changes telescope: the first pass after a start or a resume
      adds nothing, observed time is the time between first and last pass, and a
      counter that never falls has changed by its last reading minus its first. */
  lemma {:induction false} ChangesTelescope(name: string, s: State, ps: seq<Pass>)
    requires Blank(s) && ps != [] && OneBase(ps, name)
    ensures Changes(Watched, name, s, ps) == Last(ps).at - ps[0].at
    ensures NeverFalls(ps, name) ==> Changes(Delta, name, s, ps) == Last(ps).readings[name] - ps[0].readings[name]
  {
    var init := ps[..|ps| - 1];
    if init == [] {
      assert Changes(Watched, name, s, init) == 0 && Changes(Delta, name, s, init) == 0;
    } else {
      assert forall i :: 0 <= i < |init| ==> init[i] == ps[i];
      ChangesTelescope(name, s, init);
      assert Last(init) == ps[|ps| - 2] && Last(ps) == ps[|ps| - 1];
    }
  }

  /** So over a run on one base a counter's observed time, over all windows open or
      handed over, grows by last pass minus first, and a counter that never falls
      by its last reading minus its first. */
  lemma CountersTelescope(name: string, length: int, r: Run, ops: seq<Op>)
    requires length > 0 && Blank(r.state) && Passes(ops) != [] && OneBase(Passes(ops), name)
    ensures var end, ps := RunOps(length, r, ops), Passes(ops);
      && Everywhere(Watched, name, end) == Everywhere(Watched, name, r) + Last(ps).at - ps[0].at
      && (NeverFalls(ps, name) ==>
            (Everywhere(Delta, name, end)
             == Everywhere(Delta, name, r) + Last(ps).readings[name] - ps[0].readings[name]))
  {
    hide Everywhere, RunOps, Passes, Changes, NeverFalls;
    CountersConserved(Watched, name, length, r, ops);
    CountersConserved(Delta, name, length, r, ops);
    ChangesTelescope(name, r.state, Passes(ops));
  }

  /** What two passes say a counter changed by: nothing on different bases or where the
      clock did not advance, otherwise its rise where both carry it - a fall is none - and
      the time between them where the later one carries it. */
  function ChangeBetween(f: Field, name: string, a: Pass, b: Pass): int {
    if a.since == 0 || a.since != b.since || b.at <= a.at || name !in b.readings then 0
    else if f.Watched? then b.at - a.at
    else if name in a.readings then Max(0, b.readings[name] - a.readings[name])
    else 0
  }

  function ChangesOver(f: Field, name: string, ps: seq<Pass>): int {
    if |ps| <= 1 then 0 else ChangesOver(f, name, ps[..|ps| - 1]) + ChangeBetween(f, name, ps[|ps| - 2], Last(ps))
  }

  lemma {:induction false} ChangesAre(f: Field, name: string, s: State, ps: seq<Pass>)
    requires Blank(s)
    ensures Changes(f, name, s, ps) == ChangesOver(f, name, ps)
  {
    if ps != [] {
      var init := ps[..|ps| - 1];
      ChangesAre(f, name, s, init);
      if init != [] {
        assert Last(init) == ps[|ps| - 2];
      }
    }
  }

  /** Over any run of a fresh or just resumed journal, a counter's deltas and observed time
      over all windows grow by exactly what its adjacent passes say. */
  lemma CountersMeaning(f: Field, name: string, length: int, r: Run, ops: seq<Op>)
    requires length > 0 && Blank(r.state)
    ensures Everywhere(f, name, RunOps(length, r, ops)) == Everywhere(f, name, r) + ChangesOver(f, name, Passes(ops))
  {
    hide Everywhere, RunOps, Passes, Changes, ChangesOver;
    CountersConserved(f, name, length, r, ops);
    ChangesAre(f, name, r.state, Passes(ops));
  }

  // ---- AccruedTo at a boundary ----

  /** The part of some spans that lies in one window. */
  function DurationsIn(length: int, spans: seq<Span>, w: int): int
    requires length > 0
  {
    if spans == [] then 0 else
    var s := Last(spans);
    DurationsIn(length, spans[..|spans| - 1], w) + if StartOf(length, s.start) == w then s.end - s.start else 0
  }

  /** Only the time of a counted window's record changes. */
  lemma {:induction false} AddSpansAt(length: int, open: Journal, names: set<string>, spans: seq<Span>, k: RecordKey)
    requires length > 0 && forall i :: 0 <= i < |spans| ==> spans[i].start < spans[i].end
    ensures var after, r := AddSpans(length, open, names, spans), RecordOf(open, k);
      var nanos := if k.of in names then DurationsIn(length, spans, k.start) else 0;
      && nanos >= 0
      && (k in after <==> k in open || nanos > 0)
      && RecordOf(after, k) == r.(observedNanos := r.observedNanos + nanos)
  {
    hide StartOf, InWindow;
    if spans != [] {
      var init, last := spans[..|spans| - 1], Last(spans);
      AddSpansAt(length, open, names, init, k);
      InWindowAt(names, StartOf(length, last.start), k);
    }
  }

  lemma {:induction false} FirstSpan(length: int, first: Span, rest: seq<Span>, w: int)
    requires length > 0
    ensures DurationsIn(length, [first] + rest, w)
         == (if StartOf(length, first.start) == w then first.end - first.start else 0) + DurationsIn(length, rest, w)
  {
    hide StartOf;
    if rest == [] {
      assert [first] + rest == [first] && [first][..0] == [];
    } else {
      FirstSpan(length, first, rest[..|rest| - 1], w);
      assert ([first] + rest)[..|rest|] == [first] + rest[..|rest| - 1];
    }
  }

  /** What an interval's spans have in a window is the interval's overlap with it. */
  lemma {:induction false} SpansIn(length: int, from: int, to: int, w: int)
    requires length > 0 && StartOf(length, w) == w
    ensures DurationsIn(length, SpansOf(length, from, to), w) == Gap(Max(w, from), Min(w + length, to))
    decreases Gap(from, to)
  {
    hide StartOf, DurationsIn;
    if from < to {
      var start := StartOf(length, from);
      var end := Min(start + length, to);
      var rest := SpansOf(length, end, to);
      FirstSpan(length, Span(from, end), rest, w);
      SpansIn(length, end, to, w);
      OneWindow(length, from, w);
    } else {
      NoSpans(length, w);
    }
  }

  lemma NoSpans(length: int, w: int)
    requires length > 0
    ensures DurationsIn(length, [], w) == 0
  {
  }

  /** The time one pass adds to one record. */
  function Added(length: int, s: State, p: Pass, k: RecordKey): nat {
    if Accrues(s, p) && k.of in p.readings then Gap(Max(k.start, s.prevAt), Min(k.start + length, p.at)) else 0
  }

  /** What one pass does to one record: its time grows by the pass's overlap with its
      window, and only the window holding the pass itself is stamped and gets the whole
      rise, a counter that fell having risen by nothing. */
  lemma PassAt(length: int, s: State, p: Pass, k: RecordKey)
    requires length > 0 && StartOf(length, k.start) == k.start
    ensures var r, after := RecordOf(s.open, k), Observed(length, s, p).open;
      var stamped := k.of in p.readings && StartOf(length, p.at) == k.start;
      && (k in after <==> k in s.open || stamped || Added(length, s, p, k) > 0)
      && RecordOf(after, k).observedNanos == r.observedNanos + Added(length, s, p, k)
      && RecordOf(after, k).accruedTo == (if stamped then p.at else r.accruedTo)
      && RecordOf(after, k).delta == r.delta
         + if stamped && Accrues(s, p) && k.of in s.prev then Max(0, p.readings[k.of] - s.prev[k.of]) else 0
  {
    hide StartOf, InWindow, AddSpans, SpansOf;
    var names, start := p.readings.Keys, StartOf(length, p.at);
    InWindowAt(names, start, k);
    InWindowAt(Risers(s.prev, p.readings), start, k);
    if Accrues(s, p) {
      SpansCover(length, s.prevAt, p.at);
      AddSpansAt(length, s.open, names, SpansOf(length, s.prevAt, p.at), k);
      SpansIn(length, s.prevAt, p.at, k.start);
    }
  }

  /** A pass that crosses a boundary adds the rest of the window it leaves to that
      window's time and does not move its AccruedTo: a record accrued up to the
      previous pass is accrued up to what it then counts if and only if the pass
      stays in its window. */
  lemma LeftWindowLags(length: int, s: State, p: Pass, name: string)
    requires length > 0 && Accrues(s, p) && name in p.readings
    requires Slot(name, StartOf(length, s.prevAt)) in s.open
    ensures var k := Slot(name, StartOf(length, s.prevAt));
      var was, after := s.open[k], Observed(length, s, p).open;
      && k in after
      && after[k].observedNanos == was.observedNanos + (Min(k.start + length, p.at) - s.prevAt)
      && after[k].accruedTo == (if StartOf(length, p.at) == k.start then p.at else was.accruedTo)
      && (was.accruedTo == s.prevAt ==>
            (after[k].accruedTo == Min(k.start + length, p.at) <==> StartOf(length, p.at) == k.start))
  {
    hide StartOf, Observed;
    var k := Slot(name, StartOf(length, s.prevAt));
    StartOfAligned(length, s.prevAt);
    PassAt(length, s, p, k);
    OneWindow(length, p.at, k.start);
  }

  /** A second pass over two boundaries: the window it leaves keeps the first
      stamp, and the one in between is counted whole and never stamped. */
  lemma CrossedTwice(length: int, name: string, a: Pass, b: Pass, w: int)
    requires length > 0 && StartOf(length, w) == w && w <= a.at < w + length && w + 2 * length <= b.at
    requires a.since == b.since != 0 && name in a.readings && name in b.readings
    ensures var open := RunOps(length, Run(State(map[], map[], 0, 0), []), [Look(a), Look(b)]).state.open;
      var left, middle := Slot(name, w), Slot(name, w + length);
      && left in open && open[left].observedNanos == w + length - a.at && open[left].accruedTo == a.at
      && middle in open && open[middle].observedNanos == length && open[middle].accruedTo == 0
  {
    hide Observed, RunOps, StartOf;
    var blank := State(map[], map[], 0, 0);
    var one := Observed(length, blank, a);
    TwoPasses(length, blank, a, b);
    ObservedPast(length, blank, a);
    StartOfNext(length, w);
    OneWindow(length, a.at, w);
    OneWindow(length, b.at, w);
    OneWindow(length, a.at, w + length);
    OneWindow(length, b.at, w + length);
    PassAt(length, blank, a, Slot(name, w));
    PassAt(length, one, b, Slot(name, w));
    PassAt(length, blank, a, Slot(name, w + length));
    PassAt(length, one, b, Slot(name, w + length));
  }

  /** With ten-unit windows and passes at 5 and 25, ten units are counted in the
      window from 10 and its AccruedTo is the zero instant. */
  lemma MiddleWindowExample(name: string)
    ensures var r := map[name := 0];
      var ops := [Look(Pass(5, 1, r)), Look(Pass(25, 1, r))];
      var open := RunOps(10, Run(State(map[], map[], 0, 0), []), ops).state.open;
      var left, middle := Slot(name, 0), Slot(name, 10);
      && left in open && open[left].observedNanos == 5 && open[left].accruedTo == 5
      && middle in open && open[middle].observedNanos == 10 && open[middle].accruedTo == 0
  {
    hide RunOps;
    CrossedTwice(10, name, Pass(5, 1, map[name := 0]), Pass(25, 1, map[name := 0]), 0);
  }

  lemma TwoPasses(length: int, s: State, a: Pass, b: Pass)
    requires length > 0
    ensures RunOps(length, Run(s, []), [Look(a), Look(b)]).state == Observed(length, Observed(length, s, a), b)
  {
    hide Observed;
    var x, y := Look(a), Look(b);
    assert [x, y][..1] == [x] && [x][..0] == [];
    assert RunOps(length, Run(s, []), [x]) == Step(length, Run(s, []), x);
  }

  // ---- exactly when AccruedTo is true ----

  /** The latest pass of a run, zero for none. */
  function LatestAt(ops: seq<Op>): int {
    if ops == [] then 0
    else if Last(ops).Look? then Last(ops).pass.at
    else LatestAt(ops[..|ops| - 1])
  }

  /** Passes carry an instant and do not go back in time. */
  predicate InTime(ops: seq<Op>) {
    ops == [] ||
    (InTime(ops[..|ops| - 1])
     && (Last(ops).Look? ==> Last(ops).pass.at > 0 && LatestAt(ops[..|ops| - 1]) <= Last(ops).pass.at))
  }

  /** The run's last operation counts time into a record. */
  predicate Counts(length: int, r: Run, ops: seq<Op>, k: RecordKey)
    requires length > 0 && ops != []
  {
    Last(ops).Look? && Added(length, RunOps(length, r, ops[..|ops| - 1]).state, Last(ops).pass, k) > 0
  }

  /** No time the run counted into a record lies after an instant. */
  predicate TrueUpTo(length: int, r: Run, ops: seq<Op>, k: RecordKey, to: int)
    requires length > 0
  {
    ops == [] ||
    (TrueUpTo(length, r, ops[..|ops| - 1], k, to)
     && (Counts(length, r, ops, k) ==> Min(k.start + length, Last(ops).pass.at) <= to))
  }

  /** Some pass that counted time into the record's window ended past it. */
  predicate WentPast(length: int, r: Run, ops: seq<Op>, k: RecordKey)
    requires length > 0
  {
    ops != [] &&
    (WentPast(length, r, ops[..|ops| - 1], k)
     || (Counts(length, r, ops, k) && Last(ops).pass.at >= k.start + length))
  }

  lemma {:induction false} TrueLater(length: int, r: Run, ops: seq<Op>, k: RecordKey, to: int, later: int)
    requires length > 0 && TrueUpTo(length, r, ops, k, to) && to <= later
    ensures TrueUpTo(length, r, ops, k, later)
  {
    hide Counts;
    if ops != [] {
      TrueLater(length, r, ops[..|ops| - 1], k, to, later);
    }
  }

  /** Everything counted lies at or before the latest pass, and past the window's
      end where a pass went past it. */
  lemma {:induction false} CountedBounds(length: int, r: Run, ops: seq<Op>, k: RecordKey, to: int)
    requires length > 0 && InTime(ops)
    ensures TrueUpTo(length, r, ops, k, LatestAt(ops))
    ensures WentPast(length, r, ops, k) && to < k.start + length ==> !TrueUpTo(length, r, ops, k, to)
  {
    hide Added, RunOps;
    if ops != [] {
      var init := ops[..|ops| - 1];
      CountedBounds(length, r, init, k, to);
      if Last(ops).Look? {
        TrueLater(length, r, init, k, LatestAt(init), Last(ops).pass.at);
      }
    }
  }

  lemma {:induction false} PrevIsLatest(length: int, r: Run, ops: seq<Op>)
    requires length > 0 && InTime(ops) && Blank(r.state)
    ensures var s := RunOps(length, r, ops).state;
      LatestAt(ops) >= 0 && (if LatestAt(ops) == 0 then Blank(s) else s.prevAt == LatestAt(ops))
  {
    hide Stamp, Accrued;
    if ops != [] {
      PrevIsLatest(length, r, ops[..|ops| - 1]);
    }
  }

  /** Stamps stay inside their window. */
  predicate Inside(length: int, open: Journal, k: RecordKey) {
    k in open ==> open[k].accruedTo < k.start + length
  }

  lemma {:induction false} AccruedToBounds(length: int, r: Run, ops: seq<Op>, k: RecordKey)
    requires length > 0 && StartOf(length, k.start) == k.start
    requires Blank(r.state) && Inside(length, r.state.open, k) && InTime(ops)
    ensures var open := RunOps(length, r, ops).state.open;
      && Inside(length, open, k)
      && (k in open && !WentPast(length, r, ops, k) ==> TrueUpTo(length, r, ops, k, open[k].accruedTo))
  {
    hide StartOf, Observed;
    if ops != [] {
      hide TrueUpTo, WentPast;
      var init, op := ops[..|ops| - 1], Last(ops);
      var s := RunOps(length, r, init).state;
      AccruedToBounds(length, r, init, k);
      TrueStep(length, r, ops, k);
      if op.Look? {
        var p := op.pass;
        PrevIsLatest(length, r, init);
        PassAt(length, s, p, k);
        OneWindow(length, p.at, k.start);
        CountedBounds(length, r, init, k, 0);
        TrueLater(length, r, init, k, LatestAt(init), p.at);
      }
    }
  }

  lemma TrueStep(length: int, r: Run, ops: seq<Op>, k: RecordKey)
    requires length > 0 && ops != []
    ensures var init := ops[..|ops| - 1];
      && (forall to :: TrueUpTo(length, r, ops, k, to) <==>
            (TrueUpTo(length, r, init, k, to)
             && (Counts(length, r, ops, k) ==> Min(k.start + length, Last(ops).pass.at) <= to)))
      && (WentPast(length, r, ops, k) <==>
          (WentPast(length, r, init, k)
           || (Counts(length, r, ops, k) && Last(ops).pass.at >= k.start + length)))
  {
    hide Counts;
  }

  /** Main result on AccruedTo: over any run of passes in time and closings, from any
      resumed records, the time an open record counts lies at or before its
      AccruedTo if and only if no pass that counted into its window went past it.
      A closing hands the record over as it is. */
  lemma AccruedToExact(length: int, r: Run, ops: seq<Op>, k: RecordKey)
    requires length > 0 && StartOf(length, k.start) == k.start
    requires Blank(r.state) && Inside(length, r.state.open, k) && InTime(ops)
    requires k in RunOps(length, r, ops).state.open
    ensures TrueUpTo(length, r, ops, k, RunOps(length, r, ops).state.open[k].accruedTo)
       <==> !WentPast(length, r, ops, k)
  {
    hide StartOf, RunOps, TrueUpTo, WentPast;
    AccruedToBounds(length, r, ops, k);
    CountedBounds(length, r, ops, k, RunOps(length, r, ops).state.open[k].accruedTo);
  }
}
