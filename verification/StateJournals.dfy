/** The agent's own states as occupied and observed time per window
    (internal/journal/states.go). The zero instant means "never". */
module StateJournals {
  import opened Basics
  import opened Windows
  import opened Spans
  import opened Orders
  import opened Journals

  datatype Subject = Subject(state: string, subject: string)

  /** One state as one pass found it: open since an instant, or not open. */
  datatype AgentState = AgentState(subject: Subject, since: Option<int>)

  type RecordKey = Slot<Subject>

  /** Records are written by window, then state, then subject. */
  function RankOf(k: RecordKey): Rank { Rank(k.start, [k.of.state, k.of.subject]) }

  lemma OrderIs(a: RecordKey, b: RecordKey)
    ensures RankLess(RankOf(a), RankOf(b)) <==>
      a.start < b.start
      || (a.start == b.start
          && (NameLess(a.of.state, b.of.state)
              || (a.of.state == b.of.state && NameLess(a.of.subject, b.of.subject))))
  {
    TwoNames(a.of.state, a.of.subject, b.of.state, b.of.subject);
  }

  lemma RanksDiffer(keys: set<RecordKey>)
    ensures Injective(RankOf, keys)
  {
    forall a: RecordKey, b: RecordKey | RankOf(a) == RankOf(b)
      ensures a == b
    {
      assert RankOf(a).names[0] == RankOf(b).names[0];
      assert RankOf(a).names[1] == RankOf(b).names[1];
    }
  }

  datatype StateRecord = StateRecord(
    occupiedNanos: int, observedNanos: int, entries: int, accruedTo: int, openSince: Option<int>)

  const NO_TIME: StateRecord := StateRecord(0, 0, 0, 0, None)

  type Journal = map<RecordKey, StateRecord>

  datatype LastSeen = LastSeen(accruedTo: int, since: Option<int>)

  datatype State = State(open: Journal, seen: map<Subject, LastSeen>)

  function RecordOf(open: Journal, k: RecordKey): StateRecord {
    if k in open then open[k] else NO_TIME
  }

  // ---- accrual ----

  /** Where occupancy begins within an interval, zero for nowhere: closed at its
      end, open at both ends, or opened within it. */
  function OccupiedFrom(prev: LastSeen, since: Option<int>): int {
    if since.None? then 0
    else if prev.since.Some? then prev.accruedTo
    else Max(since.value, prev.accruedTo)
  }

  function OccupiedIn(occupiedFrom: int, s: Span): int {
    if occupiedFrom == 0 then 0 else Gap(Max(occupiedFrom, s.start), s.end)
  }

  function AccrueSpan(length: int, open: Journal, st: AgentState, occupiedFrom: int, s: Span): Journal
    requires length > 0
  {
    var k := Slot(st.subject, StartOf(length, s.start));
    var r := RecordOf(open, k);
    open[k := StateRecord(
      r.occupiedNanos + OccupiedIn(occupiedFrom, s),
      r.observedNanos + (s.end - s.start),
      r.entries, s.end, st.since)]
  }

  function AccrueAll(length: int, open: Journal, st: AgentState, occupiedFrom: int, spans: seq<Span>): Journal
    requires length > 0
    decreases |spans|
  {
    if spans == [] then open
    else AccrueAll(length, AccrueSpan(length, open, st, occupiedFrom, spans[0]), st, occupiedFrom, spans[1..])
  }

  function Accrued(length: int, open: Journal, st: AgentState, prev: LastSeen, at: int): Journal
    requires length > 0
  {
    AccrueAll(length, open, st, OccupiedFrom(prev, st.since), SpansOf(length, prev.accruedTo, at))
  }

  // ---- episodes ----

  /** Whether a pass that finds the state open counts a new episode: not the one
      the previous pass saw, and on first sight not the one a resumed record holds open. */
  predicate NewEpisode(seen: map<Subject, LastSeen>, rec: StateRecord, st: AgentState) {
    && st.since.Some?
    && if st.subject in seen then seen[st.subject].since != st.since else rec.openSince != st.since
  }

  function Entered(length: int, open: Journal, seen: map<Subject, LastSeen>, st: AgentState, at: int): Journal
    requires length > 0
  {
    var k := Slot(st.subject, StartOf(length, at));
    var r := RecordOf(open, k);
    if NewEpisode(seen, r, st) then open[k := r.(entries := r.entries + 1)] else open
  }

  function Stamped(length: int, open: Journal, st: AgentState, at: int): Journal
    requires length > 0
  {
    var k := Slot(st.subject, StartOf(length, at));
    open[k := RecordOf(open, k).(accruedTo := at, openSince := st.since)]
  }

  predicate Nameless(st: AgentState) { st.subject.state == "" || st.subject.subject == "" }

  predicate Known(s: State, st: AgentState, at: int) {
    st.subject in s.seen && at > s.seen[st.subject].accruedTo
  }

  /** One subject of one pass. */
  function Looked(length: int, s: State, st: AgentState, at: int): State
    requires length > 0
  {
    if Nameless(st) then s else
    var a := if Known(s, st, at) then Accrued(length, s.open, st, s.seen[st.subject], at) else s.open;
    State(Stamped(length, Entered(length, a, s.seen, st, at), st, at), s.seen[st.subject := LastSeen(at, st.since)])
  }

  function LookedAll(length: int, s: State, sts: seq<AgentState>, at: int): State
    requires length > 0
  {
    if sts == [] then s else Looked(length, LookedAll(length, s, sts[..|sts| - 1], at), Last(sts), at)
  }

  // ---- the object ----

  class States {
    const length: int
    var open: Journal
    var seen: map<Subject, LastSeen>

    function View(): State
      reads this
    {
      State(open, seen)
    }

    constructor (length: int)
      requires length > 0
      ensures this.length == length && View() == State(map[], map[])
    {
      this.length := length;
      open, seen := map[], map[];
    }

    /** One pass: each subject it names accrues since its own last look, may enter
        an episode, and is stamped. */
    method Observe(at: int, states: seq<AgentState>)
      requires length > 0
      modifies this
      ensures View() == LookedAll(length, old(View()), states, at)
    {
      hide Accrued, Entered, Stamped;
      ghost var was := View();
      for i := 0 to |states|
        invariant View() == LookedAll(length, was, states[..i], at)
      {
        assert states[..i + 1][..i] == states[..i];
        var st := states[i];
        if st.subject.state == "" || st.subject.subject == "" {
          continue;
        }
        if st.subject in seen && at > seen[st.subject].accruedTo {
          Accrue(st, seen[st.subject], at);
        }
        if st.since.Some? {
          Enter(st, at);
        } else {
          NoEntry(length, open, seen, st, at);
        }
        StampOpen(st, at);
        seen := seen[st.subject := LastSeen(at, st.since)];
      }
      assert states[..|states|] == states;
    }

    method Accrue(st: AgentState, prev: LastSeen, at: int)
      requires length > 0
      modifies this`open
      ensures open == Accrued(length, old(open), st, prev, at)
    {
      hide StartOf;
      var from := prev.accruedTo;
      var occupiedFrom := 0;
      if st.since.None? {
      } else if prev.since.Some? {
        occupiedFrom := from;
      } else {
        occupiedFrom := Max(st.since.value, from);
      }
      var spans := Cut(length, from, at);
      ghost var was := open;
      assert spans[0..] == spans;
      for i := 0 to |spans|
        invariant AccrueAll(length, open, st, occupiedFrom, spans[i..])
          == AccrueAll(length, was, st, occupiedFrom, spans)
      {
        assert spans[i..][0] == spans[i] && spans[i..][1..] == spans[i + 1..];
        var s := spans[i];
        var k := Slot(st.subject, StartOf(length, s.start));
        var rec := RecordOf(open, k);
        rec := rec.(observedNanos := rec.observedNanos + (s.end - s.start));
        rec := rec.(accruedTo := s.end, openSince := st.since);
        if occupiedFrom != 0 {
          var start := Max(occupiedFrom, s.start);
          if start < s.end {
            rec := rec.(occupiedNanos := rec.occupiedNanos + (s.end - start));
          }
        }
        open := open[k := rec];
      }
      assert spans[|spans|..] == [];
    }

    method Enter(st: AgentState, at: int)
      requires length > 0 && st.since.Some?
      modifies this`open
      ensures open == Entered(length, old(open), seen, st, at)
    {
      hide StartOf;
      if st.subject in seen && seen[st.subject].since == st.since {
        return;
      }
      var k := Slot(st.subject, StartOf(length, at));
      var rec := RecordOf(open, k);
      if st.subject !in seen && rec.openSince == st.since {
        return;
      }
      open := open[k := rec.(entries := rec.entries + 1)];
    }

    method StampOpen(st: AgentState, at: int)
      requires length > 0
      modifies this`open
      ensures open == Stamped(length, old(open), st, at)
    {
      hide StartOf;
      var k := Slot(st.subject, StartOf(length, at));
      open := open[k := RecordOf(open, k).(accruedTo := at, openSince := st.since)];
    }

    /** Seeds open windows a previous process left, where none is held already. */
    method Resume(records: seq<(RecordKey, StateRecord)>) returns (seeded: nat)
      modifies this`open
      ensures open == ResumedAll(old(open), records)
      ensures seeded == |open| - |old(open)|
    {
      open, seeded := Journals.Resume(open, records);
    }

    /** Hands over the records whose window ended, in payload order. */
    method CloseBefore(now: int) returns (out: seq<(RecordKey, StateRecord)>)
      modifies this`open
      ensures open == StillOpen(length, old(open), now)
      ensures Sorted(RankOf, ClosedAt(length, old(open), now), out)
    {
      RanksDiffer(open.Keys);
      open, out := Journals.Close(length, open, now, RankOf);
    }
  }

  lemma NoEntry(length: int, open: Journal, seen: map<Subject, LastSeen>, st: AgentState, at: int)
    requires length > 0 && st.since.None?
    ensures Entered(length, open, seen, st, at) == open
  {
  }

  // ---- what every record keeps ----

  /** Occupied never exceeds observed, observed never exceeds how far the record
      has accrued, and that never leaves the window. */
  ghost predicate Good(length: int, k: RecordKey, r: StateRecord)
    requires length > 0
  {
    && StartOf(length, k.start) == k.start
    && 0 <= r.occupiedNanos <= r.observedNanos <= r.accruedTo - k.start <= length
    && 0 <= r.entries
  }

  ghost predicate AllGood(length: int, open: Journal)
    requires length > 0
  {
    forall k :: k in open ==> Good(length, k, open[k])
  }

  /** No record of the subject has accrued past an instant. */
  ghost predicate Within(open: Journal, subject: Subject, to: int) {
    forall k :: k in open && k.of == subject ==> open[k].accruedTo <= to
  }

  lemma AccrueSpanGood(length: int, open: Journal, st: AgentState, occupiedFrom: int, s: Span)
    requires length > 0 && AllGood(length, open) && Within(open, st.subject, s.start)
    requires s.start < s.end <= StartOf(length, s.start) + length
    ensures var after := AccrueSpan(length, open, st, occupiedFrom, s);
      AllGood(length, after) && Within(after, st.subject, s.end)
  {
    hide StartOf;
    StartOfAligned(length, s.start);
  }

  /** The other subjects' records are untouched. */
  ghost predicate OthersKept(a: Journal, b: Journal, subject: Subject) {
    forall k: RecordKey :: k.of != subject ==> (k in a <==> k in b) && (k in a && k in b ==> a[k] == b[k])
  }

  lemma {:induction false} AccrueAllGood(length: int, open: Journal, st: AgentState, occupiedFrom: int, from: int,
      to: int)
    requires length > 0 && AllGood(length, open) && Within(open, st.subject, from) && from <= to
    ensures var after := AccrueAll(length, open, st, occupiedFrom, SpansOf(length, from, to));
      AllGood(length, after) && Within(after, st.subject, to) && OthersKept(open, after, st.subject)
    decreases Gap(from, to)
  {
    hide StartOf, Good;
    if from < to {
      var end := Min(StartOf(length, from) + length, to);
      var s := Span(from, end);
      AccrueSpanGood(length, open, st, occupiedFrom, s);
      AccrueAllGood(length, AccrueSpan(length, open, st, occupiedFrom, s), st, occupiedFrom, end, to);
      assert SpansOf(length, from, to)[1..] == SpansOf(length, end, to);
    }
  }

  /** The invariant of the journal up to an instant. */
  ghost predicate Inv(length: int, s: State, upTo: int)
    requires length > 0
  {
    && AllGood(length, s.open)
    && (forall k :: k in s.open ==> s.open[k].accruedTo <= upTo)
    && (forall u :: u in s.seen ==> s.seen[u].accruedTo <= upTo && Within(s.open, u, s.seen[u].accruedTo))
  }

  lemma EnterStampGood(length: int, open: Journal, seen: map<Subject, LastSeen>, st: AgentState, at: int)
    requires length > 0 && AllGood(length, open) && Within(open, st.subject, at)
    ensures var after := Stamped(length, Entered(length, open, seen, st, at), st, at);
      AllGood(length, after) && Within(after, st.subject, at) && OthersKept(open, after, st.subject)
  {
    hide StartOf;
    StartOfAligned(length, at);
  }

  /** Every look at or after everything seen so far keeps the invariant. */
  lemma LookedGood(length: int, s: State, upTo: int, st: AgentState, at: int)
    requires length > 0 && Inv(length, s, upTo) && upTo <= at
    ensures Inv(length, Looked(length, s, st, at), at)
  {
    hide Good, Accrued, Entered, Stamped;
    if !Nameless(st) {
      var a := if Known(s, st, at) then Accrued(length, s.open, st, s.seen[st.subject], at) else s.open;
      if Known(s, st, at) {
        AccruedGood(length, s.open, st, s.seen[st.subject], at);
      }
      EnterStampGood(length, a, s.seen, st, at);
    }
  }

  lemma AccruedGood(length: int, open: Journal, st: AgentState, prev: LastSeen, at: int)
    requires length > 0 && AllGood(length, open) && Within(open, st.subject, prev.accruedTo) && prev.accruedTo <= at
    ensures var after := Accrued(length, open, st, prev, at);
      AllGood(length, after) && Within(after, st.subject, at) && OthersKept(open, after, st.subject)
  {
    AccrueAllGood(length, open, st, OccupiedFrom(prev, st.since), prev.accruedTo, at);
  }

  // ---- whole runs ----

  datatype Op = Look(st: AgentState, at: int) | Close(now: int)

  datatype Run = Run(state: State, handed: seq<Journal>)

  function Step(length: int, r: Run, op: Op): Run
    requires length > 0
  {
    match op
    case Look(st, at) => r.(state := Looked(length, r.state, st, at))
    case Close(now) => Run(r.state.(open := StillOpen(length, r.state.open, now)),
      r.handed + [ClosedAt(length, r.state.open, now)])
  }

  function RunOps(length: int, r: Run, ops: seq<Op>): Run
    requires length > 0
  {
    if ops == [] then r else Step(length, RunOps(length, r, ops[..|ops| - 1]), Last(ops))
  }

  /** The latest instant a run looked at, starting from an earlier one. */
  function Latest(start: int, ops: seq<Op>): int {
    if ops == [] then start
    else if Last(ops).Look? then Last(ops).at
    else Latest(start, ops[..|ops| - 1])
  }

  /** Passes do not go back in time, nor before what was resumed. */
  predicate InOrder(start: int, ops: seq<Op>) {
    ops == [] || (InOrder(start, ops[..|ops| - 1])
      && (Last(ops).Look? ==> Latest(start, ops[..|ops| - 1]) <= Last(ops).at))
  }

  /** Main invariant result: over any run of passes in order and closings, from
      any resumed records, every record ever open or handed over keeps
      0 <= occupied <= observed <= accrued time <= window length. */
  lemma {:induction false} RunGood(length: int, r: Run, start: int, ops: seq<Op>)
    requires length > 0 && InOrder(start, ops)
    requires Inv(length, r.state, start) && forall j :: j in r.handed ==> AllGood(length, j)
    ensures var end := RunOps(length, r, ops);
      Inv(length, end.state, Latest(start, ops)) && forall j :: j in end.handed ==> AllGood(length, j)
  {
    hide Good, Looked;
    if ops != [] {
      var init, op := ops[..|ops| - 1], Last(ops);
      var mid := RunOps(length, r, init);
      RunGood(length, r, start, init);
      if op.Look? {
        LookedGood(length, mid.state, Latest(start, init), op.st, op.at);
      }
    }
  }

  /** Resuming good records keeps the invariant. */
  lemma ResumedGood(length: int, open: Journal, records: seq<(RecordKey, StateRecord)>, upTo: int)
    requires length > 0 && Inv(length, State(open, map[]), upTo)
    requires forall e :: e in records ==> Good(length, e.0, e.1) && e.1.accruedTo <= upTo
    ensures Inv(length, State(ResumedAll(open, records), map[]), upTo)
  {
    hide Good, ResumedAll;
    ResumeKeeps(open, records);
    var o := ResumedAll(open, records);
    forall k | k in o
      ensures Good(length, k, o[k]) && o[k].accruedTo <= upTo
    {
      assert k !in open ==> (k, o[k]) in records;
    }
  }

  /** Two processes: whatever the first looked at and closed, a second one resumed
      from the records the first left open keeps the invariant through any run that
      does not go back in time, as do all records either of them handed over. */
  lemma RunGoodAfterRestart(length: int, first: seq<Op>, left: seq<(RecordKey, StateRecord)>, start: int,
      second: seq<Op>)
    requires length > 0 && InOrder(start, first) && InOrder(Latest(start, first), second)
    requires var died := RunOps(length, Run(State(map[], map[]), []), first);
      forall e :: e in left ==> e.0 in died.state.open && died.state.open[e.0] == e.1
    ensures var died := RunOps(length, Run(State(map[], map[]), []), first);
      var end := RunOps(length, Run(State(ResumedAll(map[], left), map[]), died.handed), second);
      && Inv(length, end.state, Latest(Latest(start, first), second))
      && forall j :: j in end.handed ==> AllGood(length, j)
  {
    hide Good, RunOps, ResumedAll;
    RunGood(length, Run(State(map[], map[]), []), start, first);
    var died := RunOps(length, Run(State(map[], map[]), []), first);
    ResumedGood(length, map[], left, Latest(start, first));
    RunGood(length, Run(State(ResumedAll(map[], left), map[]), died.handed), Latest(start, first), second);
  }

  /** The looks one pass makes. */
  function LooksOf(sts: seq<AgentState>, at: int): seq<Op> {
    seq(|sts|, i requires 0 <= i < |sts| => Look(sts[i], at))
  }

  /** A pass is a run of looks, so what holds over runs of looks holds over passes. */
  lemma {:induction false} PassIsLooks(length: int, r: Run, sts: seq<AgentState>, at: int)
    requires length > 0
    ensures RunOps(length, r, LooksOf(sts, at)) == r.(state := LookedAll(length, r.state, sts, at))
  {
    hide Looked;
    if sts != [] {
      var init := sts[..|sts| - 1];
      PassIsLooks(length, r, init, at);
      assert LooksOf(sts, at)[..|sts| - 1] == LooksOf(init, at);
    }
  }

  // ---- totals ----

  datatype Field = Occupied | Watched | Episodes

  function ValueOf(f: Field, r: StateRecord): int {
    match f
    case Occupied => r.occupiedNanos
    case Watched => r.observedNanos
    case Episodes => r.entries
  }

  function Weight(f: Field, u: Subject): (RecordKey, StateRecord) -> int {
    (k: RecordKey, r: StateRecord) => if k.of == u then ValueOf(f, r) else 0
  }

  ghost function TotalIn(f: Field, u: Subject, open: Journal): int {
    Total(open, Weight(f, u))
  }

  ghost function Everywhere(f: Field, u: Subject, r: Run): int {
    AllWindows(r.state.open, r.handed, Weight(f, u))
  }

  lemma UpdateTotal(f: Field, u: Subject, open: Journal, k: RecordKey, r: StateRecord)
    ensures TotalIn(f, u, open[k := r])
         == TotalIn(f, u, open) + if k.of == u then ValueOf(f, r) - ValueOf(f, RecordOf(open, k)) else 0
  {
    TotalUpdate(open, Weight(f, u), k, r);
  }

  function SpanGain(f: Field, occupiedFrom: int, from: int, to: int): int {
    match f
    case Occupied => if occupiedFrom == 0 then 0 else Gap(Max(occupiedFrom, from), to)
    case Watched => Gap(from, to)
    case Episodes => 0
  }

  lemma {:induction false} AccrueTotal(f: Field, u: Subject, length: int, open: Journal, st: AgentState,
      occupiedFrom: int, from: int, to: int)
    requires length > 0
    ensures TotalIn(f, u, AccrueAll(length, open, st, occupiedFrom, SpansOf(length, from, to)))
         == TotalIn(f, u, open) + if st.subject == u then SpanGain(f, occupiedFrom, from, to) else 0
    decreases Gap(from, to)
  {
    hide StartOf, TotalIn;
    if from < to {
      var end := Min(StartOf(length, from) + length, to);
      var s := Span(from, end);
      var k := Slot(st.subject, StartOf(length, from));
      var r := RecordOf(open, k);
      UpdateTotal(f, u, open, k, AccrueSpan(length, open, st, occupiedFrom, s)[k]);
      AccrueTotal(f, u, length, AccrueSpan(length, open, st, occupiedFrom, s), st, occupiedFrom, end, to);
      assert SpansOf(length, from, to)[1..] == SpansOf(length, end, to);
    }
  }

  /** What one look adds for its subject. */
  function Gained(f: Field, length: int, s: State, st: AgentState, at: int): int
    requires length > 0
  {
    if Nameless(st) then 0 else
    match f
    case Episodes => if NewEpisode(s.seen, RecordOf(s.open, Slot(st.subject, StartOf(length, at))), st) then 1 else 0
    case _ =>
      if Known(s, st, at)
      then SpanGain(f, OccupiedFrom(s.seen[st.subject], st.since), s.seen[st.subject].accruedTo, at)
      else 0
  }

  lemma LookedTotal(f: Field, u: Subject, length: int, s: State, st: AgentState, at: int)
    requires length > 0
    ensures TotalIn(f, u, Looked(length, s, st, at).open)
         == TotalIn(f, u, s.open) + if st.subject == u then Gained(f, length, s, st, at) else 0
  {
    hide StartOf, TotalIn, AccrueAll, SpansOf;
    if !Nameless(st) {
      var k := Slot(st.subject, StartOf(length, at));
      var a := if Known(s, st, at) then Accrued(length, s.open, st, s.seen[st.subject], at) else s.open;
      if Known(s, st, at) {
        AccrueTotal(f, u, length, s.open, st, OccupiedFrom(s.seen[st.subject], st.since),
          s.seen[st.subject].accruedTo, at);
      }
      var b := Entered(length, a, s.seen, st, at);
      UpdateTotal(f, u, a, k, RecordOf(a, k).(entries := RecordOf(a, k).entries + 1));
      UpdateTotal(f, u, b, k, RecordOf(b, k).(accruedTo := at, openSince := st.since));
      assert NewEpisode(s.seen, RecordOf(a, k), st) == NewEpisode(s.seen, RecordOf(s.open, k), st);
    }
  }

  function GainedBy(f: Field, u: Subject, length: int, r: Run, op: Op): int
    requires length > 0
  {
    if op.Look? && op.st.subject == u then Gained(f, length, r.state, op.st, op.at) else 0
  }

  function GainedOver(f: Field, u: Subject, length: int, r: Run, ops: seq<Op>): int
    requires length > 0
  {
    if ops == [] then 0 else
    var init := ops[..|ops| - 1];
    GainedOver(f, u, length, r, init) + GainedBy(f, u, length, RunOps(length, r, init), Last(ops))
  }

  lemma StepTotal(f: Field, u: Subject, length: int, r: Run, op: Op)
    requires length > 0
    ensures Everywhere(f, u, Step(length, r, op)) == Everywhere(f, u, r) + GainedBy(f, u, length, r, op)
  {
    hide Total, HandedTotal, Looked, StillOpen, ClosedAt, Gained;
    match op
    case Look(st, at) => LookedTotal(f, u, length, r.state, st, at);
    case Close(now) => HandOver(length, r.state.open, r.handed, now, Weight(f, u));
  }

  /** Main conservation result: a subject's occupied time, observed time and
      entries over all windows, open or handed over, grow by exactly what each
      look states, wherever boundaries and closings fall. */
  lemma {:induction false} StatesConserved(f: Field, u: Subject, length: int, r: Run, ops: seq<Op>)
    requires length > 0
    ensures Everywhere(f, u, RunOps(length, r, ops)) == Everywhere(f, u, r) + GainedOver(f, u, length, r, ops)
  {
    hide Everywhere, Step, GainedBy;
    if ops != [] {
      StatesConserved(f, u, length, r, ops[..|ops| - 1]);
      StepTotal(f, u, length, RunOps(length, r, ops[..|ops| - 1]), Last(ops));
    }
  }

  // ---- one subject's looks ----

  /** One subject's looks in a run: when, and open since when. */
  datatype Sight = Sight(at: int, since: Option<int>)

  function Sights(u: Subject, ops: seq<Op>): seq<Sight> {
    if ops == [] then [] else
    Sights(u, ops[..|ops| - 1])
    + if Last(ops).Look? && Last(ops).st.subject == u then [Sight(Last(ops).at, Last(ops).st.since)] else []
  }

  predicate Named(u: Subject) { u.state != "" && u.subject != "" }

  lemma {:induction false} SeenIsLastSight(length: int, r: Run, u: Subject, ops: seq<Op>)
    requires length > 0 && Named(u) && u !in r.state.seen
    ensures var seen, sights := RunOps(length, r, ops).state.seen, Sights(u, ops);
      && (u in seen <==> sights != [])
      && (sights != [] ==> seen[u] == LastSeen(Last(sights).at, Last(sights).since))
  {
    hide Accrued, Entered, Stamped;
    if ops != [] {
      SeenIsLastSight(length, r, u, ops[..|ops| - 1]);
    }
  }

  lemma {:induction false} LooksTelescope(length: int, r: Run, u: Subject, start: int, ops: seq<Op>)
    requires length > 0 && Named(u) && u !in r.state.seen && InOrder(start, ops)
    ensures var sights := Sights(u, ops);
      && GainedOver(Watched, u, length, r, ops) == (if sights == [] then 0 else Last(sights).at - sights[0].at)
      && (forall i :: 0 <= i < |sights| ==> sights[i].at <= Latest(start, ops))
  {
    hide Looked, RunOps;
    if ops != [] {
      var init, op := ops[..|ops| - 1], Last(ops);
      LooksTelescope(length, r, u, start, init);
      SeenIsLastSight(length, r, u, init);
      var before := Sights(u, init);
      assert before != [] ==> Last(before) == before[|before| - 1];
      if op.Look? && op.st.subject == u {
        assert Sights(u, ops) == before + [Sight(op.at, op.st.since)];
        assert before != [] ==> (before + [Sight(op.at, op.st.since)])[0] == before[0];
      } else {
        assert Sights(u, ops) == before + [];
      }
    }
  }

  /** Observed time telescopes: over any run of passes in order and closings, from
      any resumed records, the observed time of a subject first seen in it grows,
      over all windows open or handed over, by exactly last look minus first. */
  lemma ObservedTelescopes(length: int, r: Run, u: Subject, start: int, ops: seq<Op>)
    requires length > 0 && Named(u) && u !in r.state.seen && InOrder(start, ops)
    ensures var sights := Sights(u, ops);
      Everywhere(Watched, u, RunOps(length, r, ops))
      == Everywhere(Watched, u, r) + if sights == [] then 0 else Last(sights).at - sights[0].at
  {
    hide Everywhere, RunOps, GainedOver, Sights;
    StatesConserved(Watched, u, length, r, ops);
    LooksTelescope(length, r, u, start, ops);
  }

  /** Occupied time between two looks: none where the later one finds the state closed, all
      of it where both find it open, and from its opening on where only the later one does. */
  function OccupiedBetween(p: Sight, s: Sight): nat {
    if s.since.None? then 0
    else if p.since.Some? then Gap(p.at, s.at)
    else Gap(Max(s.since.value, p.at), s.at)
  }

  function OccupiedOver(sights: seq<Sight>): nat {
    if |sights| <= 1 then 0
    else OccupiedOver(sights[..|sights| - 1]) + OccupiedBetween(sights[|sights| - 2], Last(sights))
  }

  lemma OccupiedMore(sights: seq<Sight>, s: Sight)
    ensures OccupiedOver(sights + [s])
         == OccupiedOver(sights) + if sights == [] then 0 else OccupiedBetween(Last(sights), s)
  {
    hide OccupiedBetween;
    assert (sights + [s])[..|sights + [s]| - 1] == sights;
  }

  lemma {:induction false} LooksOccupy(length: int, r: Run, u: Subject, start: int, ops: seq<Op>)
    requires length > 0 && Named(u) && u !in r.state.seen && InOrder(start, ops) && start > 0
    ensures GainedOver(Occupied, u, length, r, ops) == OccupiedOver(Sights(u, ops))
    ensures start <= Latest(start, ops)
    ensures Sights(u, ops) != [] ==> start <= Last(Sights(u, ops)).at <= Latest(start, ops)
  {
    hide Looked, RunOps, OccupiedOver, StartOf;
    if ops == [] {
      assert OccupiedOver([]) == 0 by { NothingOccupied(); }
    } else {
      var init, op := ops[..|ops| - 1], Last(ops);
      LooksOccupy(length, r, u, start, init);
      SeenIsLastSight(length, r, u, init);
      var before := Sights(u, init);
      if op.Look? && op.st.subject == u {
        OccupiedMore(before, Sight(op.at, op.st.since));
      } else {
        assert before + [] == before;
      }
    }
  }

  lemma NothingOccupied()
    ensures OccupiedOver([]) == 0
  {
  }

  /** Occupied time, over any run of passes in order and closings, from any resumed records:
      for a subject first seen in it, what all its windows hold grows by exactly the time
      its own looks found it open for. */
  lemma OccupiedTelescopes(length: int, r: Run, u: Subject, start: int, ops: seq<Op>)
    requires length > 0 && Named(u) && u !in r.state.seen && InOrder(start, ops) && start > 0
    ensures Everywhere(Occupied, u, RunOps(length, r, ops))
         == Everywhere(Occupied, u, r) + OccupiedOver(Sights(u, ops))
  {
    hide Everywhere, RunOps, GainedOver, Sights, OccupiedOver;
    StatesConserved(Occupied, u, length, r, ops);
    LooksOccupy(length, r, u, start, ops);
  }

  // ---- one look, window by window ----

  /** Where a look finds its subject occupied since, if it does. */
  function OpenFrom(p: LastSeen, since: Option<int>): Option<int> {
    if since.None? then None
    else if p.since.Some? then Some(p.accruedTo)
    else Some(Max(since.value, p.accruedTo))
  }

  function InWindowFrom(length: int, w: int, from: int, to: int): nat { Gap(Max(w, from), Min(w + length, to)) }

  lemma {:induction false} AccrueAt(length: int, open: Journal, st: AgentState, occupiedFrom: int, from: int, to: int,
      w: int)
    requires length > 0 && StartOf(length, w) == w && (occupiedFrom == 0 || from <= occupiedFrom)
    ensures var k, after := Slot(st.subject, w), AccrueAll(length, open, st, occupiedFrom, SpansOf(length, from, to));
      var r := RecordOf(open, k);
      RecordOf(after, k) ==
        if InWindowFrom(length, w, from, to) == 0 then r
        else StateRecord(
          r.occupiedNanos + (if occupiedFrom == 0 then 0 else InWindowFrom(length, w, occupiedFrom, to)),
          r.observedNanos + InWindowFrom(length, w, from, to), r.entries, Min(w + length, to), st.since)
    decreases Gap(from, to)
  {
    hide StartOf;
    if from < to {
      var end := Min(StartOf(length, from) + length, to);
      var s := Span(from, end);
      var next := AccrueSpan(length, open, st, occupiedFrom, s);
      OneWindow(length, from, w);
      assert SpansOf(length, from, to)[1..] == SpansOf(length, end, to);
      if occupiedFrom == 0 || end <= occupiedFrom {
        AccrueAt(length, next, st, occupiedFrom, end, to, w);
      } else {
        AccruePast(length, next, st, occupiedFrom, end, to, w);
      }
    }
  }

  /** The same where occupancy began before the interval. */
  lemma {:induction false} AccruePast(length: int, open: Journal, st: AgentState, occupiedFrom: int, from: int,
      to: int, w: int)
    requires length > 0 && StartOf(length, w) == w && occupiedFrom != 0 && occupiedFrom <= from
    ensures var k, after := Slot(st.subject, w), AccrueAll(length, open, st, occupiedFrom, SpansOf(length, from, to));
      var r := RecordOf(open, k);
      RecordOf(after, k) ==
        if InWindowFrom(length, w, from, to) == 0 then r
        else StateRecord(
          r.occupiedNanos + InWindowFrom(length, w, from, to),
          r.observedNanos + InWindowFrom(length, w, from, to), r.entries, Min(w + length, to), st.since)
    decreases Gap(from, to)
  {
    hide StartOf;
    if from < to {
      var end := Min(StartOf(length, from) + length, to);
      var s := Span(from, end);
      OneWindow(length, from, w);
      assert SpansOf(length, from, to)[1..] == SpansOf(length, end, to);
      AccruePast(length, AccrueSpan(length, open, st, occupiedFrom, s), st, occupiedFrom, end, to, w);
    }
  }

  /** A look without a state or without a subject changes nothing. */
  lemma NamelessIgnored(length: int, s: State, st: AgentState, at: int)
    requires length > 0 && (st.subject.state == "" || st.subject.subject == "")
    ensures Looked(length, s, st, at) == s
  {
  }

  /** One look, window by window: observed time is the overlap of the window with the time
      since the subject's last look, occupied time its overlap with the part of it the
      subject was open for, an entry is filed where the look itself falls if it starts an
      episode, and the windows reached are stamped with how far they go and what was open. */
  lemma LookAt(length: int, s: State, st: AgentState, at: int, w: int)
    requires length > 0 && StartOf(length, w) == w && !Nameless(st)
    requires st.subject in s.seen ==> s.seen[st.subject].accruedTo > 0
    ensures var k := Slot(st.subject, w);
      var r, after := RecordOf(s.open, k), RecordOf(Looked(length, s, st, at).open, k);
      var p := if st.subject in s.seen then s.seen[st.subject] else LastSeen(at, None);
      var reached := st.subject in s.seen && InWindowFrom(length, w, p.accruedTo, at) > 0;
      && after.observedNanos == r.observedNanos + (if reached then InWindowFrom(length, w, p.accruedTo, at) else 0)
      && after.occupiedNanos == r.occupiedNanos
         + (if reached && OpenFrom(p, st.since).Some?
            then InWindowFrom(length, w, OpenFrom(p, st.since).value, at) else 0)
      && after.accruedTo
         == (if w <= at < w + length then at else if reached then w + length else r.accruedTo)
      && after.openSince == (if w <= at < w + length || reached then st.since else r.openSince)
      && after.entries == r.entries
         + (if w <= at < w + length && st.since.Some?
               && st.since != (if st.subject in s.seen then p.since else r.openSince) then 1 else 0)
  {
    hide StartOf, AccrueAll, SpansOf;
    OneWindow(length, at, w);
    if Known(s, st, at) {
      var p := s.seen[st.subject];
      AccrueAt(length, s.open, st, OccupiedFrom(p, st.since), p.accruedTo, at, w);
    }
  }

  /** The episode a sight opens: what it finds open is not what the sight before
      it found, nor, at the first sight, what a resumed record holds open. */
  function EpisodeStarts(resumed: Option<int>, sights: seq<Sight>): nat {
    if sights == [] then 0 else
    var init, s := sights[..|sights| - 1], Last(sights);
    var before := if init == [] then resumed else Last(init).since;
    EpisodeStarts(resumed, init) + if s.since.Some? && s.since != before then 1 else 0
  }

  /** What the run's open windows hold open for a subject at an instant. */
  function HeldOpen(length: int, open: Journal, u: Subject, at: int): Option<int>
    requires length > 0
  {
    RecordOf(open, Slot(u, StartOf(length, at))).openSince
  }

  /** What was held open for a subject when the run first looked at it. */
  function HeldAtFirst(length: int, r: Run, u: Subject, ops: seq<Op>): Option<int>
    requires length > 0
  {
    if ops == [] then None else
    var init, op := ops[..|ops| - 1], Last(ops);
    if Sights(u, init) != [] then HeldAtFirst(length, r, u, init)
    else if op.Look? && op.st.subject == u then HeldOpen(length, RunOps(length, r, init).state.open, u, op.at)
    else None
  }

  lemma EpisodeStep(resumed: Option<int>, sights: seq<Sight>, s: Sight)
    ensures EpisodeStarts(resumed, sights + [s]) == EpisodeStarts(resumed, sights)
      + if s.since.Some? && s.since != (if sights == [] then resumed else Last(sights).since) then 1 else 0
  {
    assert (sights + [s])[..|sights + [s]| - 1] == sights;
  }

  lemma {:induction false} LooksCountEpisodes(length: int, r: Run, u: Subject, ops: seq<Op>)
    requires length > 0 && Named(u) && u !in r.state.seen
    ensures GainedOver(Episodes, u, length, r, ops) == EpisodeStarts(HeldAtFirst(length, r, u, ops), Sights(u, ops))
  {
    hide Looked, RunOps, StartOf, EpisodeStarts;
    if ops == [] {
      EpisodesNone(HeldAtFirst(length, r, u, ops));
    } else {
      var init, op := ops[..|ops| - 1], Last(ops);
      var before := Sights(u, init);
      LooksCountEpisodes(length, r, u, init);
      SeenIsLastSight(length, r, u, init);
      if before == [] {
        EpisodesNone(HeldAtFirst(length, r, u, init));
        EpisodesNone(HeldAtFirst(length, r, u, ops));
      }
      if op.Look? && op.st.subject == u {
        EpisodeStep(HeldAtFirst(length, r, u, ops), before, Sight(op.at, op.st.since));
      } else {
        assert before + [] == before;
      }
    }
  }

  /** Entries count episodes: over any run, a subject's entries over all windows grow
      by the episode starts its looks saw, counted from what the record of the first
      look's own window held open. */
  lemma EntriesCountEpisodes(length: int, r: Run, u: Subject, ops: seq<Op>)
    requires length > 0 && Named(u) && u !in r.state.seen
    ensures Everywhere(Episodes, u, RunOps(length, r, ops))
         == Everywhere(Episodes, u, r) + EpisodeStarts(HeldAtFirst(length, r, u, ops), Sights(u, ops))
  {
    hide Everywhere, RunOps, GainedOver, Sights, EpisodeStarts, HeldAtFirst;
    StatesConserved(Episodes, u, length, r, ops);
    LooksCountEpisodes(length, r, u, ops);
  }

  lemma EpisodesNone(resumed: Option<int>)
    ensures EpisodeStarts(resumed, []) == 0
  {
  }

  lemma {:induction false} AccrueOthers(length: int, open: Journal, st: AgentState, occupiedFrom: int, spans: seq<Span>)
    requires length > 0
    ensures OthersKept(open, AccrueAll(length, open, st, occupiedFrom, spans), st.subject)
    decreases |spans|
  {
    hide StartOf;
    if spans != [] {
      AccrueOthers(length, AccrueSpan(length, open, st, occupiedFrom, spans[0]), st, occupiedFrom, spans[1..]);
    }
  }

  /** Until a run looks at a subject, its records are those the run began with. */
  lemma {:induction false} UnseenKept(length: int, r: Run, u: Subject, ops: seq<Op>)
    requires length > 0 && Sights(u, ops) == []
    ensures var open := RunOps(length, r, ops).state.open;
      forall k :: k in open && k.of == u ==> k in r.state.open && open[k] == r.state.open[k]
  {
    hide StartOf, AccrueAll, SpansOf;
    if ops != [] {
      var init, op := ops[..|ops| - 1], Last(ops);
      assert Sights(u, init) == [];
      UnseenKept(length, r, u, init);
      var mid := RunOps(length, r, init).state;
      if op.Look? && Known(mid, op.st, op.at) {
        var prev := mid.seen[op.st.subject];
        AccrueOthers(length, mid.open, op.st, OccupiedFrom(prev, op.st.since), SpansOf(length, prev.accruedTo, op.at));
      }
    }
  }

  /** So an episode goes uncounted at first sight only where a record the run
      resumed with holds exactly that episode open in the window being looked at. */
  lemma HeldIsResumed(length: int, r: Run, u: Subject, ops: seq<Op>, at: int)
    requires length > 0 && Sights(u, ops) == []
    requires HeldOpen(length, RunOps(length, r, ops).state.open, u, at).Some?
    ensures HeldOpen(length, r.state.open, u, at) == HeldOpen(length, RunOps(length, r, ops).state.open, u, at)
  {
    hide StartOf, RunOps;
    UnseenKept(length, r, u, ops);
  }

  // ---- entries across a restart ----

  function InstantOf(op: Op): int { if op.Look? then op.at else op.now }

  /** The latest instant of a run, looks and closings alike. */
  function Clock(start: int, ops: seq<Op>): int {
    if ops == [] then start else InstantOf(Last(ops))
  }

  /** Looks and closings follow one clock. */
  predicate Timed(start: int, ops: seq<Op>) {
    ops == [] ||
    (Timed(start, ops[..|ops| - 1]) && Clock(start, ops[..|ops| - 1]) <= InstantOf(Last(ops)))
  }

  /** No record of a subject lies past the window of an instant, and that window's
      own record, if there is one, says what was open then. */
  ghost predicate UpToDate(length: int, open: Journal, u: Subject, s: Sight)
    requires length > 0
  {
    forall k :: k in open && k.of == u ==>
      k.start <= StartOf(length, s.at) && (k.start == StartOf(length, s.at) ==> open[k].openSince == s.since)
  }

  lemma {:induction false} AccrueUpTo(length: int, open: Journal, st: AgentState, occupiedFrom: int, spans: seq<Span>,
      at: int)
    requires length > 0 && forall i :: 0 <= i < |spans| ==> spans[i].start <= at
    requires forall k :: k in open && k.of == st.subject ==> k.start <= StartOf(length, at)
    ensures forall k :: k in AccrueAll(length, open, st, occupiedFrom, spans) && k.of == st.subject ==>
      k.start <= StartOf(length, at)
    decreases |spans|
  {
    hide StartOf;
    if spans != [] {
      StartOfMonotone(length, spans[0].start, at);
      AccrueUpTo(length, AccrueSpan(length, open, st, occupiedFrom, spans[0]), st, occupiedFrom, spans[1..], at);
    }
  }

  /** A look leaves its subject up to date, in the look's own window. */
  lemma LookUpToDate(length: int, s: State, st: AgentState, at: int)
    requires length > 0 && !Nameless(st)
    requires forall k :: k in s.open && k.of == st.subject ==> k.start <= StartOf(length, at)
    ensures var open := Looked(length, s, st, at).open;
      UpToDate(length, open, st.subject, Sight(at, st.since)) && Slot(st.subject, StartOf(length, at)) in open
  {
    hide StartOf, AccrueAll;
    if Known(s, st, at) {
      var prev := s.seen[st.subject];
      SpansCover(length, prev.accruedTo, at);
      AccrueUpTo(length, s.open, st, OccupiedFrom(prev, st.since), SpansOf(length, prev.accruedTo, at), at);
    }
  }

  /** A look leaves every other subject's records alone. */
  lemma LookOthers(length: int, s: State, st: AgentState, at: int)
    requires length > 0
    ensures OthersKept(s.open, Looked(length, s, st, at).open, st.subject)
  {
    hide StartOf, AccrueAll;
    if Known(s, st, at) {
      var prev := s.seen[st.subject];
      AccrueOthers(length, s.open, st, OccupiedFrom(prev, st.since), SpansOf(length, prev.accruedTo, at));
    }
  }

  /** On one clock a subject stays up to date with its last look, and the record of
      that look's window stays open until the window ends. */
  lemma {:induction false} LastLookHeld(length: int, start: int, ops: seq<Op>, u: Subject)
    requires length > 0 && Named(u) && Timed(start, ops)
    ensures var open, sights := RunOps(length, Run(State(map[], map[]), []), ops).state.open, Sights(u, ops);
      && (sights == [] ==> forall k :: k in open ==> k.of != u)
      && (sights != [] ==>
            && Last(sights).at <= Clock(start, ops)
            && UpToDate(length, open, u, Last(sights))
            && (Clock(start, ops) < StartOf(length, Last(sights).at) + length ==>
                  Slot(u, StartOf(length, Last(sights).at)) in open))
  {
    hide StartOf, Looked;
    if ops != [] {
      var init, op := ops[..|ops| - 1], Last(ops);
      var mid := RunOps(length, Run(State(map[], map[]), []), init);
      LastLookHeld(length, start, init, u);
      var before := Sights(u, init);
      if op.Look? && op.st.subject == u {
        if before != [] {
          StartOfMonotone(length, Last(before).at, op.at);
        }
        LookUpToDate(length, mid.state, op.st, op.at);
        assert Last(before + [Sight(op.at, op.st.since)]) == Sight(op.at, op.st.since);
      } else {
        assert before + [] == before;
        if op.Look? {
          LookOthers(length, mid.state, op.st, op.at);
        }
      }
    }
  }

  /** Before a run looks at a subject, its records of windows still running stay. */
  lemma {:induction false} UnseenStays(length: int, r: Run, start: int, ops: seq<Op>, k: RecordKey)
    requires length > 0 && Timed(start, ops) && Sights(k.of, ops) == []
    requires k in r.state.open && Clock(start, ops) < k.start + length
    ensures k in RunOps(length, r, ops).state.open
  {
    hide Looked;
    if ops != [] {
      var init, op := ops[..|ops| - 1], Last(ops);
      assert Sights(k.of, init) == [];
      UnseenStays(length, r, start, init, k);
      if op.Look? {
        LookOthers(length, RunOps(length, r, init).state, op.st, op.at);
      }
    }
  }

  /** The run of a successor that resumes everything its predecessor left open. */
  function Successor(died: Run): Run { Run(State(died.state.open, map[]), died.handed) }

  /** Resuming every open record, in any order, rebuilds the open records. */
  lemma ResumesAll(open: Journal, left: seq<(RecordKey, StateRecord)>)
    requires forall e :: e in left <==> e.0 in open && open[e.0] == e.1
    ensures ResumedAll(map[], left) == open
  {
    hide ResumedAll;
    ResumeKeeps(map[], left);
    var o := ResumedAll(map[], left);
    forall k
      ensures k in o <==> k in open
      ensures k in o && k in open ==> o[k] == open[k]
    {
      assert k in o ==> (k, o[k]) in left;
      assert k in open ==> (k, open[k]) in left;
    }
  }

  /** What a successor finds held at its first look is its predecessor's last sight,
      in the same window, and nothing in a later one. */
  lemma {:induction false} FirstLookHeld(length: int, start: int, first: seq<Op>, second: seq<Op>, u: Subject)
    requires length > 0 && Named(u) && Timed(start, first) && Timed(Clock(start, first), second)
    requires Sights(u, second) != []
    ensures var died := RunOps(length, Run(State(map[], map[]), []), first);
      var s1, s2 := Sights(u, first), Sights(u, second);
      HeldAtFirst(length, Successor(died), u, second) ==
        if s1 != [] && StartOf(length, s2[0].at) == StartOf(length, Last(s1).at) then Last(s1).since else None
  {
    hide StartOf, RunOps, UpToDate;
    var init, op := second[..|second| - 1], Last(second);
    var before := Sights(u, init);
    if before != [] {
      FirstLookHeld(length, start, first, init, u);
      assert Sights(u, second)[0] == before[0];
    } else {
      assert op.Look? && op.st.subject == u && Sights(u, second) == [] + [Sight(op.at, op.st.since)];
      HeldByWindow(length, start, first, init, u, op.at);
    }
  }

  lemma HeldByWindow(length: int, start: int, first: seq<Op>, init: seq<Op>, u: Subject, at: int)
    requires length > 0 && Named(u) && Timed(start, first) && Timed(Clock(start, first), init)
    requires Sights(u, init) == [] && Clock(Clock(start, first), init) <= at
    ensures var died := RunOps(length, Run(State(map[], map[]), []), first);
      HeldOpen(length, RunOps(length, Successor(died), init).state.open, u, at) ==
        if Sights(u, first) != [] && StartOf(length, at) == StartOf(length, Last(Sights(u, first)).at)
        then Last(Sights(u, first)).since else None
  {
    hide StartOf, RunOps;
    var died := RunOps(length, Run(State(map[], map[]), []), first);
    var k, s1 := Slot(u, StartOf(length, at)), Sights(u, first);
    LastLookHeld(length, start, first, u);
    UnseenKept(length, Successor(died), u, init);
    ClockAdvances(Clock(start, first), init);
    if s1 != [] {
      StartOfMonotone(length, Last(s1).at, at);
      if k.start == StartOf(length, Last(s1).at) {
        assert at < k.start + length by { InWindow(length, at); }
        UnseenStays(length, Successor(died), Clock(start, first), init, k);
      }
    }
  }

  lemma InWindow(length: int, at: int)
    requires length > 0
    ensures StartOf(length, at) <= at < StartOf(length, at) + length
  {
  }

  lemma {:induction false} ClockAdvances(start: int, ops: seq<Op>)
    requires Timed(start, ops)
    ensures start <= Clock(start, ops)
  {
    if ops != [] {
      ClockAdvances(start, ops[..|ops| - 1]);
    }
  }

  lemma {:induction false} EpisodesConcat(resumed: Option<int>, a: seq<Sight>, b: seq<Sight>)
    ensures EpisodeStarts(resumed, a + b)
         == EpisodeStarts(resumed, a) + EpisodeStarts(if a == [] then resumed else Last(a).since, b)
  {
    hide EpisodeStarts;
    if b == [] {
      assert a + b == a;
      EpisodesNone(if a == [] then resumed else Last(a).since);
    } else {
      var init, s := b[..|b| - 1], Last(b);
      EpisodesConcat(resumed, a, init);
      assert b == init + [s] && a + b == (a + init) + [s];
      EpisodeStep(resumed, a + init, s);
      EpisodeStep(if a == [] then resumed else Last(a).since, init, s);
    }
  }

  /** Only the first sight depends on what was open before. */
  lemma EpisodesFrom(x: Option<int>, y: Option<int>, sights: seq<Sight>)
    requires sights != []
    ensures var s := sights[0].since;
      EpisodeStarts(x, sights) - EpisodeStarts(y, sights)
      == (if s.Some? && s != x then 1 else 0) - (if s.Some? && s != y then 1 else 0)
  {
    hide EpisodeStarts;
    assert sights == [sights[0]] + sights[1..] && [] + [sights[0]] == [sights[0]];
    EpisodesConcat(x, [sights[0]], sights[1..]);
    EpisodesConcat(y, [sights[0]], sights[1..]);
    EpisodeStep(x, [], sights[0]);
    EpisodeStep(y, [], sights[0]);
    EpisodesNone(x);
    EpisodesNone(y);
  }

  /** The successor's first look finds, in another window, the episode its predecessor
      last saw open. */
  predicate CountedAgain(length: int, s1: seq<Sight>, s2: seq<Sight>)
    requires length > 0
  {
    && s1 != [] && s2 != [] && s2[0].since.Some? && s2[0].since == Last(s1).since
    && StartOf(length, s2[0].at) != StartOf(length, Last(s1).at)
  }

  /** Entries over a restart: on one clock, the entries two processes file for a
      subject over all windows are the episode starts in all their sights together,
      and exactly one more where the successor first looks in another window than its
      predecessor last did and finds the same episode open. So they are the episode
      starts if and only if that does not happen. */
  lemma EntriesAcrossRestart(length: int, start: int, first: seq<Op>, left: seq<(RecordKey, StateRecord)>,
                             second: seq<Op>, u: Subject)
    requires length > 0 && Named(u) && Timed(start, first) && Timed(Clock(start, first), second)
    requires var open := RunOps(length, Run(State(map[], map[]), []), first).state.open;
      forall e :: e in left <==> e.0 in open && open[e.0] == e.1
    ensures var died := RunOps(length, Run(State(map[], map[]), []), first);
      var end := RunOps(length, Run(State(ResumedAll(map[], left), map[]), died.handed), second);
      var s1, s2 := Sights(u, first), Sights(u, second);
      && Everywhere(Episodes, u, end)
         == EpisodeStarts(None, s1 + s2) + (if CountedAgain(length, s1, s2) then 1 else 0)
      && (Everywhere(Episodes, u, end) == EpisodeStarts(None, s1 + s2) <==> !CountedAgain(length, s1, s2))
  {
    hide StartOf, RunOps, Everywhere, EpisodeStarts, HeldAtFirst, ResumedAll, Sights;
    var died := RunOps(length, Run(State(map[], map[]), []), first);
    var s1, s2 := Sights(u, first), Sights(u, second);
    ResumesAll(died.state.open, left);
    FirstProcessEntries(length, start, first, u);
    EntriesCountEpisodes(length, Successor(died), u, second);
    SameTotals(died, u);
    EpisodesConcat(None, s1, s2);
    if s2 == [] {
      EpisodesNone(HeldAtFirst(length, Successor(died), u, second));
      EpisodesNone(if s1 == [] then None else Last(s1).since);
    } else {
      FirstLookHeld(length, start, first, second, u);
      EpisodesFrom(HeldAtFirst(length, Successor(died), u, second), if s1 == [] then None else Last(s1).since, s2);
    }
  }

  lemma SameTotals(died: Run, u: Subject)
    ensures Everywhere(Episodes, u, Successor(died)) == Everywhere(Episodes, u, died)
  {
  }

  lemma FirstProcessEntries(length: int, start: int, first: seq<Op>, u: Subject)
    requires length > 0 && Named(u) && Timed(start, first)
    ensures Everywhere(Episodes, u, RunOps(length, Run(State(map[], map[]), []), first))
         == EpisodeStarts(None, Sights(u, first))
  {
    hide StartOf, RunOps, EpisodeStarts, HeldAtFirst, Sights;
    var blank := Run(State(map[], map[]), []);
    EntriesCountEpisodes(length, blank, u, first);
    NothingHeld(length, u, first);
    if Sights(u, first) == [] {
      EpisodesNone(None);
      EpisodesNone(HeldAtFirst(length, blank, u, first));
    }
  }

  /** A process that resumed nothing holds nothing at its first look. */
  lemma {:induction false} NothingHeld(length: int, u: Subject, ops: seq<Op>)
    requires length > 0
    ensures HeldAtFirst(length, Run(State(map[], map[]), []), u, ops) == None
  {
    hide StartOf, RunOps;
    if ops != [] {
      var init := ops[..|ops| - 1];
      NothingHeld(length, u, init);
      if Sights(u, init) == [] {
        UnseenKept(length, Run(State(map[], map[]), []), u, init);
      }
    }
  }

  lemma OneSight(u: Subject, since: Option<int>, at: int)
    ensures Sights(u, [Look(AgentState(u, since), at)]) == [Sight(at, since)]
  {
    var look := Look(AgentState(u, since), at);
    assert [look][..0] == [];
    assert Sights(u, []) == [];
  }

  /** An episode open since 3, looked at once at 5 by one process and once at 12 by its
      successor, over windows of ten: one episode, two entries. */
  lemma RestartOverBoundaryExample(u: Subject, left: seq<(RecordKey, StateRecord)>)
    requires Named(u)
    requires var open := RunOps(10, Run(State(map[], map[]), []), [Look(AgentState(u, Some(3)), 5)]).state.open;
      forall e :: e in left <==> e.0 in open && open[e.0] == e.1
    ensures var look1, look2 := Look(AgentState(u, Some(3)), 5), Look(AgentState(u, Some(3)), 12);
      var died := RunOps(10, Run(State(map[], map[]), []), [look1]);
      var end := RunOps(10, Run(State(ResumedAll(map[], left), map[]), died.handed), [look2]);
      && EpisodeStarts(None, Sights(u, [look1]) + Sights(u, [look2])) == 1
      && Everywhere(Episodes, u, end) == 2
  {
    hide RunOps, Everywhere, EpisodeStarts, Sights;
    var look1, look2 := Look(AgentState(u, Some(3)), 5), Look(AgentState(u, Some(3)), 12);
    var a, b := Sight(5, Some(3)), Sight(12, Some(3));
    OneSight(u, Some(3), 5);
    OneSight(u, Some(3), 12);
    assert [] + [a] == [a] && [a] + [b] == [a, b];
    EpisodesNone(None);
    EpisodeStep(None, [], a);
    EpisodeStep(None, [a], b);
    EntriesAcrossRestart(10, 0, [look1], left, [look2], u);
  }
}
