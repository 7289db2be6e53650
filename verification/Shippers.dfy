/** The shipper itself: the marks, the failure count and the halt latch it updates
    as it lists and delivers, and the backoff (internal/shipper/shipper.go). */
module Shippers {
  import opened Basics
  import opened Shipping

  const SECOND: int := 1_000_000_000
  const MIN_BACKOFF: int := 5 * SECOND
  const MAX_BACKOFF: int := 300 * SECOND

  /** What one look at a directory entry showed; None when it was gone. */
  datatype Entry = Entry(name: string, isDir: bool, info: Option<File>)

  datatype Reply = Status(code: int) | NoReply(shuttingDown: bool)

  /** What one delivery met: the file when it was opened, the reply, the file under
      the name when it was looked at again, and whether removing it failed. */
  datatype Visit = Visit(cancelled: bool, found: Option<File>, reply: Reply, current: Option<File>, removeFails: bool)

  // ---- the same steps as the protocol's, at one name ----

  function Only(name: string, file: Option<File>): Dir {
    if file.Some? then map[name := file.value] else map[]
  }

  /** One entry of a listing. */
  function Seen(s: State, e: Entry): (t: State)
    requires s.phase.Listing?
    ensures t.phase.Listing? && t == s.(phase := t.phase, dir := t.dir)
  {
    if e.isDir then s
    else Examined(s.(phase := s.phase.(todo := [e.name]), dir := Only(e.name, e.info))).(dir := map[])
  }

  /** The listing, entry by entry. */
  function Found(s: State, entries: seq<Entry>): (t: State)
    ensures t.phase.Listing? && t == s.(phase := t.phase, dir := t.dir, trace := s.trace + [Began])
  {
    if entries == [] then Noted(s.(phase := Listing([], map[], []), dir := map[]), Began)
    else Seen(Found(s, entries[..|entries| - 1]), Last(entries))
  }

  lemma FoundMore(s: State, entries: seq<Entry>, i: nat)
    requires i < |entries|
    ensures Found(s, entries[..i + 1]) == Seen(Found(s, entries[..i]), entries[i])
  {
    hide Seen;
    assert entries[..i + 1][..i] == entries[..i];
  }

  lemma FoundNone(s: State)
    ensures Found(s, []) == Noted(s.(phase := Listing([], map[], []), dir := map[]), Began)
  {
  }

  /** The listing done, its candidates queued. */
  function Listed(s: State, entries: seq<Entry>): (t: State)
    ensures t.phase.Delivering?
  {
    Step(Found(s, entries), Sort).(dir := map[])
  }

  /** One delivery, from opening the file to settling it. */
  function Visited(s: State, name: string, v: Visit): (t: State)
    ensures t.phase == Idle || t.phase == Delivering([])
  {
    var a := ReadHead(s.(dir := Only(name, v.found)), name, []);
    if !a.phase.InFlight? then a.(dir := map[]) else
    var b := if v.reply.Status? then Answered(a, v.reply.code) else Step(a, NoAnswer(v.reply.shuttingDown));
    if !b.phase.Acking? then b.(dir := map[])
    else Settled(b.(dir := Only(name, v.current)), v.removeFails).(dir := map[])
  }

  /** A file a delivery posts. */
  predicate Postable(f: File) { f.readable && f.size <= 4_194_304 && f.knownKind }

  /** What an answer does, by its number: 2xx clears the failures, 401 and 403 halt, 400 and
      413 hold these bytes, anything else is one more failure; and the round goes on after
      the first and the third. */
  predicate AnsweredBy(was: State, now: State, goOn: bool, name: string, id: nat, code: int) {
    && now.held == (if code == 400 || code == 413 then was.held[name := id] else was.held)
    && now.failures == (if 200 <= code < 300 then 0 else if Unsettled(code) then was.failures + 1 else was.failures)
    && now.halted == (was.halted || code == 401 || code == 403)
    && (goOn <==> 200 <= code < 300 || code == 400 || code == 413)
  }

  lemma VisitedAnswers(s: State, name: string, v: Visit)
    requires v.found.Some? && Postable(v.found.value) && v.reply.Status?
    ensures var t := Visited(s, name, v);
      AnsweredBy(s, t, t.phase.Delivering?, name, v.found.value.id, v.reply.code)
  {
  }

  /** The deliveries of a round, until one ends it. */
  function AllVisited(s: State, queue: seq<string>, visits: seq<Visit>): State
    requires |queue| <= |visits|
    decreases |queue|
  {
    if queue == [] || visits[0].cancelled then s else
    var t := Visited(s, queue[0], visits[0]);
    if t.phase.Delivering? then AllVisited(t.(phase := Idle), queue[1..], visits[1..]) else t
  }

  lemma {:induction false} FoundBound(s: State, entries: seq<Entry>)
    ensures |Found(s, entries).phase.out| <= |entries|
  {
    if entries != [] {
      FoundBound(s, entries[..|entries| - 1]);
    }
  }

  lemma ListedBound(s: State, entries: seq<Entry>)
    ensures |Listed(s, entries).phase.queue| <= |entries|
  {
    hide Sorted, Found;
    FoundBound(s, entries);
    var out := Found(s, entries).phase.out;
    SortedMembers(out);
    assert |multiset(Sorted(out))| == |multiset(out)|;
  }

  /** A whole round: nothing when halted or where the directory cannot be listed,
      otherwise the listing and then the deliveries. */
  function RoundOf(s: State, listing: Option<seq<Entry>>, visits: seq<Visit>): State
    requires listing.Some? ==> |listing.value| <= |visits|
  {
    if s.halted || listing.None? then s else
    ListedBound(s, listing.value);
    var t := Listed(s, listing.value);
    AllVisited(t.(phase := Idle), t.phase.queue, visits)
  }

  /** A name is a candidate of a listing exactly when some entry shows it as a file that is
      there, is no write in progress and is not the one marked under it. */
  lemma {:induction false} FoundMeaning(s: State, entries: seq<Entry>, name: string)
    ensures (exists x :: x in Found(s, entries).phase.out && x.name == name) <==>
      exists e :: e in entries && e.name == name && Candidate(s.held, e)
  {
    hide IsTemporary;
    if entries != [] {
      var init, e := entries[..|entries| - 1], Last(entries);
      FoundMeaning(s, init, name);
      assert entries == init + [e];
      assert forall x :: x in entries <==> x in init || x == e;
      var was, now := Found(s, init).phase.out, Found(s, entries).phase.out;
      if Candidate(s.held, e) {
        var one := Spooled(e.name, e.info.value.modTime);
        assert now == was + [one];
        assert forall x :: x in now <==> x in was || x == one;
      } else {
        assert now == was;
      }
    }
  }

  predicate Candidate(held: Marks, e: Entry) {
    && !e.isDir && !IsTemporary(e.name) && e.info.Some?
    && !(e.name in held && held[e.name] == e.info.value.id)
  }

  class Shipper {
    var held: Marks
    var failures: nat
    var halted: bool
    /** What happened so far. */
    ghost var trace: seq<Event>

    constructor ()
      ensures AtPhase(Idle) == START
    {
      held, failures, halted, trace := map[], 0, false, [];
    }

    ghost function AtPhase(phase: Phase): State
      reads this
    {
      State(map[], {}, held, failures, halted, phase, trace)
    }

    /** Lists the payloads to offer and forgets the marks on files gone or replaced. */
    method Pending(entries: seq<Entry>) returns (queue: seq<string>)
      modifies this
      ensures AtPhase(Delivering(queue)) == Listed(old(AtPhase(Idle)), entries)
      ensures |queue| <= |entries|
    {
      FoundNone(AtPhase(Idle));
      hide Sorted, Found;
      var still: Marks := map[];
      var out: seq<Spooled> := [];
      ghost var start := AtPhase(Idle);
      trace := trace + [Began];
      for i := 0 to |entries|
        invariant Found(start, entries[..i]) == AtPhase(Listing([], still, out))
        invariant |out| <= i
        invariant AtPhase(Idle) == Noted(start, Began)
      {
        var e := entries[i];
        FoundMore(start, entries, i);
        if !e.isDir && !IsTemporary(e.name) && e.info.Some? {
          var info := e.info.value;
          if e.name in held && held[e.name] == info.id {
            still := still[e.name := held[e.name]];
          } else {
            out := out + [Spooled(e.name, info.modTime)];
          }
        }
      }
      assert entries[..|entries|] == entries;
      held := still;
      queue := Names(Sorted(out));
      ListedBound(start, entries);
    }

    method Hold(name: string, id: nat)
      modifies this
      ensures AtPhase(Delivering([])) == Shipping.Hold(old(AtPhase(Idle)), name, id, [])
    {
      held := held[name := id];
      trace := trace + [Held(name, id)];
    }

    method Deferred()
      modifies this
      ensures AtPhase(Idle) == DeferredOne(old(AtPhase(Idle)))
    {
      failures := failures + 1;
      trace := trace + [Event.Deferred];
    }

    /** Settles a delivered payload: its name is removed while it holds what was sent. */
    method Acknowledged(name: string, sent: nat, current: Option<File>, removeFails: bool) returns (removed: bool)
      modifies this
      ensures AtPhase(Delivering([])) ==
        Settled(Answered(old(AtPhase(InFlight(name, sent, []))), 200).(dir := Only(name, current)),
          removeFails).(dir := map[])
      ensures removed <==> current.Some? && current.value.id == sent && !removeFails
    {
      trace := trace + [Event.Acknowledged(sent)];
      failures := 0;
      removed := false;
      if current.None? || current.value.id != sent {
        return;
      }
      removed := !removeFails;
      if removed {
        trace := trace + [Removed(name, sent)];
      }
    }

    /** One payload's delivery; the result says whether the next one follows. */
    method Deliver(name: string, v: Visit) returns (goOn: bool)
      modifies this
      ensures var t := Visited(old(AtPhase(Idle)), name, v);
        AtPhase(t.phase) == t && goOn == t.phase.Delivering?
      ensures v.found.Some? && Postable(v.found.value) && v.reply.Status? ==>
        AnsweredBy(old(AtPhase(Idle)), AtPhase(Idle), goOn, name, v.found.value.id, v.reply.code)
    {
      if v.found.Some? && Postable(v.found.value) && v.reply.Status? {
        VisitedAnswers(AtPhase(Idle), name, v);
      }
      if v.found.None? || !v.found.value.readable {
        return true;
      }
      var info := v.found.value;
      if info.size > MAX_PAYLOAD_BYTES {
        Hold(name, info.id);
        return true;
      }
      if !info.knownKind {
        return true;
      }
      trace := trace + [Offered(name, info.id)];
      if v.reply.NoReply? {
        if !v.reply.shuttingDown {
          Deferred();
        }
        return false;
      }
      var status := v.reply.code;
      if 200 <= status < 300 {
        var _ := Acknowledged(name, info.id, v.current, v.removeFails);
        return true;
      }
      if status == 401 || status == 403 {
        halted := true;
        trace := trace + [Halted];
        return false;
      }
      if status == 400 || status == 413 {
        Hold(name, info.id);
        return true;
      }
      Deferred();
      return false;
    }

    /** One round over whatever the listing shows and each delivery meets. No listing
        means the directory could not be read. */
    method Round(listing: Option<seq<Entry>>, visits: seq<Visit>)
      requires listing.Some? ==> |listing.value| <= |visits|
      modifies this
      ensures AtPhase(Idle) == RoundOf(old(AtPhase(Idle)), listing, visits)
    {
      hide Visited, Listed;
      if halted || listing.None? {
        return;
      }
      var queue := Pending(listing.value);
      ghost var start := AtPhase(Idle);
      var i := 0;
      while i < |queue|
        invariant i <= |queue|
        invariant AllVisited(AtPhase(Idle), queue[i..], visits[i..]) == AllVisited(start, queue, visits)
      {
        if visits[i].cancelled {
          return;
        }
        assert queue[i..][1..] == queue[i + 1..] && visits[i..][1..] == visits[i + 1..];
        var goOn := Deliver(queue[i], visits[i]);
        if !goOn {
          return;
        }
        i := i + 1;
      }
    }

    /** How long before the next round. The jitter draws below its argument. */
    method NextDelay(interval: int, jitter: int -> int) returns (delay: int)
      requires forall n :: n > 0 ==> 0 <= jitter(n) < n
      ensures failures == 0 ==> delay == interval
      ensures failures > 0 ==> Backoff(failures) / 2 <= delay < Backoff(failures)
      ensures failures > 0 ==> delay - jitter(Backoff(failures) / 2) == Backoff(failures) / 2
    {
      if failures == 0 {
        return interval;
      }
      var d := MIN_BACKOFF;
      var i := 1;
      while i < failures && d < MAX_BACKOFF
        invariant 1 <= i <= failures && MIN_BACKOFF <= d
        invariant d == Doubled(i - 1)
      {
        d := d * 2;
        i := i + 1;
      }
      DoubledMonotone(i - 1, failures - 1);
      if d > MAX_BACKOFF {
        d := MAX_BACKOFF;
      }
      delay := d / 2 + jitter(d / 2);
    }
  }

  function Doubled(n: nat): int {
    if n == 0 then MIN_BACKOFF else 2 * Doubled(n - 1)
  }

  /** The backoff after so many deferrals in a row: doubling, capped. */
  function Backoff(failures: nat): int
    requires failures > 0
  {
    Min(Doubled(failures - 1), MAX_BACKOFF)
  }

  lemma {:induction false} DoubledMonotone(m: nat, n: nat)
    requires m <= n
    ensures MIN_BACKOFF <= Doubled(m) <= Doubled(n)
  {
    if m < n {
      DoubledMonotone(m, n - 1);
    } else if m > 0 {
      DoubledMonotone(m - 1, m - 1);
    }
  }

  /** The backoff never shrinks as deferrals go on, and is full from the seventh. */
  lemma BackoffGrows(m: nat, n: nat)
    requires 0 < m <= n
    ensures Backoff(1) == 5_000_000_000 && 5_000_000_000 <= Backoff(m) <= Backoff(n) <= 300_000_000_000
    ensures n >= 7 <==> Backoff(n) == 300_000_000_000
    ensures 1 < n < 7 ==> Backoff(n) == 2 * Backoff(n - 1)
  {
    DoubledMonotone(m - 1, n - 1);
    assert Doubled(0) == MIN_BACKOFF;
    assert Doubled(5) == 32 * MIN_BACKOFF && Doubled(6) == 64 * MIN_BACKOFF by {
      assert Doubled(2) == 4 * MIN_BACKOFF && Doubled(4) == 16 * MIN_BACKOFF;
    }
    if n >= 7 {
      DoubledMonotone(6, n - 1);
    } else {
      DoubledMonotone(n - 1, 5);
    }
  }
}
