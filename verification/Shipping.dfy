/** The delivery protocol as steps against its environment: writers replace
    spool files, the sweep deletes them, the backend answers anything
    (internal/shipper/shipper.go). File identities are never reused. */
module Shipping {
  import opened Basics
  import Orders

  const MAX_PAYLOAD_BYTES: nat := 4 * 1024 * 1024

  /** A spool file: its identity, and what reading it would show. */
  datatype File = File(id: nat, modTime: int, size: nat, readable: bool, knownKind: bool)

  type Dir = map<string, File>

  /** The marks on held payloads: an identity per name. */
  type Marks = map<string, nat>

  /** One candidate of a round. */
  datatype Spooled = Spooled(name: string, modTime: int)

  predicate IsTemporary(name: string) {
    |name| >= 4 && name[|name| - 4..] == ".tmp"
  }

  /** What happens, in order. */
  datatype Event =
    | Began
    | Offered(name: string, id: nat)
    | Acknowledged(id: nat)
    | Removed(name: string, id: nat)
    | Held(name: string, id: nat)
    | Deferred
    | Halted

  /** Where the round stands. */
  datatype Phase =
    | Idle
    | Listing(todo: seq<string>, still: Marks, out: seq<Spooled>)
    | Delivering(queue: seq<string>)
    | InFlight(name: string, id: nat, queue: seq<string>)
    | Acking(name: string, id: nat, queue: seq<string>)

  datatype State = State(
    dir: Dir, used: set<nat>,
    held: Marks, failures: nat, halted: bool, phase: Phase,
    trace: seq<Event>)

  const START: State := State(map[], {}, map[], 0, false, Idle, [])

  // ---- the statuses ----

  datatype Verdict = Accept | Refuse | Permanent | Transient

  /** What an answer means for the payload: only 2xx acknowledges, 401 and 403
      refuse the agent, 400 and 413 are final for these bytes, all else is transient. */
  function VerdictOf(status: int): Verdict {
    if 200 <= status < 300 then Accept
    else if status == 401 || status == 403 then Refuse
    else if status == 400 || status == 413 then Permanent
    else Transient
  }

  // ---- the order of a round ----

  /** Oldest first, names breaking ties. */
  predicate Before(a: Spooled, b: Spooled) {
    a.modTime < b.modTime || (a.modTime == b.modTime && Orders.NameLess(a.name, b.name))
  }

  function Inserted(s: seq<Spooled>, x: Spooled): seq<Spooled> {
    if s == [] || Before(x, s[0]) then [x] + s else [s[0]] + Inserted(s[1..], x)
  }

  function Sorted(s: seq<Spooled>): seq<Spooled> {
    if s == [] then [] else Inserted(Sorted(s[..|s| - 1]), Last(s))
  }

  function Names(s: seq<Spooled>): (r: seq<string>)
    ensures |r| == |s| && forall i :: 0 <= i < |s| ==> r[i] == s[i].name
  {
    seq(|s|, i requires 0 <= i < |s| => s[i].name)
  }

  // ---- the steps ----

  datatype Action =
    | Write(name: string, file: File)
    | Publish(temporary: string, name: string)
    | Sweep(name: string)
    | Begin(entries: seq<string>)
    | Examine
    | Sort
    | Read
    | Answer(status: int)
    | NoAnswer(shuttingDown: bool)
    | Settle(removeFails: bool)
    | Cancel

  function Noted(s: State, e: Event): State { s.(trace := s.trace + [e]) }

  /** Looking at one entry of the listing: a temporary or a vanished one is passed
      over, a file still the marked one keeps its mark, any other is a candidate. */
  function Examined(s: State): State
    requires s.phase.Listing? && s.phase.todo != []
  {
    var name, todo, still, out := s.phase.todo[0], s.phase.todo[1..], s.phase.still, s.phase.out;
    if IsTemporary(name) || name !in s.dir then s.(phase := Listing(todo, still, out))
    else if name in s.held && s.held[name] == s.dir[name].id
    then s.(phase := Listing(todo, still[name := s.held[name]], out))
    else s.(phase := Listing(todo, still, out + [Spooled(name, s.dir[name].modTime)]))
  }

  function Hold(s: State, name: string, id: nat, queue: seq<string>): State {
    Noted(s.(held := s.held[name := id], phase := Delivering(queue)), Held(name, id))
  }

  /** Offering the head of the queue: what cannot be read or names no kind is left
      where it is, what is too large is held, anything else is posted. */
  function ReadHead(s: State, name: string, queue: seq<string>): State {
    if name !in s.dir || !s.dir[name].readable then s.(phase := Delivering(queue)) else
    var f := s.dir[name];
    if f.size > MAX_PAYLOAD_BYTES then Hold(s, name, f.id, queue)
    else if !f.knownKind then s.(phase := Delivering(queue))
    else Noted(s.(phase := InFlight(name, f.id, queue)), Offered(name, f.id))
  }

  function DeferredOne(s: State): State {
    Noted(s.(failures := s.failures + 1, phase := Idle), Deferred)
  }

  /** An answered request. */
  function Answered(s: State, status: int): State
    requires s.phase.InFlight?
  {
    var name, id, queue := s.phase.name, s.phase.id, s.phase.queue;
    match VerdictOf(status)
    case Accept => Noted(s.(failures := 0, phase := Acking(name, id, queue)), Acknowledged(id))
    case Refuse => Noted(s.(halted := true, phase := Idle), Halted)
    case Permanent => Hold(s, name, id, queue)
    case Transient => DeferredOne(s)
  }

  /** Removing an acknowledged file, only while its name still holds the identity
      that was sent. */
  function Settled(s: State, removeFails: bool): State
    requires s.phase.Acking?
  {
    var name, id, queue := s.phase.name, s.phase.id, s.phase.queue;
    if name in s.dir && s.dir[name].id == id && !removeFails
    then Noted(s.(dir := s.dir - {name}, phase := Delivering(queue)), Removed(name, id))
    else s.(phase := Delivering(queue))
  }

  ghost predicate Distinct(names: seq<string>) {
    forall i, j :: 0 <= i < j < |names| ==> names[i] != names[j]
  }

  /** What may happen next. Writers and the sweep may act at any time. */
  ghost predicate Enabled(s: State, a: Action) {
    match a
    case Write(name, file) => file.id !in s.used
    case Publish(temporary, name) => temporary in s.dir && IsTemporary(temporary) && !IsTemporary(name)
    case Sweep(name) => name in s.dir
    case Begin(entries) =>
      s.phase.Idle? && !s.halted && Distinct(entries) && (forall n :: n in entries <==> n in s.dir)
    case Examine => s.phase.Listing? && s.phase.todo != []
    case Sort => s.phase.Listing? && s.phase.todo == []
    case Read => s.phase.Delivering? && s.phase.queue != []
    case Answer(_) => s.phase.InFlight?
    case NoAnswer(_) => s.phase.InFlight?
    case Settle(_) => s.phase.Acking?
    case Cancel => s.phase.Delivering?
  }

  function Step(s: State, a: Action): State {
    match a
    case Write(name, file) => s.(dir := s.dir[name := file], used := s.used + {file.id})
    case Publish(temporary, name) =>
      if temporary in s.dir then s.(dir := (s.dir - {temporary})[name := s.dir[temporary]]) else s
    case Sweep(name) => s.(dir := s.dir - {name})
    case Begin(entries) => Noted(s.(phase := Listing(entries, map[], [])), Began)
    case Examine => if s.phase.Listing? && s.phase.todo != [] then Examined(s) else s
    case Sort =>
      if s.phase.Listing?
      then s.(held := s.phase.still, phase := Delivering(Names(Sorted(s.phase.out)))) else s
    case Read =>
      if s.phase.Delivering? && s.phase.queue != []
      then ReadHead(s, s.phase.queue[0], s.phase.queue[1..]) else s
    case Answer(status) => if s.phase.InFlight? then Answered(s, status) else s
    case NoAnswer(shuttingDown) => if shuttingDown then s.(phase := Idle) else DeferredOne(s)
    case Settle(removeFails) => if s.phase.Acking? then Settled(s, removeFails) else s
    case Cancel => s.(phase := Idle)
  }

  function After(actions: seq<Action>): State {
    if actions == [] then START else Step(After(actions[..|actions| - 1]), Last(actions))
  }

  /** The interleavings that can happen. */
  ghost predicate Behaviour(actions: seq<Action>) {
    forall n :: 0 <= n < |actions| ==> Enabled(After(actions[..n]), actions[n])
  }

  // ---- reading a trace ----

  ghost predicate EverHeld(trace: seq<Event>, id: nat) {
    exists i :: 0 <= i < |trace| && trace[i].Held? && trace[i].id == id
  }

  ghost predicate WasAcknowledged(trace: seq<Event>, id: nat) {
    exists i :: 0 <= i < |trace| && trace[i] == Acknowledged(id)
  }

  ghost predicate WasHalted(trace: seq<Event>) {
    exists i :: 0 <= i < |trace| && trace[i].Halted?
  }

  /** A deferral with no round begun since. */
  predicate OpenDeferral(trace: seq<Event>) {
    trace != [] && (Last(trace).Deferred? || (!Last(trace).Began? && OpenDeferral(trace[..|trace| - 1])))
  }

  /** Deferrals since the last acknowledgement. */
  function Streak(trace: seq<Event>): nat {
    if trace == [] || Last(trace).Acknowledged? then 0
    else Streak(trace[..|trace| - 1]) + (if Last(trace).Deferred? then 1 else 0)
  }

  lemma TraceStep(trace: seq<Event>, e: Event)
    ensures forall id :: EverHeld(trace + [e], id) <==> EverHeld(trace, id) || (e.Held? && e.id == id)
    ensures forall id :: WasAcknowledged(trace + [e], id) <==> WasAcknowledged(trace, id) || e == Acknowledged(id)
    ensures WasHalted(trace + [e]) <==> WasHalted(trace) || e.Halted?
    ensures OpenDeferral(trace + [e]) <==> e.Deferred? || (!e.Began? && OpenDeferral(trace))
    ensures Streak(trace + [e]) == if e.Acknowledged? then 0 else Streak(trace) + if e.Deferred? then 1 else 0
  {
    var more := trace + [e];
    assert forall i :: 0 <= i < |trace| ==> more[i] == trace[i];
    assert more[|trace|] == e && more[..|more| - 1] == trace;
  }

  // ---- what every trace keeps ----

  /** Only an identity answered 2xx is removed. */
  ghost predicate RemovedAcknowledged(trace: seq<Event>) {
    forall j :: 0 <= j < |trace| && trace[j].Removed? ==> WasAcknowledged(trace[..j], trace[j].id)
  }

  /** An identity once held is never offered again. */
  ghost predicate HeldNeverOffered(trace: seq<Event>) {
    forall j :: 0 <= j < |trace| && trace[j].Offered? ==> !EverHeld(trace[..j], trace[j].id)
  }

  /** Nothing is offered after the agent's identity was refused. */
  ghost predicate SilentAfterHalt(trace: seq<Event>) {
    forall j :: 0 <= j < |trace| && trace[j].Offered? ==> !WasHalted(trace[..j])
  }

  /** No round offers anything past a deferred payload. */
  ghost predicate DeferralEndsRound(trace: seq<Event>) {
    forall j :: 0 <= j < |trace| && trace[j].Offered? ==> !OpenDeferral(trace[..j])
  }

  ghost predicate Safe(trace: seq<Event>) {
    RemovedAcknowledged(trace) && HeldNeverOffered(trace) && SilentAfterHalt(trace) && DeferralEndsRound(trace)
  }

  lemma SafeStep(trace: seq<Event>, e: Event)
    requires Safe(trace)
    requires e.Removed? ==> WasAcknowledged(trace, e.id)
    requires e.Offered? ==> !EverHeld(trace, e.id) && !WasHalted(trace) && !OpenDeferral(trace)
    ensures Safe(trace + [e])
  {
    hide WasAcknowledged, EverHeld, WasHalted, OpenDeferral;
    var more := trace + [e];
    forall j | 0 <= j < |more|
      ensures more[..j] == if j < |trace| then trace[..j] else trace
    {
    }
    assert forall j :: 0 <= j < |trace| ==> more[j] == trace[j];
  }

  // ---- the invariant ----

  ghost predicate Unique(s: State) {
    && (forall n :: n in s.dir ==> s.dir[n].id in s.used)
    && (forall a, b :: a in s.dir && b in s.dir && a != b ==> s.dir[a].id != s.dir[b].id)
    && (forall id :: EverHeld(s.trace, id) ==> id in s.used)
  }

  /** A file in the spool whose identity was held is still marked under its name, and only
      identities that were held are marked. */
  ghost predicate Marked(s: State) {
    && (forall n :: n in s.dir && EverHeld(s.trace, s.dir[n].id) ==>
          !IsTemporary(n) && n in s.held && s.held[n] == s.dir[n].id)
    && (forall n :: n in s.held ==> EverHeld(s.trace, s.held[n]))
  }

  /** A name that may be offered. */
  ghost predicate Clear(s: State, name: string) {
    !IsTemporary(name) && (name in s.dir ==> !EverHeld(s.trace, s.dir[name].id))
  }

  ghost predicate QueueClear(s: State, queue: seq<string>) {
    Distinct(queue) && forall i :: 0 <= i < |queue| ==> Clear(s, queue[i])
  }

  /** While listing, every mark that matters is still ahead or already kept. */
  ghost predicate ListingOk(s: State, todo: seq<string>, still: Marks, out: seq<Spooled>) {
    && Distinct(todo)
    && QueueClear(s, Names(out))
    && (forall i :: 0 <= i < |out| ==> out[i].name !in todo)
    && (forall n :: n in s.dir && EverHeld(s.trace, s.dir[n].id) ==>
        n in todo || (n in still && still[n] == s.dir[n].id))
    && (forall n :: n in still ==> EverHeld(s.trace, still[n]))
  }

  /** The request in flight carries an identity under no other name, and not held. */
  ghost predicate SentClear(s: State, name: string, id: nat, queue: seq<string>) {
    && id in s.used && !EverHeld(s.trace, id)
    && name !in queue && Clear(s, name) && QueueClear(s, queue)
    && (forall n :: n in s.dir && s.dir[n].id == id ==> n == name)
  }

  ghost predicate PhaseOk(s: State) {
    match s.phase
    case Idle => true
    case Listing(todo, still, out) => ListingOk(s, todo, still, out)
    case Delivering(queue) => QueueClear(s, queue)
    case InFlight(name, id, queue) => SentClear(s, name, id, queue)
    case Acking(name, id, queue) => SentClear(s, name, id, queue) && WasAcknowledged(s.trace, id)
  }

  ghost predicate Inv(s: State) {
    && Unique(s) && Marked(s) && PhaseOk(s)
    && (s.halted ==> s.phase.Idle?)
    && (WasHalted(s.trace) <==> s.halted)
    && (OpenDeferral(s.trace) ==> s.phase.Idle?)
    && s.failures == Streak(s.trace)
    && Safe(s.trace)
  }

  // ---- every step keeps the invariant ----

  lemma WriteInv(s: State, name: string, file: File)
    requires Inv(s) && file.id !in s.used
    ensures Inv(Step(s, Write(name, file)))
  {
    hide WasHalted, OpenDeferral, WasAcknowledged, Streak, Safe, EverHeld, IsTemporary, Sorted;
    assert !EverHeld(s.trace, file.id);
  }

  lemma PublishInv(s: State, temporary: string, name: string)
    requires Inv(s) && Enabled(s, Publish(temporary, name))
    ensures Inv(Step(s, Publish(temporary, name)))
  {
    hide WasHalted, OpenDeferral, WasAcknowledged, Streak, Safe, EverHeld, IsTemporary, Sorted;
  }

  lemma SweepInv(s: State, name: string)
    requires Inv(s)
    ensures Inv(Step(s, Sweep(name)))
  {
    hide WasHalted, OpenDeferral, WasAcknowledged, Streak, Safe, EverHeld, IsTemporary, Sorted;
  }

  lemma BeginInv(s: State, entries: seq<string>)
    requires Inv(s) && Enabled(s, Begin(entries))
    ensures Inv(Step(s, Begin(entries)))
  {
    hide WasHalted, OpenDeferral, WasAcknowledged, Streak, Safe, EverHeld, IsTemporary, Sorted;
    TraceStep(s.trace, Began);
    SafeStep(s.trace, Began);
  }

  lemma ListedClear(s: State, out: seq<Spooled>, name: string)
    requires QueueClear(s, Names(out)) && forall i :: 0 <= i < |out| ==> out[i].name != name
    ensures forall modTime :: Clear(s, name) ==> QueueClear(s, Names(out + [Spooled(name, modTime)]))
  {
    hide Clear;
    forall modTime | Clear(s, name)
      ensures QueueClear(s, Names(out + [Spooled(name, modTime)]))
    {
      assert Names(out + [Spooled(name, modTime)]) == Names(out) + [name];
    }
  }

  lemma DistinctTail(names: seq<string>)
    requires Distinct(names) && names != []
    ensures Distinct(names[1..]) && names[0] !in names[1..]
    ensures forall n :: n in names <==> n == names[0] || n in names[1..]
  {
    assert names == [names[0]] + names[1..];
  }

  /** One entry looked at keeps the listing's promise. */
  lemma ExaminedOk(s: State)
    requires s.phase.Listing? && s.phase.todo != [] && Marked(s)
    requires ListingOk(s, s.phase.todo, s.phase.still, s.phase.out)
    ensures var p := Examined(s).phase; p.Listing? && ListingOk(s, p.todo, p.still, p.out)
  {
    hide EverHeld, IsTemporary, Names, QueueClear, Distinct;
    var p := Examined(s).phase;
    var name := s.phase.todo[0];
    DistinctTail(s.phase.todo);
    ListedClear(s, s.phase.out, name);
  }

  lemma ListingInv(s: State, todo: seq<string>, still: Marks, out: seq<Spooled>)
    requires Inv(s) && s.phase.Listing? && ListingOk(s, todo, still, out)
    ensures Inv(s.(phase := Listing(todo, still, out)))
  {
    hide WasHalted, OpenDeferral, Streak, Safe, EverHeld, IsTemporary, Names;
  }

  lemma ExamineInv(s: State)
    requires Inv(s) && Enabled(s, Examine)
    ensures Inv(Step(s, Examine))
  {
    hide Unique, Marked, ListingOk, WasHalted, OpenDeferral, Streak, Safe, IsTemporary;
    ExaminedOk(s);
    var p := Examined(s).phase;
    ListingInv(s, p.todo, p.still, p.out);
  }

  lemma {:induction false} InsertedMembers(s: seq<Spooled>, x: Spooled)
    ensures multiset(Inserted(s, x)) == multiset(s + [x])
  {
    hide Before;
    if s == [] || Before(x, s[0]) {
    } else {
      InsertedMembers(s[1..], x);
      assert s == [s[0]] + s[1..];
    }
  }

  lemma {:induction false} SortedMembers(s: seq<Spooled>)
    ensures multiset(Sorted(s)) == multiset(s)
  {
    hide Inserted;
    if s != [] {
      SortedMembers(s[..|s| - 1]);
      InsertedMembers(Sorted(s[..|s| - 1]), Last(s));
      assert s == s[..|s| - 1] + [Last(s)];
    }
  }

  /** Names all different. */
  ghost predicate Apart(s: seq<Spooled>) {
    forall i, j :: 0 <= i < j < |s| ==> s[i].name != s[j].name
  }

  /** Strictly in the order of a round. */
  ghost predicate InOrder(s: seq<Spooled>) {
    forall i, j :: 0 <= i < j < |s| ==> Before(s[i], s[j])
  }

  lemma BeforeTransitive(a: Spooled, b: Spooled, c: Spooled)
    requires Before(a, b) && Before(b, c)
    ensures Before(a, c)
  {
    if a.modTime == b.modTime == c.modTime {
      Orders.NameLessTransitive(a.name, b.name, c.name);
    }
  }

  lemma {:induction false} InsertedInOrder(s: seq<Spooled>, x: Spooled)
    requires Apart(s) && InOrder(s) && forall i :: 0 <= i < |s| ==> s[i].name != x.name
    ensures Apart(Inserted(s, x)) && InOrder(Inserted(s, x))
  {
    hide Before;
    if s == [] {
    } else if Before(x, s[0]) {
      forall j | 0 <= j < |s|
        ensures Before(x, s[j])
      {
        if j > 0 {
          BeforeTransitive(x, s[0], s[j]);
        }
      }
    } else {
      BeforeTotal(x, s[0]);
      var rest := Inserted(s[1..], x);
      InsertedInOrder(s[1..], x);
      InsertedMembers(s[1..], x);
      forall j | 0 <= j < |rest|
        ensures Before(s[0], rest[j]) && s[0].name != rest[j].name
      {
        assert rest[j] in multiset(rest);
        assert rest[j] in s[1..] + [x];
      }
    }
  }

  lemma BeforeTotal(a: Spooled, b: Spooled)
    requires a.name != b.name
    ensures Before(a, b) || Before(b, a)
  {
    Orders.NameLessTotal(a.name, b.name);
  }

  /** A round's queue is the candidates found, each once, oldest first. */
  lemma {:induction false} QueueOldestFirst(s: seq<Spooled>)
    requires Apart(s)
    ensures Apart(Sorted(s)) && InOrder(Sorted(s)) && multiset(Sorted(s)) == multiset(s)
  {
    hide Before, Inserted;
    if s != [] {
      var init := s[..|s| - 1];
      QueueOldestFirst(init);
      forall i | 0 <= i < |Sorted(init)|
        ensures Sorted(init)[i].name != Last(s).name
      {
        assert Sorted(init)[i] in multiset(Sorted(init));
        assert Sorted(init)[i] in init;
      }
      InsertedInOrder(Sorted(init), Last(s));
      SortedMembers(s);
    }
  }

  lemma SortInv(s: State)
    requires Inv(s) && Enabled(s, Sort)
    ensures Inv(Step(s, Sort))
  {
    hide WasHalted, OpenDeferral, WasAcknowledged, Streak, Safe, EverHeld, IsTemporary, Sorted, InOrder;
    var out := s.phase.out;
    forall i, j | 0 <= i < j < |out|
      ensures out[i].name != out[j].name
    {
      assert Names(out)[i] != Names(out)[j];
    }
    QueueOldestFirst(out);
    forall i | 0 <= i < |Sorted(out)|
      ensures Clear(s, Sorted(out)[i].name)
    {
      assert Sorted(out)[i] in multiset(out);
      var k :| 0 <= k < |out| && out[k] == Sorted(out)[i];
      assert Clear(s, Names(out)[k]);
    }
  }

  /** Marking the payload just read, or just refused for good. */
  lemma HoldInv(s: State, name: string, id: nat, queue: seq<string>)
    requires Inv(s) && !s.phase.Idle? && SentClear(s, name, id, queue)
    ensures Inv(Hold(s, name, id, queue))
  {
    hide WasHalted, OpenDeferral, WasAcknowledged, Streak, Safe, EverHeld, IsTemporary, Sorted;
    TraceStep(s.trace, Held(name, id));
    SafeStep(s.trace, Held(name, id));
  }

  lemma OfferInv(s: State, name: string, queue: seq<string>)
    requires Inv(s) && !s.phase.Idle? && name in s.dir && SentClear(s, name, s.dir[name].id, queue)
    ensures Inv(Noted(s.(phase := InFlight(name, s.dir[name].id, queue)), Offered(name, s.dir[name].id)))
  {
    hide WasHalted, OpenDeferral, WasAcknowledged, Streak, Safe, EverHeld, IsTemporary, Sorted;
    TraceStep(s.trace, Offered(name, s.dir[name].id));
    SafeStep(s.trace, Offered(name, s.dir[name].id));
  }

  lemma ReadInv(s: State)
    requires Inv(s) && Enabled(s, Read)
    ensures Inv(Step(s, Read))
  {
    hide WasHalted, OpenDeferral, WasAcknowledged, Streak, Safe, EverHeld, IsTemporary, Sorted, Hold, Noted;
    var name, queue := s.phase.queue[0], s.phase.queue[1..];
    assert QueueClear(s, queue);
    assert Clear(s, name) && name !in queue;
    if name in s.dir {
      assert SentClear(s, name, s.dir[name].id, queue);
      HoldInv(s, name, s.dir[name].id, queue);
      OfferInv(s, name, queue);
    }
  }

  lemma AnswerInv(s: State, status: int)
    requires Inv(s) && s.phase.InFlight?
    ensures Inv(Step(s, Answer(status)))
  {
    hide WasHalted, OpenDeferral, WasAcknowledged, Streak, Safe, EverHeld, IsTemporary, Sorted, Hold;
    var e := match VerdictOf(status)
      case Accept => Acknowledged(s.phase.id)
      case Refuse => Halted
      case Permanent => Held(s.phase.name, s.phase.id)
      case Transient => Deferred;
    HoldInv(s, s.phase.name, s.phase.id, s.phase.queue);
    TraceStep(s.trace, e);
    SafeStep(s.trace, e);
  }

  lemma NoAnswerInv(s: State, shuttingDown: bool)
    requires Inv(s) && s.phase.InFlight?
    ensures Inv(Step(s, NoAnswer(shuttingDown)))
  {
    hide WasHalted, OpenDeferral, WasAcknowledged, Streak, Safe, EverHeld, IsTemporary, Sorted;
    TraceStep(s.trace, Deferred);
    SafeStep(s.trace, Deferred);
  }

  lemma SettleInv(s: State, removeFails: bool)
    requires Inv(s) && s.phase.Acking?
    ensures Inv(Step(s, Settle(removeFails)))
  {
    hide WasHalted, OpenDeferral, WasAcknowledged, Streak, Safe, EverHeld, IsTemporary, Sorted;
    var e := Removed(s.phase.name, s.phase.id);
    TraceStep(s.trace, e);
    SafeStep(s.trace, e);
  }

  lemma StepInv(s: State, a: Action)
    requires Inv(s) && Enabled(s, a)
    ensures Inv(Step(s, a))
  {
    hide Unique, Marked, PhaseOk, WasHalted, OpenDeferral, Streak, Safe;
    match a
    case Write(name, file) => WriteInv(s, name, file);
    case Publish(temporary, name) => PublishInv(s, temporary, name);
    case Sweep(name) => SweepInv(s, name);
    case Begin(entries) => BeginInv(s, entries);
    case Examine => ExamineInv(s);
    case Sort => SortInv(s);
    case Read => ReadInv(s);
    case Answer(status) => AnswerInv(s, status);
    case NoAnswer(shuttingDown) => NoAnswerInv(s, shuttingDown);
    case Settle(removeFails) => SettleInv(s, removeFails);
    case Cancel => CancelInv(s);
  }

  lemma CancelInv(s: State)
    requires Inv(s)
    ensures Inv(Step(s, Cancel))
  {
    hide WasHalted, OpenDeferral, Streak, Safe, EverHeld;
  }

  lemma {:induction false} EveryStateInv(actions: seq<Action>)
    requires Behaviour(actions)
    ensures Inv(After(actions))
  {
    hide Inv, Enabled, Step;
    if actions == [] {
      StartInv();
    } else {
      BehaviourPast(actions);
      EveryStateInv(actions[..|actions| - 1]);
      StepInv(After(actions[..|actions| - 1]), Last(actions));
    }
  }

  lemma StartInv()
    ensures Inv(START)
  {
  }

  /** Over every interleaving with writers, sweeps and arbitrary answers: only an
      identity answered 2xx is removed, a held identity is never offered again,
      nothing is offered after a refused identity, and no round goes past a
      deferred payload. The failure count the backoff grows on is the number of
      deferrals since the last acknowledgement. */
  lemma ShipperSafe(actions: seq<Action>)
    requires Behaviour(actions)
    ensures RemovedAcknowledged(After(actions).trace)
    ensures HeldNeverOffered(After(actions).trace)
    ensures SilentAfterHalt(After(actions).trace)
    ensures DeferralEndsRound(After(actions).trace)
    ensures After(actions).failures == Streak(After(actions).trace)
  {
    hide Unique, Marked, PhaseOk, RemovedAcknowledged, HeldNeverOffered, SilentAfterHalt, DeferralEndsRound;
    EveryStateInv(actions);
  }

  // ---- the same over actions, not traces ----

  /** An answer that is final for the bytes sent. */
  predicate FinalAnswer(a: Action) { a.Answer? && (a.status == 400 || a.status == 413) }

  /** A step notes nothing or one event, and an acknowledgement only for a 2xx. */
  lemma StepNotes(s: State, a: Action)
    ensures var t := Step(s, a).trace;
      t == s.trace
      || (t == s.trace + [Last(t)]
          && (Last(t).Acknowledged? ==>
            s.phase.InFlight? && s.phase.id == Last(t).id && a.Answer? && 200 <= a.status < 300))
  {
    hide Sorted, IsTemporary, Names;
    match a
    case Read =>
      if s.phase.Delivering? && s.phase.queue != [] {
        var t := ReadHead(s, s.phase.queue[0], s.phase.queue[1..]);
        assert t.trace == s.trace || t.trace == s.trace + [Last(t.trace)];
      }
    case Answer(status) =>
      if s.phase.InFlight? {
        var t := Answered(s, status);
        assert t.trace == s.trace + [Last(t.trace)];
      }
    case _ =>
  }

  lemma AfterMore(actions: seq<Action>, a: Action)
    ensures After(actions + [a]) == Step(After(actions), a)
  {
    hide Step;
    assert (actions + [a])[..|actions + [a]| - 1] == actions;
  }

  lemma {:induction false} TraceGrows(actions: seq<Action>, more: seq<Action>)
    ensures After(actions).trace <= After(actions + more).trace
  {
    hide Step, After;
    if more == [] {
      assert actions + more == actions;
    } else {
      var init := more[..|more| - 1];
      TraceGrows(actions, init);
      assert actions + more == (actions + init) + [Last(more)];
      AfterMore(actions + init, Last(more));
      StepNotes(After(actions + init), Last(more));
    }
  }

  /** A payload answered 400 or 413 is in no later request, whatever happens. */
  lemma NeverPostedAgain(actions: seq<Action>, final: Action, more: seq<Action>)
    requires Behaviour(actions + [final] + more)
    requires After(actions).phase.InFlight? && FinalAnswer(final)
    requires After(actions + [final] + more).phase.InFlight?
    ensures After(actions + [final] + more).phase.id != After(actions).phase.id
  {
    hide EverHeld, IsTemporary, Safe, Unique, Marked, WasHalted, OpenDeferral, Streak;
    var id := After(actions).phase.id;
    assert (actions + [final])[..|actions|] == actions;
    TraceStep(After(actions).trace, Held(After(actions).phase.name, id));
    assert EverHeld(After(actions + [final]).trace, id);
    TraceGrows(actions + [final], more);
    EverHeldLasts(After(actions + [final]).trace, After(actions + [final] + more).trace, id);
    EveryStateInv(actions + [final] + more);
  }

  lemma EverHeldLasts(short: seq<Event>, long: seq<Event>, id: nat)
    requires short <= long && EverHeld(short, id)
    ensures EverHeld(long, id)
  {
    var i :| 0 <= i < |short| && short[i].Held? && short[i].id == id;
    assert long[i] == short[i];
  }

  lemma BehaviourPast(actions: seq<Action>)
    requires Behaviour(actions) && actions != []
    ensures Behaviour(actions[..|actions| - 1])
    ensures Enabled(After(actions[..|actions| - 1]), Last(actions))
    ensures After(actions) == Step(After(actions[..|actions| - 1]), Last(actions))
  {
    hide Enabled, Step;
    var past := actions[..|actions| - 1];
    forall n | 0 <= n < |past|
      ensures Enabled(After(past[..n]), past[n])
    {
      assert past[..n] == actions[..n];
    }
    assert Enabled(After(actions[..|past|]), actions[|past|]);
  }

  lemma HaltedStep(s: State, a: Action)
    requires Enabled(s, a) && s.halted && s.phase.Idle?
    ensures Step(s, a).halted && Step(s, a).phase.Idle?
  {
  }

  /** After a 401 or 403 no request is ever in flight again. */
  lemma {:induction false} SilentForever(actions: seq<Action>, status: int, more: seq<Action>)
    requires Behaviour(actions + [Answer(status)] + more)
    requires After(actions).phase.InFlight? && (status == 401 || status == 403)
    ensures After(actions + [Answer(status)] + more).phase.Idle?
    ensures After(actions + [Answer(status)] + more).halted
  {
    hide Behaviour, Enabled;
    var whole := actions + [Answer(status)] + more;
    BehaviourPast(whole);
    if more == [] {
      assert whole == actions + [Answer(status)];
      assert whole[..|whole| - 1] == actions;
    } else {
      hide Step;
      var init := more[..|more| - 1];
      assert whole[..|whole| - 1] == actions + [Answer(status)] + init;
      SilentForever(actions, status, init);
      HaltedStep(After(actions + [Answer(status)] + init), Last(whole));
    }
  }

  /** A request carrying this identity was answered 2xx. */
  ghost predicate PostedAndAccepted(actions: seq<Action>, id: nat) {
    exists k :: 0 <= k < |actions| && AcceptedAt(actions, k, id)
  }

  ghost predicate AcceptedAt(actions: seq<Action>, k: nat, id: nat)
    requires k < |actions|
  {
    var s := After(actions[..k]);
    s.phase.InFlight? && s.phase.id == id && actions[k].Answer? && 200 <= actions[k].status < 300
  }

  lemma AcknowledgedStep(s: State, a: Action, id: nat)
    requires Enabled(s, a) && WasAcknowledged(Step(s, a).trace, id)
    ensures WasAcknowledged(s.trace, id)
      || (s.phase.InFlight? && s.phase.id == id && a.Answer? && 200 <= a.status < 300)
  {
    hide WasAcknowledged, Step, Enabled;
    var t := Step(s, a);
    StepNotes(s, a);
    if t.trace != s.trace {
      TraceStep(s.trace, Last(t.trace));
    }
  }

  /** An acknowledgement in the trace is a request that was answered 2xx. */
  lemma {:induction false} AcknowledgedWasAccepted(actions: seq<Action>, id: nat)
    requires Behaviour(actions) && WasAcknowledged(After(actions).trace, id)
    ensures PostedAndAccepted(actions, id)
  {
    hide WasAcknowledged, Behaviour, Enabled, Step;
    if actions == [] {
      NothingAcknowledged(id);
    } else {
      var past := actions[..|actions| - 1];
      BehaviourPast(actions);
      AcknowledgedStep(After(past), Last(actions), id);
      if WasAcknowledged(After(past).trace, id) {
        AcknowledgedWasAccepted(past, id);
        var k :| 0 <= k < |past| && AcceptedAt(past, k, id);
        assert past[..k] == actions[..k];
        assert AcceptedAt(actions, k, id);
      } else {
        assert AcceptedAt(actions, |past|, id);
      }
    }
  }

  lemma NothingAcknowledged(id: nat)
    ensures !WasAcknowledged(START.trace, id)
  {
  }

  predicate OfEnvironment(a: Action) { a.Write? || a.Publish? || a.Sweep? }

  lemma OnlySettleRemoves(s: State, a: Action)
    requires !OfEnvironment(a) && !a.Settle?
    ensures Step(s, a).dir == s.dir
  {
  }

  /** The shipper never loses a payload: its own steps leave every file as it is,
      except that they may remove one whose own identity was posted and answered 2xx. */
  lemma PayloadsKept(actions: seq<Action>, a: Action, name: string)
    requires Behaviour(actions) && Enabled(After(actions), a) && !OfEnvironment(a)
    requires name in After(actions).dir
    ensures var s, t := After(actions), Step(After(actions), a);
      (name in t.dir && t.dir[name] == s.dir[name])
      || (name !in t.dir && a.Settle? && PostedAndAccepted(actions, s.dir[name].id))
  {
    hide WasAcknowledged, PostedAndAccepted, SentClear, Safe, Unique, Marked, Sorted, IsTemporary, Behaviour;
    var s := After(actions);
    EveryStateInv(actions);
    if a.Settle? {
      AcknowledgedWasAccepted(actions, s.phase.id);
    } else {
      OnlySettleRemoves(s, a);
    }
  }

  // ---- a round nobody disturbs ----

  predicate Deliverable(f: File) {
    f.readable && f.knownKind && f.size <= MAX_PAYLOAD_BYTES
  }

  /** The actions that take the head of the queue through when it is accepted. */
  function HeadActions(s: State): seq<Action>
    requires s.phase.Delivering? && s.phase.queue != []
  {
    if Step(s, Read).phase.Delivering? then [Read] else [Read, Answer(200), Settle(false)]
  }

  /** Delivering the queue with every answer 2xx and nobody else at work. */
  function Undisturbed(s: State): seq<Action>
    requires s.phase.Delivering?
    decreases |s.phase.queue|
  {
    if s.phase.queue == [] then [] else
    HeadPassed(s);
    HeadActions(s) + Undisturbed(From(s, HeadActions(s)))
  }

  function From(s: State, actions: seq<Action>): State
    decreases |actions|
  {
    if actions == [] then s else From(Step(s, actions[0]), actions[1..])
  }

  lemma {:induction false} FromConcat(s: State, first: seq<Action>, more: seq<Action>)
    ensures From(s, first + more) == From(From(s, first), more)
    decreases |first|
  {
    hide Step;
    if first == [] {
      assert first + more == more;
    } else {
      FromConcat(Step(s, first[0]), first[1..], more);
      assert (first + more)[1..] == first[1..] + more;
    }
  }

  lemma FromThree(s: State, a: Action, b: Action, c: Action)
    ensures From(s, [a, b, c]) == Step(Step(Step(s, a), b), c)
    ensures From(s, [a]) == Step(s, a)
  {
    hide Step;
    assert [a, b, c][1..] == [b, c] && [b, c][1..] == [c] && [c][1..] == [];
    assert From(s, [a, b, c]) == From(Step(s, a), [b, c]);
    assert From(Step(s, a), [b, c]) == From(Step(Step(s, a), b), [c]);
  }

  /** Everything deliverable of these names is gone, everything else as it was. */
  ghost predicate Drained(was: Dir, queue: seq<string>, now: Dir) {
    forall n: string ::
      if n in queue && n in was && Deliverable(was[n]) then n !in now
      else (n in now <==> n in was) && (n in was && n in now ==> now[n] == was[n])
  }

  lemma AcceptedHead(s: State)
    requires s.phase.InFlight? && s.phase.name in s.dir && s.dir[s.phase.name].id == s.phase.id
    ensures var t := Step(Step(s, Answer(200)), Settle(false));
      t.phase == Delivering(s.phase.queue) && t.dir == s.dir - {s.phase.name}
  {
    assert VerdictOf(200).Accept?;
    assert Step(s, Answer(200)) == Answered(s, 200);
  }

  lemma HeadPassed(s: State)
    requires s.phase.Delivering? && s.phase.queue != []
    ensures From(s, HeadActions(s)).phase == Delivering(s.phase.queue[1..])
    ensures Drained(s.dir, [s.phase.queue[0]], From(s, HeadActions(s)).dir)
  {
    hide From, Answered, Settled;
    var name := s.phase.queue[0];
    var t := Step(s, Read);
    assert t == ReadHead(s, name, s.phase.queue[1..]);
    assert t.dir == s.dir;
    FromThree(s, Read, Answer(200), Settle(false));
    hide Step;
    if name in s.dir && Deliverable(s.dir[name]) {
      assert t.phase == InFlight(name, s.dir[name].id, s.phase.queue[1..]);
      AcceptedHead(t);
    } else {
      assert t.phase == Delivering(s.phase.queue[1..]);
    }
  }

  lemma DrainedMore(a: Dir, name: string, b: Dir, queue: seq<string>, c: Dir)
    requires Drained(a, [name], b) && Drained(b, queue, c) && name !in queue
    ensures Drained(a, [name] + queue, c)
  {
    hide Deliverable;
  }

  /** A round whose every answer is 2xx, with nobody else at work, empties the
      spool of everything deliverable it listed and touches nothing else. */
  lemma {:induction false} QuietRoundDrains(s: State)
    requires s.phase.Delivering? && Distinct(s.phase.queue)
    ensures From(s, Undisturbed(s)).phase == Delivering([])
    ensures Drained(s.dir, s.phase.queue, From(s, Undisturbed(s)).dir)
    decreases |s.phase.queue|
  {
    var queue := s.phase.queue;
    if queue != [] {
      hide From, Drained, Step, HeadActions;
      assert queue == [queue[0]] + queue[1..];
      assert Distinct(queue[1..]) && queue[0] !in queue[1..];
      HeadPassed(s);
      var u := From(s, HeadActions(s));
      FromConcat(s, HeadActions(s), Undisturbed(u));
      QuietRoundDrains(u);
      DrainedMore(s.dir, queue[0], u.dir, queue[1..], From(u, Undisturbed(u)).dir);
    }
  }

  /** A name a round offers: a complete payload this process does not hold. */
  predicate Eligible(dir: Dir, held: Marks, name: string) {
    name in dir && !IsTemporary(name) && !(name in held && held[name] == dir[name].id)
  }

  ghost predicate Lists(out: seq<Spooled>, name: string) {
    exists i :: 0 <= i < |out| && out[i].name == name
  }

  function Examining(n: nat): seq<Action> {
    seq(n, _ => Examine)
  }

  lemma ExaminedLists(s: State)
    requires s.phase.Listing? && s.phase.todo != []
    ensures var t, name := Examined(s), s.phase.todo[0];
      && t.phase.Listing? && t.phase.todo == s.phase.todo[1..]
      && t == s.(phase := t.phase)
      && forall n :: Lists(t.phase.out, n) <==>
        Lists(s.phase.out, n) || (n == name && Eligible(s.dir, s.held, n))
  {
    hide IsTemporary;
    var t := Examined(s);
    assert forall i :: 0 <= i < |s.phase.out| ==> t.phase.out[i] == s.phase.out[i];
    if |t.phase.out| > |s.phase.out| {
      assert t.phase.out[|s.phase.out|].name == s.phase.todo[0];
    }
  }

  /** An undisturbed listing finds exactly the eligible names. */
  lemma {:induction false} QuietListing(s: State)
    requires Inv(s) && s.phase.Listing?
    ensures var t := From(s, Examining(|s.phase.todo|));
      && Inv(t) && t.phase.Listing? && t.phase.todo == []
      && t == s.(phase := t.phase)
      && forall n :: Lists(t.phase.out, n) <==>
        Lists(s.phase.out, n) || (n in s.phase.todo && Eligible(s.dir, s.held, n))
    decreases |s.phase.todo|
  {
    hide Inv, Lists, Eligible, Examined;
    var todo := s.phase.todo;
    if todo != [] {
      var t := Examined(s);
      ExaminedLists(s);
      ExamineInv(s);
      QuietListing(t);
      assert Examining(|todo|)[1..] == Examining(|todo| - 1);
      assert From(s, Examining(|todo|)) == From(t, Examining(|todo| - 1));
      assert forall n :: n in todo <==> n == todo[0] || n in todo[1..];
    }
  }

  lemma SortedLists(s: State)
    requires Inv(s) && s.phase.Listing? && s.phase.todo == []
    ensures var t := Step(s, Sort);
      t.phase.Delivering? && t.dir == s.dir && Distinct(t.phase.queue)
      && forall n :: n in t.phase.queue <==> Lists(s.phase.out, n)
  {
    hide Sorted, WasHalted, OpenDeferral, Streak, Safe, EverHeld, Unique, Marked;
    SortInv(s);
    var out := s.phase.out;
    SortedMembers(out);
    forall n
      ensures n in Names(Sorted(out)) <==> Lists(out, n)
    {
      if n in Names(Sorted(out)) {
        var i :| 0 <= i < |Sorted(out)| && Names(Sorted(out))[i] == n;
        assert Sorted(out)[i] in multiset(out);
      }
      if Lists(out, n) {
        var i :| 0 <= i < |out| && out[i].name == n;
        assert out[i] in multiset(Sorted(out));
        var j :| 0 <= j < |Sorted(out)| && Sorted(out)[j] == out[i];
        assert Names(Sorted(out))[j] == n;
      }
    }
  }

  function ListingActions(entries: seq<string>): seq<Action> {
    [Begin(entries)] + Examining(|entries|) + [Sort]
  }

  /** A round with every answer 2xx and nobody else at work. */
  function QuietActions(s: State, entries: seq<string>): seq<Action> {
    var listed := From(s, ListingActions(entries));
    ListingActions(entries) + if listed.phase.Delivering? then Undisturbed(listed) else []
  }

  /** One whole such round, from any reachable state: what is deliverable and not
      held leaves the spool, everything else stays. */
  lemma QuietRound(s: State, entries: seq<string>)
    requires Inv(s) && Enabled(s, Begin(entries))
    ensures var t := From(s, QuietActions(s, entries));
      && t.phase == Delivering([])
      && forall n :: if Eligible(s.dir, s.held, n) && Deliverable(s.dir[n]) then n !in t.dir
        else (n in t.dir <==> n in s.dir) && (n in t.dir && n in s.dir ==> t.dir[n] == s.dir[n])
  {
    hide Inv, From, Deliverable, Lists, Undisturbed;
    BeginInv(s, entries);
    var a := Step(s, Begin(entries));
    assert a.dir == s.dir && a.held == s.held;
    hide Step;
    QuietListing(a);
    var b := From(a, Examining(|entries|));
    SortedLists(b);
    var c := Step(b, Sort);
    QuietRoundDrains(c);
    FromOne(s, Begin(entries));
    FromOne(b, Sort);
    FromConcat(s, [Begin(entries)], Examining(|entries|));
    FromConcat(s, [Begin(entries)] + Examining(|entries|), [Sort]);
    FromConcat(s, ListingActions(entries), Undisturbed(c));
    NothingListed();
  }

  lemma FromOne(s: State, a: Action)
    ensures From(s, [a]) == Step(s, a)
  {
    hide Step;
    assert [a][1..] == [];
  }

  lemma NothingListed()
    ensures forall n :: !Lists([], n)
  {
  }

  // ---- every other answer ----

  /** An answer that settles nothing: not 2xx, not about the agent, not about the bytes. */
  predicate Unsettled(status: int) {
    !(200 <= status < 300) && status != 400 && status != 401 && status != 403 && status != 413
  }

  lemma UnsettledStep(s: State, status: int)
    requires s.phase.InFlight? && Unsettled(status)
    ensures Step(s, Answer(status)) == s.(failures := s.failures + 1, phase := Idle, trace := s.trace + [Deferred])
  {
  }

  /** Any other status is transient: it adds one to the failures and ends the round, and
      leaves the spool, the marks and the agent's standing as they were. While a file stays
      under its name it is no marked one, so the next round, begun undisturbed, has the name
      in its queue. */
  lemma TransientAnswer(actions: seq<Action>, status: int, entries: seq<string>)
    requires Behaviour(actions) && After(actions).phase.InFlight? && Unsettled(status)
    ensures var s, t := After(actions), Step(After(actions), Answer(status));
      && t == s.(failures := s.failures + 1, phase := Idle, trace := s.trace + [Deferred])
      && (s.phase.name in s.dir && Enabled(t, Begin(entries)) ==>
            var queued := From(t, ListingActions(entries)).phase;
            queued.Delivering? && s.phase.name in queued.queue)
  {
    hide Step, From, Enabled, Unique, Marked, Safe, WasHalted, OpenDeferral, Streak, Behaviour, Eligible, Clear;
    var s, t := After(actions), Step(After(actions), Answer(status));
    EveryStateInv(actions);
    UnsettledStep(s, status);
    AnswerInv(s, status);
    if s.phase.name in s.dir && Enabled(t, Begin(entries)) {
      ClearUnmarked(s, s.phase.name);
      Requeued(t, entries, s.phase.name);
    }
  }

  /** Marks name held identities, so a name that may be offered is not a marked one. */
  lemma ClearUnmarked(s: State, name: string)
    requires Inv(s) && Clear(s, name) && name in s.dir
    ensures Eligible(s.dir, s.held, name)
  {
  }

  lemma Requeued(t: State, entries: seq<string>, name: string)
    requires Inv(t) && Enabled(t, Begin(entries)) && Eligible(t.dir, t.held, name)
    ensures From(t, ListingActions(entries)).phase.Delivering?
    ensures name in From(t, ListingActions(entries)).phase.queue
  {
    hide Inv, From, Lists;
    BeginInv(t, entries);
    var a := Step(t, Begin(entries));
    assert a.dir == t.dir && a.held == t.held && a.phase.todo == entries;
    assert name in entries;
    hide Step;
    QuietListing(a);
    var b := From(a, Examining(|entries|));
    SortedLists(b);
    FromOne(t, Begin(entries));
    FromOne(b, Sort);
    FromConcat(t, [Begin(entries)], Examining(|entries|));
    FromConcat(t, [Begin(entries)] + Examining(|entries|), [Sort]);
  }

  // ---- what is offered at all ----

  /** A read offers a file of at most four mebibytes that can be read and names a kind; a
      larger one is held, and whatever else is left where it is. */
  lemma ReadOffers(s: State)
    requires s.phase.Delivering? && s.phase.queue != []
    ensures var t, name := Step(s, Read), s.phase.queue[0];
      && t.dir == s.dir
      && (t.phase.InFlight? <==>
            name in s.dir && s.dir[name].readable && s.dir[name].size <= 4_194_304 && s.dir[name].knownKind)
      && (t.phase.InFlight? ==> t.phase.name == name && t.phase.id == s.dir[name].id && t.held == s.held)
      && (!t.phase.InFlight? ==>
            t.held == if name in s.dir && s.dir[name].readable && s.dir[name].size > 4_194_304
                      then s.held[name := s.dir[name].id] else s.held)
  {
  }

  /** A write in progress is what ends in .tmp. */
  lemma TemporaryNames(name: string)
    ensures IsTemporary(name) <==> exists stem: string :: name == stem + ".tmp"
  {
    if IsTemporary(name) {
      assert name == name[..|name| - 4] + ".tmp";
    }
    if stem: string :| name == stem + ".tmp" {
      assert name[|name| - 4..] == ".tmp";
    }
  }
}
