/** The profile puller's least-recently-pulled schedule
    (internal/pprofpull/pull.go). */
module Pullers {
  import opened Basics

  datatype Target = Target(imageDigest: string, port: int)

  datatype TargetState = TargetState(lastPulled: int, holdUntil: int)

  type Pulls = map<Target, TargetState>

  const MAX_PULLS_PER_CYCLE: nat := 10
  const REFUSED_FOR: int := 6 * 3600 * 1_000_000_000
  const UNREACHABLE_FOR: int := 30 * 60 * 1_000_000_000

  function LastOf(s: Pulls, t: Target): int {
    if t in s then s[t].lastPulled else 0
  }

  predicate HeldOff(s: Pulls, t: Target, now: int) {
    t in s && now < s[t].holdUntil
  }

  /** Places in a list of n candidates. */
  predicate Places(order: seq<nat>, n: nat) {
    forall i :: 0 <= i < |order| ==> order[i] < n
  }

  // ---- the due list: places in the candidate list, oldest first ----

  /** Stable insertion of a later place by when its target was last pulled. */
  function InsertStable(s: Pulls, candidates: seq<Target>, order: seq<nat>, i: nat): seq<nat>
    requires i < |candidates| && Places(order, |candidates|)
  {
    if order == [] then [i]
    else if LastOf(s, candidates[Last(order)]) <= LastOf(s, candidates[i]) then order + [i]
    else InsertStable(s, candidates, order[..|order| - 1], i) + [Last(order)]
  }

  lemma {:induction false} InsertStableMembers(s: Pulls, candidates: seq<Target>, order: seq<nat>, i: nat)
    requires i < |candidates| && Places(order, |candidates|)
    ensures forall k :: k in InsertStable(s, candidates, order, i) <==> k in order || k == i
    ensures |InsertStable(s, candidates, order, i)| == |order| + 1
    ensures forall n: nat :: Places(order, n) && i < n ==> Places(InsertStable(s, candidates, order, i), n)
  {
    if order != [] && LastOf(s, candidates[Last(order)]) > LastOf(s, candidates[i]) {
      var init := order[..|order| - 1];
      InsertStableMembers(s, candidates, init, i);
      assert order == init + [Last(order)];
    }
    var more := InsertStable(s, candidates, order, i);
    forall n: nat | Places(order, n) && i < n
      ensures Places(more, n)
    {
      forall j | 0 <= j < |more|
        ensures more[j] < n
      {
        assert more[j] in more;
      }
    }
  }

  function DueUpTo(s: Pulls, candidates: seq<Target>, now: int, n: nat): (order: seq<nat>)
    requires n <= |candidates|
    ensures Places(order, n)
  {
    if n == 0 then [] else
    var order := DueUpTo(s, candidates, now, n - 1);
    if HeldOff(s, candidates[n - 1], now) then order
    else
      InsertStableMembers(s, candidates, order, n - 1);
      InsertStable(s, candidates, order, n - 1)
  }

  function DueList(s: Pulls, candidates: seq<Target>, now: int): seq<nat> {
    DueUpTo(s, candidates, now, |candidates|)
  }

  /** Place i comes before place j: pulled longer ago, or as long ago and listed earlier. */
  predicate Before(s: Pulls, candidates: seq<Target>, i: nat, j: nat)
    requires i < |candidates| && j < |candidates|
  {
    var a, b := LastOf(s, candidates[i]), LastOf(s, candidates[j]);
    a < b || (a == b && i < j)
  }

  ghost predicate SortedBy(s: Pulls, candidates: seq<Target>, order: seq<nat>) {
    && Places(order, |candidates|)
    && (forall i, j :: 0 <= i < j < |order| ==> Before(s, candidates, order[i], order[j]))
  }

  lemma {:induction false} InsertStableSorted(s: Pulls, candidates: seq<Target>, order: seq<nat>, i: nat)
    requires i < |candidates| && SortedBy(s, candidates, order) && Places(order, i)
    ensures SortedBy(s, candidates, InsertStable(s, candidates, order, i))
  {
    InsertStableMembers(s, candidates, order, i);
    if order != [] {
      var init, last := order[..|order| - 1], Last(order);
      assert last in order;
      if LastOf(s, candidates[last]) > LastOf(s, candidates[i]) {
        InsertStableSorted(s, candidates, init, i);
        InsertStableMembers(s, candidates, init, i);
        var more := InsertStable(s, candidates, init, i);
        assert Places(more, |candidates|);
        forall a | 0 <= a < |more|
          ensures Before(s, candidates, more[a], last)
        {
          assert more[a] in more;
          if more[a] == i {
          } else {
            var b :| 0 <= b < |init| && init[b] == more[a];
            assert order[b] == more[a] && order[|order| - 1] == last;
          }
        }
      } else {
        forall a | 0 <= a < |order|
          ensures Before(s, candidates, order[a], i)
        {
          assert order[a] in order;
          if a < |order| - 1 {
            assert Before(s, candidates, order[a], order[|order| - 1]);
          }
        }
      }
    }
  }

  /** The due list is every place not held off, once, least recently pulled first. */
  lemma {:induction false} DueUpToSorted(s: Pulls, candidates: seq<Target>, now: int, n: nat)
    requires n <= |candidates|
    ensures var order := DueUpTo(s, candidates, now, n);
      && SortedBy(s, candidates, order)
      && forall k :: k in order <==> 0 <= k < n && !HeldOff(s, candidates[k], now)
  {
    hide InsertStable, Before, HeldOff;
    if n > 0 {
      DueUpToSorted(s, candidates, now, n - 1);
      var order := DueUpTo(s, candidates, now, n - 1);
      if !HeldOff(s, candidates[n - 1], now) {
        InsertStableSorted(s, candidates, order, n - 1);
        InsertStableMembers(s, candidates, order, n - 1);
      }
    }
  }

  // ---- visits and cycles ----

  datatype Outcome = NoAddress | Unreachable | Refused | Invalid | Captured(spooled: bool)

  /** One visit: what came of it, and the two clock readings that stamp it. */
  datatype Visit = Visit(outcome: Outcome, pulledAt: int, heldAt: int)

  function HoldOff(o: Outcome): int {
    match o
    case Unreachable => UNREACHABLE_FOR
    case Refused => REFUSED_FOR
    case Invalid => UNREACHABLE_FOR
    case _ => 0
  }

  function Visited(s: Pulls, t: Target, v: Visit): Pulls {
    if v.outcome.NoAddress? then s
    else s[t := TargetState(v.pulledAt, v.heldAt + HoldOff(v.outcome))]
  }

  /** A cycle: the clock when the due list was taken, and its visits in order. */
  datatype Cycle = Cycle(now: int, visits: seq<Visit>)

  /** How many places a cycle may visit, and how many it reaches when it is cut short. */
  function VisitCount(order: seq<nat>): nat {
    if |order| <= MAX_PULLS_PER_CYCLE then |order| else MAX_PULLS_PER_CYCLE
  }

  function Reached(order: seq<nat>, visits: seq<Visit>): nat {
    if |visits| <= VisitCount(order) then |visits| else VisitCount(order)
  }

  function VisitedAll(s: Pulls, candidates: seq<Target>, order: seq<nat>, visits: seq<Visit>, n: nat): Pulls
    requires n <= |order| && n <= |visits| && Places(order, |candidates|)
  {
    if n == 0 then s else
    Visited(VisitedAll(s, candidates, order, visits, n - 1), candidates[order[n - 1]], visits[n - 1])
  }

  function AfterCycle(s: Pulls, candidates: seq<Target>, c: Cycle): Pulls {
    var order := DueList(s, candidates, c.now);
    VisitedAll(s, candidates, order, c.visits, Reached(order, c.visits))
  }

  /** The cycle was not cut short. */
  predicate Complete(s: Pulls, candidates: seq<Target>, c: Cycle) {
    |c.visits| >= VisitCount(DueList(s, candidates, c.now))
  }

  predicate DueIn(s: Pulls, candidates: seq<Target>, t: Target, c: Cycle) {
    t in candidates && !HeldOff(s, t, c.now)
  }

  predicate VisitedIn(s: Pulls, candidates: seq<Target>, t: Target, c: Cycle) {
    var order := DueList(s, candidates, c.now);
    exists i :: 0 <= i < Reached(order, c.visits) && candidates[order[i]] == t
  }

  datatype Coverage = Coverage(shipped: nat, refused: nat, unreachable: nat, invalid: nat)

  function Counted(c: Coverage, o: Outcome): Coverage {
    match o
    case NoAddress => c
    case Unreachable => c.(unreachable := c.unreachable + 1)
    case Refused => c.(refused := c.refused + 1)
    case Invalid => c.(invalid := c.invalid + 1)
    case Captured(spooled) => if spooled then c.(shipped := c.shipped + 1) else c
  }

  function CountedAll(c: Coverage, visits: seq<Visit>, n: nat): Coverage
    requires n <= |visits|
  {
    if n == 0 then c else Counted(CountedAll(c, visits, n - 1), visits[n - 1].outcome)
  }

  class Puller {
    var state: Pulls
    var cover: Coverage

    constructor ()
      ensures state == map[] && cover == Coverage(0, 0, 0, 0)
    {
      state, cover := map[], Coverage(0, 0, 0, 0);
    }

    /** The candidates not held off, oldest first. */
    method Due(candidates: seq<Target>, now: int) returns (order: seq<nat>)
      ensures order == DueList(state, candidates, now)
    {
      order := [];
      for n := 0 to |candidates|
        invariant order == DueUpTo(state, candidates, now, n)
      {
        if candidates[n] in state && now < state[candidates[n]].holdUntil {
        } else {
          order := InsertStable(state, candidates, order, n);
        }
      }
    }

    method Hold(t: Target, pulledAt: int, heldAt: int, d: int)
      modifies this`state
      ensures state == old(state)[t := TargetState(pulledAt, heldAt + d)]
    {
      state := state[t := TargetState(pulledAt, heldAt + d)];
    }

    /** One visit, reduced to its outcome. */
    method VisitTarget(t: Target, v: Visit)
      modifies this
      ensures state == Visited(old(state), t, v)
      ensures cover == Counted(old(cover), v.outcome)
    {
      match v.outcome
      case NoAddress =>
      case Unreachable =>
        Hold(t, v.pulledAt, v.heldAt, UNREACHABLE_FOR);
        cover := cover.(unreachable := cover.unreachable + 1);
      case Refused =>
        Hold(t, v.pulledAt, v.heldAt, REFUSED_FOR);
        cover := cover.(refused := cover.refused + 1);
      case Invalid =>
        Hold(t, v.pulledAt, v.heldAt, UNREACHABLE_FOR);
        cover := cover.(invalid := cover.invalid + 1);
      case Captured(spooled) =>
        Hold(t, v.pulledAt, v.heldAt, 0);
        if spooled {
          cover := cover.(shipped := cover.shipped + 1);
        }
    }

    /** One cycle: at most ten visits, least recently pulled first, ending early
        where the context does. */
    method RunCycle(candidates: seq<Target>, c: Cycle)
      modifies this
      ensures state == AfterCycle(old(state), candidates, c)
      ensures cover == CountedAll(old(cover), c.visits, Reached(DueList(old(state), candidates, c.now), c.visits))
    {
      hide DueUpTo, Visited, Before, HeldOff;
      var order := Due(candidates, c.now);
      ghost var was := state;
      DueUpToSorted(was, candidates, c.now, |candidates|);
      var n := 0;
      while n < |order| && n < MAX_PULLS_PER_CYCLE && n < |c.visits|
        invariant 0 <= n <= Reached(order, c.visits)
        invariant state == VisitedAll(was, candidates, order, c.visits, n)
        invariant cover == CountedAll(old(cover), c.visits, n)
        decreases Reached(order, c.visits) - n
      {
        assert order[n] in order;
        VisitTarget(candidates[order[n]], c.visits[n]);
        n := n + 1;
      }
    }
  }

  // ---- fairness ----

  /** The first place a target is listed at. */
  function FirstPlace(candidates: seq<Target>, t: Target): (i: nat)
    requires t in candidates
    ensures i < |candidates| && candidates[i] == t && t !in candidates[..i]
  {
    if candidates[0] == t then 0 else 1 + FirstPlace(candidates[1..], t)
  }

  /** The places that would be visited before a target: pulled longer ago, or as
      long ago and listed earlier - whether or not they are held off just now. */
  function Ahead(s: Pulls, candidates: seq<Target>, t: Target): set<nat>
    requires t in candidates
  {
    set i: nat | i < |candidates| && Before(s, candidates, i, FirstPlace(candidates, t))
  }

  /** In a cycle exactly the visits of these targets find no address, and every other
      is stamped later than t was last pulled. */
  ghost predicate Fair(s: Pulls, candidates: seq<Target>, c: Cycle, t: Target, gone: set<Target>) {
    var order := DueList(s, candidates, c.now);
    forall i :: 0 <= i < Reached(order, c.visits) ==>
      && (c.visits[i].outcome.NoAddress? <==> candidates[order[i]] in gone)
      && (candidates[order[i]] in gone || c.visits[i].pulledAt > LastOf(s, t))
  }

  /** After n visits of a cycle, a visited target with an address is stamped later
      than t, and any other target is as it was. */
  lemma {:induction false} VisitsStamp(s: Pulls, candidates: seq<Target>, order: seq<nat>, visits: seq<Visit>, n: nat,
                                       t: Target, gone: set<Target>, u: Target)
    requires n <= |order| && n <= |visits| && Places(order, |candidates|)
    requires forall i :: 0 <= i < n ==>
      && (visits[i].outcome.NoAddress? <==> candidates[order[i]] in gone)
      && (candidates[order[i]] in gone || visits[i].pulledAt > LastOf(s, t))
    ensures var after := VisitedAll(s, candidates, order, visits, n);
      if u !in gone && exists i :: 0 <= i < n && candidates[order[i]] == u
      then LastOf(after, u) > LastOf(s, t)
      else LastOf(after, u) == LastOf(s, u)
  {
    if n > 0 {
      VisitsStamp(s, candidates, order, visits, n - 1, t, gone, u);
    }
  }

  /** A cycle that does not visit t puts no place ahead of it that was not ahead, and
      takes every place it visits that has an address from ahead of it. */
  lemma AheadShrinks(s: Pulls, candidates: seq<Target>, t: Target, gone: set<Target>, c: Cycle)
    requires t in candidates && Fair(s, candidates, c, t, gone) && !VisitedIn(s, candidates, t, c)
    ensures LastOf(AfterCycle(s, candidates, c), t) == LastOf(s, t)
    ensures Ahead(AfterCycle(s, candidates, c), candidates, t) <= Ahead(s, candidates, t)
    ensures var order := DueList(s, candidates, c.now);
      forall i :: 0 <= i < Reached(order, c.visits) && candidates[order[i]] !in gone ==>
        order[i] !in Ahead(AfterCycle(s, candidates, c), candidates, t)
  {
    hide DueUpTo, VisitedAll;
    var order := DueList(s, candidates, c.now);
    var after, n := AfterCycle(s, candidates, c), Reached(order, c.visits);
    VisitsStamp(s, candidates, order, c.visits, n, t, gone, t);
    forall i: nat | i < |candidates|
      ensures LastOf(after, candidates[i]) > LastOf(s, t) || LastOf(after, candidates[i]) == LastOf(s, candidates[i])
    {
      VisitsStamp(s, candidates, order, c.visits, n, t, gone, candidates[i]);
    }
    forall i | 0 <= i < n && candidates[order[i]] !in gone
      ensures LastOf(after, candidates[order[i]]) > LastOf(s, t)
    {
      VisitsStamp(s, candidates, order, c.visits, n, t, gone, candidates[order[i]]);
    }
  }

  /** A cycle in which t is due and not visited visits ten places that were ahead of it. */
  lemma FullCycleAhead(s: Pulls, candidates: seq<Target>, t: Target, c: Cycle)
    requires Complete(s, candidates, c) && DueIn(s, candidates, t, c) && !VisitedIn(s, candidates, t, c)
    ensures var order := DueList(s, candidates, c.now);
      && |order| > MAX_PULLS_PER_CYCLE
      && forall i :: 0 <= i < MAX_PULLS_PER_CYCLE ==> order[i] in Ahead(s, candidates, t)
  {
    hide DueUpTo;
    var order, p := DueList(s, candidates, c.now), FirstPlace(candidates, t);
    DueUpToSorted(s, candidates, c.now, |candidates|);
    assert p in order;
    var k :| 0 <= k < |order| && order[k] == p;
    assert k >= VisitCount(order);
  }

  /** The places whose target has no address. */
  function Unaddressed(candidates: seq<Target>, gone: set<Target>): set<nat> {
    set i: nat | i < |candidates| && candidates[i] in gone
  }

  /** The places ahead of a target that a visit would move behind it. */
  function Waiting(s: Pulls, candidates: seq<Target>, t: Target, gone: set<Target>): set<nat>
    requires t in candidates
  {
    Ahead(s, candidates, t) - Unaddressed(candidates, gone)
  }

  /** The places ahead of a target that no visit moves. */
  function Blocking(s: Pulls, candidates: seq<Target>, t: Target, gone: set<Target>): set<nat>
    requires t in candidates
  {
    Ahead(s, candidates, t) * Unaddressed(candidates, gone)
  }

  lemma WaitingDrops(s: Pulls, candidates: seq<Target>, t: Target, gone: set<Target>, c: Cycle)
    requires Complete(s, candidates, c) && DueIn(s, candidates, t, c)
    requires Fair(s, candidates, c, t, gone) && !VisitedIn(s, candidates, t, c)
    ensures |Waiting(AfterCycle(s, candidates, c), candidates, t, gone)| + MAX_PULLS_PER_CYCLE
         <= |Waiting(s, candidates, t, gone)| + |Blocking(s, candidates, t, gone)|
  {
    hide DueUpTo, VisitedAll, Ahead;
    var order := DueList(s, candidates, c.now);
    AheadShrinks(s, candidates, t, gone, c);
    FullCycleAhead(s, candidates, t, c);
    DueUpToSorted(s, candidates, c.now, |candidates|);
    var ten := order[..MAX_PULLS_PER_CYCLE];
    DistinctCount(ten);
    var block := Blocking(s, candidates, t, gone);
    var was, now := Waiting(s, candidates, t, gone), Waiting(AfterCycle(s, candidates, c), candidates, t, gone);
    var moved := Elements(ten) - block;
    forall k | k in moved
      ensures k in was && k !in now
    {
      var i :| 0 <= i < |ten| && ten[i] == k;
      assert order[i] == k;
    }
    DisjointCount(now, moved, was);
    assert Elements(ten) <= moved + block;
    SmallerSet(Elements(ten), moved + block);
    assert |moved + block| <= |moved| + |block|;
  }

  lemma {:induction false} BelowCount(n: nat) returns (all: set<nat>)
    ensures |all| == n && forall k: nat :: k in all <==> k < n
  {
    if n == 0 {
      all := {};
    } else {
      var fewer := BelowCount(n - 1);
      all := fewer + {n - 1};
    }
  }

  lemma WaitingBound(s: Pulls, candidates: seq<Target>, t: Target, gone: set<Target>)
    requires t in candidates
    ensures |Waiting(s, candidates, t, gone)| + |Blocking(s, candidates, t, gone)| < |candidates|
  {
    var all := BelowCount(|candidates|);
    var p := FirstPlace(candidates, t);
    var waiting, block := Waiting(s, candidates, t, gone), Blocking(s, candidates, t, gone);
    assert waiting !! block;
    assert |waiting + block| == |waiting| + |block|;
    DisjointCount(waiting + block, {p}, all);
  }

  // ---- whole runs ----

  /** In how many cycles of a run a target is due. */
  function DueCycles(s: Pulls, candidates: seq<Target>, t: Target, cycles: seq<Cycle>): nat
    decreases |cycles|
  {
    if cycles == [] then 0 else
    (if DueIn(s, candidates, t, cycles[0]) then 1 else 0)
    + DueCycles(AfterCycle(s, candidates, cycles[0]), candidates, t, cycles[1..])
  }

  predicate EverVisited(s: Pulls, candidates: seq<Target>, t: Target, cycles: seq<Cycle>)
    decreases |cycles|
  {
    cycles != [] &&
    (VisitedIn(s, candidates, t, cycles[0])
     || EverVisited(AfterCycle(s, candidates, cycles[0]), candidates, t, cycles[1..]))
  }

  /** Cycles run to their end, only these targets are without an address, and the
      clock has moved on since t was last pulled. */
  ghost predicate FairRun(s: Pulls, candidates: seq<Target>, t: Target, gone: set<Target>, cycles: seq<Cycle>)
    decreases |cycles|
  {
    cycles == [] ||
    (Complete(s, candidates, cycles[0]) && Fair(s, candidates, cycles[0], t, gone)
     && FairRun(AfterCycle(s, candidates, cycles[0]), candidates, t, gone, cycles[1..]))
  }

  /** Every due cycle without a visit costs ten places, less those ahead without an
      address. */
  lemma {:induction false} WaitingCost(s: Pulls, candidates: seq<Target>, t: Target, gone: set<Target>,
      cycles: seq<Cycle>, most: nat)
    requires t in candidates && |Blocking(s, candidates, t, gone)| <= most < MAX_PULLS_PER_CYCLE
    requires FairRun(s, candidates, t, gone, cycles) && !EverVisited(s, candidates, t, cycles)
    ensures (MAX_PULLS_PER_CYCLE - most) * DueCycles(s, candidates, t, cycles) <= |Waiting(s, candidates, t, gone)|
    decreases |cycles|
  {
    hide Ahead, AfterCycle, VisitedIn, Complete, Fair, Unaddressed;
    if cycles != [] {
      var c := cycles[0];
      var next := AfterCycle(s, candidates, c);
      AheadShrinks(s, candidates, t, gone, c);
      SmallerSet(Waiting(next, candidates, t, gone), Waiting(s, candidates, t, gone));
      SmallerSet(Blocking(next, candidates, t, gone), Blocking(s, candidates, t, gone));
      WaitingCost(next, candidates, t, gone, cycles[1..], most);
      var rate, later := MAX_PULLS_PER_CYCLE - most, DueCycles(next, candidates, t, cycles[1..]);
      assert rate * (later + 1) == rate * later + rate;
      if DueIn(s, candidates, t, c) {
        WaitingDrops(s, candidates, t, gone, c);
      }
    }
  }

  lemma Ceiling(a: int, k: int, n: int)
    requires 0 < k && (a + k - 1) / k <= n
    ensures a <= k * n
  {
    var q := (a + k - 1) / k;
    assert a + k - 1 == k * q + (a + k - 1) % k;
    assert k * (n - q) >= 0;
    assert k * n == k * q + k * (n - q);
  }

  /** Main result, bounded waiting: however the candidates share targets, whoever is
      held off, and with fewer than ten places without an address ahead of it, a listed
      target that has been due in as many cycles as it takes to visit every other place
      once, ten at a time less those ahead without an address, has been visited. */
  lemma BoundedWaiting(s: Pulls, candidates: seq<Target>, t: Target, gone: set<Target>, cycles: seq<Cycle>)
    requires t in candidates && FairRun(s, candidates, t, gone, cycles)
    requires |Blocking(s, candidates, t, gone)| < MAX_PULLS_PER_CYCLE
    requires var rate := MAX_PULLS_PER_CYCLE - |Blocking(s, candidates, t, gone)|;
      (|candidates| - |Blocking(s, candidates, t, gone)| + rate - 1) / rate <= DueCycles(s, candidates, t, cycles)
    ensures EverVisited(s, candidates, t, cycles)
  {
    hide FairRun, EverVisited, DueCycles, Blocking, Waiting;
    if !EverVisited(s, candidates, t, cycles) {
      var block := |Blocking(s, candidates, t, gone)|;
      WaitingCost(s, candidates, t, gone, cycles, block);
      WaitingBound(s, candidates, t, gone);
      Ceiling(|candidates| - block, MAX_PULLS_PER_CYCLE - block, DueCycles(s, candidates, t, cycles));
    }
  }

  // ---- starvation ----

  /** The blocking places that are due at an instant. */
  function DueBlocking(s: Pulls, candidates: seq<Target>, t: Target, gone: set<Target>, now: int): set<nat>
    requires t in candidates
  {
    set i | i in Blocking(s, candidates, t, gone) && !HeldOff(s, candidates[i], now)
  }

  /** Whatever is due and ahead of a target stands before each of its places. */
  lemma StandsBefore(s: Pulls, candidates: seq<Target>, t: Target, now: int, b: nat, i: nat)
    requires t in candidates && b in Ahead(s, candidates, t) && !HeldOff(s, candidates[b], now)
    requires i < |DueList(s, candidates, now)| && candidates[DueList(s, candidates, now)[i]] == t
    ensures b in DueList(s, candidates, now)[..i]
  {
    hide DueUpTo;
    var order, p := DueList(s, candidates, now), FirstPlace(candidates, t);
    DueUpToSorted(s, candidates, now, |candidates|);
    assert b in order;
    var j :| 0 <= j < |order| && order[j] == b;
    FirstPlaceLeast(candidates, t, order[i]);
    assert Before(s, candidates, order[j], order[i]);
    assert j < i;
    assert order[..i][j] == b;
  }

  lemma {:induction false} FirstPlaceLeast(candidates: seq<Target>, t: Target, q: nat)
    requires q < |candidates| && candidates[q] == t
    ensures FirstPlace(candidates, t) <= q
  {
    if candidates[0] != t {
      FirstPlaceLeast(candidates[1..], t, q - 1);
    }
  }

  /** Ten due places without an address ahead of a target keep it from being visited. */
  lemma BlockedCycle(s: Pulls, candidates: seq<Target>, t: Target, gone: set<Target>, c: Cycle)
    requires t in candidates && |DueBlocking(s, candidates, t, gone, c.now)| >= MAX_PULLS_PER_CYCLE
    ensures !VisitedIn(s, candidates, t, c)
  {
    hide DueUpTo, Ahead, HeldOff, Unaddressed;
    if VisitedIn(s, candidates, t, c) {
      var order := DueList(s, candidates, c.now);
      var i :| 0 <= i < Reached(order, c.visits) && candidates[order[i]] == t;
      var block := DueBlocking(s, candidates, t, gone, c.now);
      forall b | b in block
        ensures b in Elements(order[..i])
      {
        StandsBefore(s, candidates, t, c.now, b, i);
      }
      DueUpToSorted(s, candidates, c.now, |candidates|);
      forall a, b | 0 <= a < b < i
        ensures order[..i][a] != order[..i][b]
      {
        assert Before(s, candidates, order[a], order[b]);
      }
      DistinctCount(order[..i]);
      SmallerSet(block, Elements(order[..i]));
    }
  }

  /** Visits leave the state of a target without an address as it is. */
  lemma {:induction false} GoneUntouched(s: Pulls, candidates: seq<Target>, order: seq<nat>, visits: seq<Visit>, n: nat,
      gone: set<Target>, u: Target)
    requires n <= |order| && n <= |visits| && Places(order, |candidates|) && u in gone
    requires forall i :: 0 <= i < n ==> (visits[i].outcome.NoAddress? <==> candidates[order[i]] in gone)
    ensures var after := VisitedAll(s, candidates, order, visits, n);
      (u in after <==> u in s) && (u in after && u in s ==> after[u] == s[u])
  {
    if n > 0 {
      GoneUntouched(s, candidates, order, visits, n - 1, gone, u);
    }
  }

  /** A cycle that does not visit a target leaves every place that blocks it, due as it
      was or by now due. */
  lemma BlockingStays(s: Pulls, candidates: seq<Target>, t: Target, gone: set<Target>, c: Cycle, later: int)
    requires t in candidates && Fair(s, candidates, c, t, gone) && !VisitedIn(s, candidates, t, c) && c.now <= later
    ensures DueBlocking(s, candidates, t, gone, c.now)
         <= DueBlocking(AfterCycle(s, candidates, c), candidates, t, gone, later)
  {
    hide DueUpTo, VisitedAll;
    var order, after := DueList(s, candidates, c.now), AfterCycle(s, candidates, c);
    AheadShrinks(s, candidates, t, gone, c);
    forall i | i in DueBlocking(s, candidates, t, gone, c.now)
      ensures i in DueBlocking(after, candidates, t, gone, later)
    {
      GoneUntouched(s, candidates, order, c.visits, Reached(order, c.visits), gone, candidates[i]);
    }
  }

  /** The clock does not go back from cycle to cycle. */
  predicate Timely(now: int, cycles: seq<Cycle>)
    decreases |cycles|
  {
    cycles == [] || (now <= cycles[0].now && Timely(cycles[0].now, cycles[1..]))
  }

  /** Starvation: once ten places without an address that are due stand ahead of a
      target, it is visited in no cycle ever after, however often it is due. */
  lemma {:induction false} Starves(s: Pulls, candidates: seq<Target>, t: Target, gone: set<Target>, now: int,
      cycles: seq<Cycle>)
    requires t in candidates && |DueBlocking(s, candidates, t, gone, now)| >= MAX_PULLS_PER_CYCLE
    requires FairRun(s, candidates, t, gone, cycles) && Timely(now, cycles)
    ensures !EverVisited(s, candidates, t, cycles)
    decreases |cycles|
  {
    hide DueBlocking, AfterCycle, VisitedIn, Complete, Fair;
    if cycles != [] {
      var c := cycles[0];
      DueLater(s, candidates, t, gone, now, c.now);
      BlockedCycle(s, candidates, t, gone, c);
      BlockingStays(s, candidates, t, gone, c, c.now);
      var next := AfterCycle(s, candidates, c);
      SmallerSet(DueBlocking(s, candidates, t, gone, c.now), DueBlocking(next, candidates, t, gone, c.now));
      Starves(next, candidates, t, gone, c.now, cycles[1..]);
    }
  }

  lemma DueLater(s: Pulls, candidates: seq<Target>, t: Target, gone: set<Target>, now: int, later: int)
    requires t in candidates && now <= later
    ensures |DueBlocking(s, candidates, t, gone, now)| <= |DueBlocking(s, candidates, t, gone, later)|
  {
    SmallerSet(DueBlocking(s, candidates, t, gone, now), DueBlocking(s, candidates, t, gone, later));
  }

  lemma TimesAtLeast(rate: int, n: nat)
    requires rate >= 1
    ensures n <= rate * n
  {
    assert (rate - 1) * n >= 0;
    assert rate * n == (rate - 1) * n + n;
  }

  /** The two together, exactly: where no place ahead without an address is held off,
      a target due in as many cycles as there are candidates is visited if and only if
      fewer than ten such places stand ahead of it. */
  lemma VisitedIff(s: Pulls, candidates: seq<Target>, t: Target, gone: set<Target>, now: int, cycles: seq<Cycle>)
    requires t in candidates && FairRun(s, candidates, t, gone, cycles) && Timely(now, cycles)
    requires DueBlocking(s, candidates, t, gone, now) == Blocking(s, candidates, t, gone)
    requires DueCycles(s, candidates, t, cycles) >= |candidates|
    ensures EverVisited(s, candidates, t, cycles) <==> |Blocking(s, candidates, t, gone)| < MAX_PULLS_PER_CYCLE
  {
    hide FairRun, EverVisited, DueCycles, Blocking, Waiting, DueBlocking, Timely;
    var block := |Blocking(s, candidates, t, gone)|;
    if block < MAX_PULLS_PER_CYCLE {
      TimesAtLeast(MAX_PULLS_PER_CYCLE - block, DueCycles(s, candidates, t, cycles));
      WaitingBound(s, candidates, t, gone);
      if !EverVisited(s, candidates, t, cycles) {
        WaitingCost(s, candidates, t, gone, cycles, block);
      }
    } else {
      Starves(s, candidates, t, gone, now, cycles);
    }
  }

  /** An input: nothing pulled yet, ten targets without an address listed first. */
  lemma NeverPulledStarves(candidates: seq<Target>, t: Target, gone: set<Target>, now: int, cycles: seq<Cycle>)
    requires |candidates| >= MAX_PULLS_PER_CYCLE && t in candidates && t !in gone
    requires forall i :: 0 <= i < MAX_PULLS_PER_CYCLE ==> candidates[i] in gone
    requires FairRun(map[], candidates, t, gone, cycles) && Timely(now, cycles)
    ensures !EverVisited(map[], candidates, t, cycles)
  {
    hide FairRun, EverVisited, Timely;
    var ten := BelowCount(MAX_PULLS_PER_CYCLE);
    var p := FirstPlace(candidates, t);
    assert ten <= DueBlocking(map[], candidates, t, gone, now);
    SmallerSet(ten, DueBlocking(map[], candidates, t, gone, now));
    Starves(map[], candidates, t, gone, now, cycles);
  }

  // ---- limits, hold-offs and counts ----

  /** A cycle that is not cut short makes ten visits, or as many as there are due places. */
  lemma TenAtMost(s: Pulls, candidates: seq<Target>, c: Cycle)
    ensures var due := |DueList(s, candidates, c.now)|;
      Reached(DueList(s, candidates, c.now), c.visits)
      == if |c.visits| < due && |c.visits| < 10 then |c.visits| else if due < 10 then due else 10
  {
  }

  const MINUTE: int := 60 * 1_000_000_000

  /** When a target is due again after a visit: six hours after a refusal, half an hour after
      it was unreachable or its profile invalid, at once after a capture; a visit that
      finds no address changes nothing. */
  function DueAgain(s: Pulls, t: Target, v: Visit): int {
    match v.outcome
    case NoAddress => if t in s then s[t].holdUntil else 0
    case Refused => v.heldAt + 360 * MINUTE
    case Unreachable => v.heldAt + 30 * MINUTE
    case Invalid => v.heldAt + 30 * MINUTE
    case Captured(_) => v.heldAt
  }

  /** Cycles over whatever candidates each is given. */
  function AfterCycles(s: Pulls, runs: seq<(seq<Target>, Cycle)>): Pulls {
    if runs == [] then s else
    AfterCycle(AfterCycles(s, runs[..|runs| - 1]), Last(runs).0, Last(runs).1)
  }

  /** Every cycle is before an instant or does not come to the target. */
  predicate Spared(s: Pulls, t: Target, until: int, runs: seq<(seq<Target>, Cycle)>) {
    runs == [] ||
    (Spared(s, t, until, runs[..|runs| - 1])
     && (Last(runs).1.now < until
         || !VisitedIn(AfterCycles(s, runs[..|runs| - 1]), Last(runs).0, t, Last(runs).1)))
  }

  lemma {:induction false} SparedKeeps(s: Pulls, t: Target, runs: seq<(seq<Target>, Cycle)>)
    requires t in s && Spared(s, t, s[t].holdUntil, runs)
    ensures t in AfterCycles(s, runs) && AfterCycles(s, runs)[t] == s[t]
  {
    hide AfterCycle, VisitedIn;
    if runs != [] {
      SparedKeeps(s, t, runs[..|runs| - 1]);
      UnvisitedKept(AfterCycles(s, runs[..|runs| - 1]), Last(runs).0, t, Last(runs).1);
    }
  }

  lemma UnvisitedKept(s: Pulls, candidates: seq<Target>, t: Target, c: Cycle)
    requires t in s && (c.now < s[t].holdUntil || !VisitedIn(s, candidates, t, c))
    ensures t in AfterCycle(s, candidates, c) && AfterCycle(s, candidates, c)[t] == s[t]
  {
    hide DueUpTo, VisitedAll;
    var order := DueList(s, candidates, c.now);
    DueUpToSorted(s, candidates, c.now, |candidates|);
    var n := Reached(order, c.visits);
    forall i | 0 <= i < n
      ensures candidates[order[i]] != t
    {
      assert order[i] in order;
    }
    OthersKeep(s, candidates, order, c.visits, n, t);
  }

  lemma {:induction false} OthersKeep(s: Pulls, candidates: seq<Target>, order: seq<nat>, visits: seq<Visit>, n: nat,
      t: Target)
    requires n <= |order| && n <= |visits| && Places(order, |candidates|)
    requires t in s && forall i :: 0 <= i < n ==> candidates[order[i]] != t
    ensures t in VisitedAll(s, candidates, order, visits, n) && VisitedAll(s, candidates, order, visits, n)[t] == s[t]
  {
    if n > 0 {
      OthersKeep(s, candidates, order, visits, n - 1, t);
    }
  }

  /** After a visit, and through any further cycles that come before that instant or do not
      reach the target, its places are in no due list before that instant and in every one
      from then on. */
  lemma HeldOffUntil(s: Pulls, t: Target, v: Visit, runs: seq<(seq<Target>, Cycle)>, candidates: seq<Target>,
      now: int, i: nat)
    requires i < |candidates| && candidates[i] == t && (v.outcome.NoAddress? ==> t in s)
    requires Spared(Visited(s, t, v), t, DueAgain(s, t, v), runs)
    ensures i in DueList(AfterCycles(Visited(s, t, v), runs), candidates, now) <==> DueAgain(s, t, v) <= now
  {
    hide DueUpTo, AfterCycles, Spared;
    SparedKeeps(Visited(s, t, v), t, runs);
    DueUpToSorted(AfterCycles(Visited(s, t, v), runs), candidates, now, |candidates|);
  }

  /** How many of the first visits ended so. */
  function Ended(visits: seq<Visit>, n: nat, o: Outcome): nat
    requires n <= |visits|
  {
    if n == 0 then 0 else Ended(visits, n - 1, o) + if visits[n - 1].outcome == o then 1 else 0
  }

  /** The coverage counts what each visit came to: captures that were spooled as shipped, and
      refused, unreachable and invalid ones each under their own name. */
  lemma {:induction false} CoverageMeaning(c: Coverage, visits: seq<Visit>, n: nat)
    requires n <= |visits|
    ensures CountedAll(c, visits, n) == Coverage(
      c.shipped + Ended(visits, n, Captured(true)), c.refused + Ended(visits, n, Refused),
      c.unreachable + Ended(visits, n, Unreachable), c.invalid + Ended(visits, n, Invalid))
  {
    if n > 0 {
      CoverageMeaning(c, visits, n - 1);
    }
  }
}
