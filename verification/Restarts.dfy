/** Container restarts: counter baselines in the collector and windowed records
    in the journal (internal/collector/restarts.go,
    internal/collector/restart_counters.go, internal/journal/restarts.go). */
module Restarts {
  import opened Basics
  import opened Windows
  import opened Orders
  import opened Journals

  datatype ContainerKey = ContainerKey(namespace: string, pod: string, container: string)

  // ---- the collector ----

  datatype Baseline = Baseline(last: nat, atFirstSight: nat, firstSeen: int)

  type Baselines = map<ContainerKey, Baseline>

  /** One container status: its restart counter and the latest termination, if any. */
  datatype Status = Status(restartCount: nat, reason: string, exitCode: Option<int>)

  /** First sight, or a counter below the baseline: the baseline is taken whole. */
  predicate Rebaselines(b: Baselines, k: ContainerKey, count: nat) {
    k !in b || count < b[k].last
  }

  function Rebased(b: Baselines, k: ContainerKey, count: nat, at: int): Baselines {
    if Rebaselines(b, k, count) then b[k := Baseline(count, count, at)]
    else b[k := b[k].(last := count)]
  }

  /** How far a status shows the counter advanced since the last one. */
  function AdvanceOf(b: Baselines, k: ContainerKey, count: nat): nat {
    if Rebaselines(b, k, count) then 0 else count - b[k].last
  }

  datatype Restart = Restart(key: ContainerKey, at: int, restarts: int, reason: string, exitCode: Option<int>)

  function Reported(b: Baselines, k: ContainerKey, s: Status, at: int): seq<Restart> {
    var n := AdvanceOf(b, k, s.restartCount);
    if n == 0 then [] else [Restart(k, at, n, s.reason, s.exitCode)]
  }

  // ---- the journal ----

  const UNKNOWN_REASON: string := "other"
  const KNOWN_REASONS: set<string> := {
    "OOMKilled", "Error", "Completed", "ContainerCannotRun",
    "ContainerStatusUnknown", "DeadlineExceeded", "StartError", "Evicted"}

  function Bucket(reason: string): string {
    if reason in KNOWN_REASONS then reason else UNKNOWN_REASON
  }

  type RecordKey = Slot<ContainerKey>

  /** Records are written by window, then namespace, pod and container. */
  function RankOf(k: RecordKey): Rank { Rank(k.start, [k.of.namespace, k.of.pod, k.of.container]) }

  lemma OrderIs(a: RecordKey, b: RecordKey)
    ensures RankLess(RankOf(a), RankOf(b)) <==>
      a.start < b.start
      || (a.start == b.start
          && (NameLess(a.of.namespace, b.of.namespace)
              || (a.of.namespace == b.of.namespace
                  && (NameLess(a.of.pod, b.of.pod)
                      || (a.of.pod == b.of.pod && NameLess(a.of.container, b.of.container))))))
  {
    ThreeNames(a.of.namespace, a.of.pod, a.of.container, b.of.namespace, b.of.pod, b.of.container);
  }

  lemma RanksDiffer(keys: set<RecordKey>)
    ensures Injective(RankOf, keys)
  {
    forall a: RecordKey, b: RecordKey | RankOf(a) == RankOf(b)
      ensures a == b
    {
      assert RankOf(a).names[0] == RankOf(b).names[0];
      assert RankOf(a).names[1] == RankOf(b).names[1];
      assert RankOf(a).names[2] == RankOf(b).names[2];
    }
  }

  datatype RestartRecord = RestartRecord(
    restarts: int, reasons: map<string, int>, reasonsUnobserved: int, lastExitCode: Option<int>)

  type Journal = map<RecordKey, RestartRecord>

  const NO_RESTARTS: RestartRecord := RestartRecord(0, map[], 0, None)

  function Folded(r: RestartRecord, e: Restart): RestartRecord {
    if e.reason == "" then
      r.(restarts := r.restarts + e.restarts, reasonsUnobserved := r.reasonsUnobserved + e.restarts)
    else
      var b := Bucket(e.reason);
      RestartRecord(
        r.restarts + e.restarts,
        r.reasons[b := (if b in r.reasons then r.reasons[b] else 0) + 1],
        r.reasonsUnobserved + e.restarts - 1,
        if e.exitCode.Some? then e.exitCode else r.lastExitCode)
  }

  function ObserveRestart(length: int, open: Journal, e: Restart): Journal
    requires length > 0
  {
    if e.restarts <= 0 then open else
    var rk := Slot(e.key, StartOf(length, e.at));
    open[rk := Folded(if rk in open then open[rk] else NO_RESTARTS, e)]
  }

  // ---- every record accounts for its restarts ----

  function ReasonWeight(): (string, int) -> int { (s: string, n: int) => n }

  ghost predicate Accounted(r: RestartRecord) {
    && r.restarts == Total(r.reasons, ReasonWeight()) + r.reasonsUnobserved
    && r.reasonsUnobserved >= 0
    && forall s :: s in r.reasons ==> r.reasons[s] > 0
  }

  lemma FoldedAccounted(r: RestartRecord, e: Restart)
    requires Accounted(r) && e.restarts > 0
    ensures Accounted(Folded(r, e))
  {
    if e.reason != "" {
      var b := Bucket(e.reason);
      TotalUpdate(r.reasons, ReasonWeight(), b, (if b in r.reasons then r.reasons[b] else 0) + 1);
    }
  }

  ghost predicate AllAccounted(open: Journal) {
    forall rk :: rk in open ==> Accounted(open[rk])
  }

  lemma ObserveAccounted(length: int, open: Journal, e: Restart)
    requires length > 0 && AllAccounted(open)
    ensures AllAccounted(ObserveRestart(length, open, e))
  {
    hide Accounted, Folded, StartOf;
    if e.restarts > 0 {
      var rk := Slot(e.key, StartOf(length, e.at));
      NothingAccounted();
      FoldedAccounted(if rk in open then open[rk] else NO_RESTARTS, e);
    }
  }

  lemma NothingAccounted()
    ensures Accounted(NO_RESTARTS)
  {
  }

  // ---- whole runs across collector and journal ----

  datatype Op =
    | Seen(key: ContainerKey, status: Status, at: int)
    | PodGone(namespace: string, pod: string)
    | Close(now: int)

  datatype Watch = Watch(baselines: Baselines, open: Journal, handed: seq<Journal>)

  function Forgotten(b: Baselines, namespace: string, pod: string): Baselines {
    map k | k in b && !(k.namespace == namespace && k.pod == pod) :: b[k]
  }

  function Step(length: int, w: Watch, op: Op): Watch
    requires length > 0
  {
    match op
    case Seen(k, s, at) =>
      var rep := Reported(w.baselines, k, s, at);
      Watch(Rebased(w.baselines, k, s.restartCount, at),
            if rep == [] then w.open else ObserveRestart(length, w.open, rep[0]),
            w.handed)
    case PodGone(ns, pod) => w.(baselines := Forgotten(w.baselines, ns, pod))
    case Close(now) => Watch(w.baselines, StillOpen(length, w.open, now), w.handed + [ClosedAt(length, w.open, now)])
  }

  function RunOps(length: int, w: Watch, ops: seq<Op>): Watch
    requires length > 0
  {
    if ops == [] then w else Step(length, RunOps(length, w, ops[..|ops| - 1]), Last(ops))
  }

  function AdvanceBy(w: Watch, op: Op, key: ContainerKey): nat {
    if op.Seen? && op.key == key then AdvanceOf(w.baselines, key, op.status.restartCount) else 0
  }

  /** All advances of one container's counter over a run. */
  function Advances(length: int, w: Watch, ops: seq<Op>, key: ContainerKey): nat
    requires length > 0
  {
    if ops == [] then 0 else
    var init := ops[..|ops| - 1];
    Advances(length, w, init, key) + AdvanceBy(RunOps(length, w, init), Last(ops), key)
  }

  /** The advances since the baseline in force was taken. */
  function AdvancesSince(length: int, w: Watch, ops: seq<Op>, key: ContainerKey): nat
    requires length > 0
  {
    if ops == [] then 0 else
    var init, op := ops[..|ops| - 1], Last(ops);
    var before := RunOps(length, w, init);
    if op.Seen? && op.key == key && Rebaselines(before.baselines, key, op.status.restartCount) then 0
    else AdvancesSince(length, w, init, key) + AdvanceBy(before, op, key)
  }

  /** Main collector result: what restart_counters ships for a container is the
      count at first sight plus every advance reported since that baseline. */
  lemma {:induction false} CounterAccounts(length: int, ops: seq<Op>, key: ContainerKey)
    requires length > 0
    ensures var b := RunOps(length, Watch(map[], map[], []), ops).baselines;
      key in b ==> b[key].last == b[key].atFirstSight + AdvancesSince(length, Watch(map[], map[], []), ops, key)
  {
    hide ObserveRestart;
    if ops != [] {
      CounterAccounts(length, ops[..|ops| - 1], key);
    }
  }

  function RestartWeight(key: ContainerKey): (RecordKey, RestartRecord) -> int {
    (rk: RecordKey, r: RestartRecord) => if rk.of == key then r.restarts else 0
  }

  ghost function OpenRestarts(key: ContainerKey, open: Journal): int {
    Total(open, RestartWeight(key))
  }

  ghost function Everywhere(key: ContainerKey, w: Watch): int {
    AllWindows(w.open, w.handed, RestartWeight(key))
  }

  lemma ObserveCounts(length: int, open: Journal, e: Restart, key: ContainerKey)
    requires length > 0
    ensures OpenRestarts(key, ObserveRestart(length, open, e))
         == OpenRestarts(key, open) + if e.key == key && e.restarts > 0 then e.restarts else 0
  {
    hide StartOf;
    if e.restarts > 0 {
      var rk := Slot(e.key, StartOf(length, e.at));
      TotalUpdate(open, RestartWeight(key), rk, Folded(if rk in open then open[rk] else NO_RESTARTS, e));
    }
  }

  lemma StepCounts(length: int, w: Watch, op: Op, key: ContainerKey)
    requires length > 0
    ensures Everywhere(key, Step(length, w, op)) == Everywhere(key, w) + AdvanceBy(w, op, key)
  {
    hide Total, HandedTotal, ObserveRestart, StillOpen, ClosedAt, RestartWeight;
    match op
    case Seen(k, s, at) =>
      var rep := Reported(w.baselines, k, s, at);
      if rep != [] {
        ObserveCounts(length, w.open, rep[0], key);
      }
    case PodGone(_, _) =>
    case Close(now) =>
      HandOver(length, w.open, w.handed, now, RestartWeight(key));
  }

  /** Main journal result: over any run, whatever open windows it resumed, a
      container's journaled restarts over all windows grow by exactly the advances
      its counter made - split over windows, counter resets, pod deletions and
      closings included. */
  lemma {:induction false} JournalAccounts(length: int, w: Watch, ops: seq<Op>, key: ContainerKey)
    requires length > 0
    ensures Everywhere(key, RunOps(length, w, ops)) == Everywhere(key, w) + Advances(length, w, ops, key)
  {
    hide Everywhere, Step, AdvanceBy;
    if ops != [] {
      JournalAccounts(length, w, ops[..|ops| - 1], key);
      StepCounts(length, RunOps(length, w, ops[..|ops| - 1]), Last(ops), key);
    }
  }

  /** Every record of every reachable journal, open or handed over, accounts for
      each of its restarts by a reason or as unobserved. */
  lemma {:induction false} RunAccounted(length: int, w: Watch, ops: seq<Op>)
    requires length > 0 && AllAccounted(w.open) && forall j :: j in w.handed ==> AllAccounted(j)
    ensures var end := RunOps(length, w, ops);
      AllAccounted(end.open) && forall j :: j in end.handed ==> AllAccounted(j)
  {
    hide Accounted, ObserveRestart;
    if ops != [] {
      var init, op := RunOps(length, w, ops[..|ops| - 1]), Last(ops);
      RunAccounted(length, w, ops[..|ops| - 1]);
      if op.Seen? {
        var rep := Reported(init.baselines, op.key, op.status, op.at);
        if rep != [] {
          ObserveAccounted(length, init.open, rep[0]);
        }
      }
    }
  }

  // ---- the objects ----

  /** A shipped counter reading. */
  datatype Shipped = Shipped(restarts: nat, beforeObservation: nat, observedSince: int)

  class PodWatcher {
    var restartCounts: Baselines

    /** No baseline stands below where it was taken: a rebaseline sets both counts
        together and an advance only raises the one. */
    ghost predicate Valid()
      reads this
    {
      forall k :: k in restartCounts ==> restartCounts[k].atFirstSight <= restartCounts[k].last
    }

    constructor ()
      ensures Valid() && restartCounts == map[]
    {
      restartCounts := map[];
    }

    /** One pod's statuses, in order: advances are reported, first sights and
        counters that fell only rebaseline. */
    method ReportRestarts(namespace: string, pod: string, statuses: seq<(string, Status)>, at: int)
        returns (events: seq<Restart>)
      requires Valid()
      modifies this
      ensures Valid()
      ensures restartCounts == RebasedAll(old(restartCounts), namespace, pod, statuses, at)
      ensures events == ReportedAll(old(restartCounts), namespace, pod, statuses, at)
    {
      events := [];
      ghost var was := restartCounts;
      for i := 0 to |statuses|
        invariant Valid()
        invariant restartCounts == RebasedAll(was, namespace, pod, statuses[..i], at)
        invariant events == ReportedAll(was, namespace, pod, statuses[..i], at)
      {
        assert statuses[..i + 1][..i] == statuses[..i];
        var (name, status) := statuses[i];
        var key := ContainerKey(namespace, pod, name);
        if key !in restartCounts || status.restartCount < restartCounts[key].last {
          restartCounts := restartCounts[key := Baseline(status.restartCount, status.restartCount, at)];
        } else {
          var previous := restartCounts[key].last;
          restartCounts := restartCounts[key := restartCounts[key].(last := status.restartCount)];
          if status.restartCount != previous {
            events := events + [Restart(key, at, status.restartCount - previous, status.reason, status.exitCode)];
          }
        }
      }
      assert statuses[..|statuses|] == statuses;
    }

    /** Drops the baselines of a deleted pod. */
    method ForgetRestarts(namespace: string, pod: string)
      requires Valid()
      modifies this
      ensures Valid()
      ensures restartCounts == Forgotten(old(restartCounts), namespace, pod)
    {
      var todo := restartCounts.Keys;
      while todo != {}
        invariant todo <= old(restartCounts).Keys
        invariant restartCounts == map k | k in old(restartCounts)
          && (k in todo || !(k.namespace == namespace && k.pod == pod)) :: old(restartCounts)[k]
        decreases |todo|
      {
        var k := Pick(todo);
        if k.namespace == namespace && k.pod == pod {
          restartCounts := restartCounts - {k};
        }
        todo := todo - {k};
      }
    }

    /** The counter reading shipped for one container: the count, the count before
        observation, never the larger, and when that observation began; absent while the
        container never restarted or has no baseline. */
    method RestartCounter(key: ContainerKey, restartCount: nat) returns (r: Option<Shipped>)
      requires Valid()
      ensures r.Some? <==> restartCount > 0 && key in restartCounts
      ensures r.Some? ==> r.value.beforeObservation <= r.value.restarts
      ensures r.Some? ==>
        var b := restartCounts[key]; r.value == Shipped(b.last, b.atFirstSight, b.firstSeen)
    {
      if restartCount == 0 || key !in restartCounts {
        return None;
      }
      var base := restartCounts[key];
      r := Some(Shipped(base.last, base.atFirstSight, base.firstSeen));
    }
  }

  function RebasedAll(b: Baselines, namespace: string, pod: string, statuses: seq<(string, Status)>,
      at: int): Baselines {
    if statuses == [] then b else
    Rebased(RebasedAll(b, namespace, pod, statuses[..|statuses| - 1], at),
            ContainerKey(namespace, pod, Last(statuses).0), Last(statuses).1.restartCount, at)
  }

  function ReportedAll(b: Baselines, namespace: string, pod: string, statuses: seq<(string, Status)>,
      at: int): seq<Restart> {
    if statuses == [] then [] else
    var init := statuses[..|statuses| - 1];
    ReportedAll(b, namespace, pod, init, at)
    + Reported(RebasedAll(b, namespace, pod, init, at), ContainerKey(namespace, pod, Last(statuses).0),
      Last(statuses).1, at)
  }

  class RestartJournal {
    const length: int
    var open: Journal

    constructor (length: int)
      requires length > 0
      ensures this.length == length && open == map[]
    {
      this.length := length;
      open := map[];
    }

    method Observe(e: Restart)
      requires length > 0
      modifies this
      ensures open == ObserveRestart(length, old(open), e)
    {
      hide StartOf;
      if e.restarts <= 0 {
        return;
      }
      var rk := Slot(e.key, StartOf(length, e.at));
      var rec := if rk in open then open[rk] else NO_RESTARTS;
      rec := rec.(restarts := rec.restarts + e.restarts);
      if e.reason == "" {
        rec := rec.(reasonsUnobserved := rec.reasonsUnobserved + e.restarts);
      } else {
        var b := Bucket(e.reason);
        rec := rec.(reasons := rec.reasons[b := (if b in rec.reasons then rec.reasons[b] else 0) + 1]);
        rec := rec.(reasonsUnobserved := rec.reasonsUnobserved + e.restarts - 1);
        if e.exitCode.Some? {
          rec := rec.(lastExitCode := e.exitCode);
        }
      }
      open := open[rk := rec];
    }

    /** Seeds open windows a previous process left, where none is held already. */
    method Resume(records: seq<(RecordKey, RestartRecord)>) returns (seeded: nat)
      modifies this
      ensures open == ResumedAll(old(open), records)
      ensures seeded == |open| - |old(open)|
    {
      open, seeded := Journals.Resume(open, records);
    }

    /** Hands over the records whose window ended, in payload order. */
    method CloseBefore(now: int) returns (out: seq<(RecordKey, RestartRecord)>)
      modifies this
      ensures open == StillOpen(length, old(open), now)
      ensures Sorted(RankOf, ClosedAt(length, old(open), now), out)
    {
      RanksDiffer(open.Keys);
      open, out := Journals.Close(length, open, now, RankOf);
    }
  }

  // ---- what a baseline means ----

  /** One status of a container: its count, and when it was seen. */
  datatype Sighting = Sighting(count: nat, at: int)

  predicate SameAs(key: ContainerKey, namespace: string, pod: string) {
    key.namespace == namespace && key.pod == pod
  }

  /** A container's statuses since its pod was last deleted. */
  function SightingsOf(key: ContainerKey, ops: seq<Op>): seq<Sighting> {
    if ops == [] then [] else
    var before := SightingsOf(key, ops[..|ops| - 1]);
    match Last(ops)
    case Seen(k, s, at) => if k == key then before + [Sighting(s.restartCount, at)] else before
    case PodGone(ns, pod) => if SameAs(key, ns, pod) then [] else before
    case Close(_) => before
  }

  /** Where observation began: at the first status, or at the latest one showing a lower
      count than the status before it. */
  function BeganAt(xs: seq<Sighting>): nat
    requires xs != []
    ensures BeganAt(xs) < |xs|
  {
    if |xs| == 1 || Last(xs).count < xs[|xs| - 2].count then |xs| - 1 else BeganAt(xs[..|xs| - 1])
  }

  lemma BeganMore(xs: seq<Sighting>, x: Sighting)
    ensures var more := xs + [x];
      BeganAt(more) == if xs == [] || x.count < Last(xs).count then |xs| else BeganAt(xs)
  {
    assert (xs + [x])[..|xs + [x]| - 1] == xs;
  }

  /** A container has a baseline exactly while it has been seen since its pod was deleted:
      the count is the latest one seen, the count before observation and the instant are
      those of the status observation began with. */
  lemma {:induction false} BaselineMeaning(length: int, ops: seq<Op>, key: ContainerKey)
    requires length > 0
    ensures var b, xs := RunOps(length, Watch(map[], map[], []), ops).baselines, SightingsOf(key, ops);
      && (key in b <==> xs != [])
      && (xs != [] ==>
            b[key] == Baseline(Last(xs).count, xs[BeganAt(xs)].count, xs[BeganAt(xs)].at))
  {
    hide ObserveRestart, BeganAt;
    if ops != [] {
      var init, op := ops[..|ops| - 1], Last(ops);
      BaselineMeaning(length, init, key);
      var xs := SightingsOf(key, init);
      if op.Seen? && op.key == key {
        BeganMore(xs, Sighting(op.status.restartCount, op.at));
      }
    }
  }

  /** How far a container's statuses show its counter rising, a fall or a first sight being
      none. */
  function RisesSeen(key: ContainerKey, ops: seq<Op>): nat {
    if ops == [] then 0 else
    var init, op := ops[..|ops| - 1], Last(ops);
    RisesSeen(key, init) + if op.Seen? && op.key == key then RiseOf(SightingsOf(key, init), op.status.restartCount)
      else 0
  }

  function RiseOf(xs: seq<Sighting>, count: nat): nat {
    if xs == [] || count < Last(xs).count then 0 else count - Last(xs).count
  }

  lemma {:induction false} AdvancesAreRises(length: int, ops: seq<Op>, key: ContainerKey)
    requires length > 0
    ensures Advances(length, Watch(map[], map[], []), ops, key) == RisesSeen(key, ops)
  {
    hide RunOps, BeganAt;
    if ops != [] {
      AdvancesAreRises(length, ops[..|ops| - 1], key);
      BaselineMeaning(length, ops[..|ops| - 1], key);
    }
  }

  /** A container's journaled restarts over all windows are the rises its statuses show. */
  lemma RestartsMeaning(length: int, ops: seq<Op>, key: ContainerKey)
    requires length > 0
    ensures Everywhere(key, RunOps(length, Watch(map[], map[], []), ops)) == RisesSeen(key, ops)
  {
    hide RunOps, Advances, RisesSeen;
    JournalAccounts(length, Watch(map[], map[], []), ops, key);
    AdvancesAreRises(length, ops, key);
    NothingJournaled(key);
  }

  lemma NothingJournaled(key: ContainerKey)
    ensures Everywhere(key, Watch(map[], map[], [])) == 0
  {
  }

  // ---- what a record means ----

  /** The reason an event is counted under: its own where it is one of the eight the agent
      knows, "other" otherwise. */
  function CountedUnder(reason: string): string {
    if reason == "OOMKilled" || reason == "Error" || reason == "Completed" || reason == "ContainerCannotRun"
       || reason == "ContainerStatusUnknown" || reason == "DeadlineExceeded" || reason == "StartError"
       || reason == "Evicted"
    then reason else "other"
  }

  /** The events of a container in one aligned window. */
  function EventsIn(length: int, es: seq<Restart>, k: RecordKey): seq<Restart>
    requires length > 0
  {
    if es == [] then [] else
    var e := Last(es);
    EventsIn(length, es[..|es| - 1], k)
    + if e.restarts > 0 && e.key == k.of && k.start % length == 0 && k.start <= e.at < k.start + length then [e] else []
  }

  function RestartSum(es: seq<Restart>): int {
    if es == [] then 0 else RestartSum(es[..|es| - 1]) + Last(es).restarts
  }

  /** Events that came with a reason counted under this one. */
  function ReasonCount(es: seq<Restart>, reason: string): nat {
    if es == [] then 0 else
    ReasonCount(es[..|es| - 1], reason)
    + if Last(es).reason != "" && CountedUnder(Last(es).reason) == reason then 1 else 0
  }

  /** Events that came with a reason at all. */
  function Explained(es: seq<Restart>): nat {
    if es == [] then 0 else Explained(es[..|es| - 1]) + if Last(es).reason != "" then 1 else 0
  }

  /** The exit code of the latest event that came with a reason and a code. */
  function LatestExit(es: seq<Restart>): Option<int> {
    if es == [] then None
    else if Last(es).reason != "" && Last(es).exitCode.Some? then Last(es).exitCode
    else LatestExit(es[..|es| - 1])
  }

  ghost predicate Tells(r: RestartRecord, es: seq<Restart>) {
    && r.restarts == RestartSum(es)
    && r.reasonsUnobserved == RestartSum(es) - Explained(es)
    && r.lastExitCode == LatestExit(es)
    && (forall b :: b in r.reasons <==> ReasonCount(es, b) > 0)
    && (forall b :: b in r.reasons ==> r.reasons[b] == ReasonCount(es, b))
  }

  lemma BucketIs(reason: string)
    ensures Bucket(reason) == CountedUnder(reason)
  {
  }

  lemma FoldedTells(r: RestartRecord, es: seq<Restart>, e: Restart)
    requires Tells(r, es)
    ensures Tells(Folded(r, e), es + [e])
  {
    hide Bucket, CountedUnder;
    assert (es + [e])[..|es + [e]| - 1] == es;
    BucketIs(e.reason);
  }

  function ObserveRestarts(length: int, open: Journal, es: seq<Restart>): Journal
    requires length > 0
  {
    if es == [] then open else ObserveRestart(length, ObserveRestarts(length, open, es[..|es| - 1]), Last(es))
  }

  /** A window of a container has a record exactly when an event falls in it; its restarts
      add up, each reason is counted under its own name or as other, what came without a
      reason is unobserved, and the exit code is the latest one given. */
  lemma {:induction false} JournalMeaning(length: int, es: seq<Restart>, k: RecordKey)
    requires length > 0
    ensures var open, mine := ObserveRestarts(length, map[], es), EventsIn(length, es, k);
      && (k in open <==> mine != [])
      && (k in open ==> Tells(open[k], mine))
  {
    hide Folded, Tells, StartOf;
    if es != [] {
      var init, e := es[..|es| - 1], Last(es);
      JournalMeaning(length, init, k);
      var mine := EventsIn(length, init, k);
      StartOfUnique(length, e.at, k.start);
      if e.restarts > 0 && Slot(e.key, StartOf(length, e.at)) == k {
        NothingTells();
        var open := ObserveRestarts(length, map[], init);
        FoldedTells(if k in open then open[k] else NO_RESTARTS, mine, e);
      } else {
        assert mine + [] == mine;
      }
    }
  }

  lemma NothingTells()
    ensures Tells(NO_RESTARTS, [])
  {
  }

  /** The events a run reports: a container, when, by how much, and the status's own reason
      and exit code. */
  function EventsOf(ops: seq<Op>): seq<Restart> {
    if ops == [] then [] else
    var init, op := ops[..|ops| - 1], Last(ops);
    EventsOf(init) +
    if op.Seen? && RiseOf(SightingsOf(op.key, init), op.status.restartCount) > 0
    then [Restart(op.key, op.at, RiseOf(SightingsOf(op.key, init), op.status.restartCount), op.status.reason,
      op.status.exitCode)]
    else []
  }

  /** Between closings the journal is that of the reported events. */
  lemma {:induction false} RunJournals(length: int, ops: seq<Op>)
    requires length > 0 && forall op :: op in ops ==> !op.Close?
    ensures RunOps(length, Watch(map[], map[], []), ops).open == ObserveRestarts(length, map[], EventsOf(ops))
  {
    hide ObserveRestart, BeganAt;
    if ops != [] {
      var init, op := ops[..|ops| - 1], Last(ops);
      assert op in ops;
      RunJournals(length, init);
      if op.Seen? {
        BaselineMeaning(length, init, op.key);
        var es := EventsOf(init);
        var n := RiseOf(SightingsOf(op.key, init), op.status.restartCount);
        var e := Restart(op.key, op.at, n, op.status.reason, op.status.exitCode);
        assert (es + [e])[..|es + [e]| - 1] == es && es + [] == es;
      } else {
        assert EventsOf(init) + [] == EventsOf(init);
      }
    }
  }
}
