/** The Go inventory store: node reports joined into per-build peaks, ports and
    counters (internal/inventory/store.go, internal/nodescan/listeners.go). */
module Inventory {
  import opened Basics
  import opened NodeIndexes
  import opened Orders
  import Modules

  datatype Key = Key(namespace: string, workloadKind: string, workloadName: string, container: string)

  datatype BuildKey = BuildKey(key: Key, imageDigest: string)

  /** Records are written by namespace, workload kind, workload name, container and digest. */
  function BuildRank(k: BuildKey): Rank {
    Rank(0, [k.key.namespace, k.key.workloadKind, k.key.workloadName, k.key.container, k.imageDigest])
  }

  /** Namespace, workload kind, workload name, container, then digest. */
  lemma BuildOrderIs(a: BuildKey, b: BuildKey)
    ensures RankLess(BuildRank(a), BuildRank(b)) <==>
      (NameLess(a.key.namespace, b.key.namespace)
       || (a.key.namespace == b.key.namespace
           && (NameLess(a.key.workloadKind, b.key.workloadKind)
               || (a.key.workloadKind == b.key.workloadKind
                   && (NameLess(a.key.workloadName, b.key.workloadName)
                       || (a.key.workloadName == b.key.workloadName
                           && (NameLess(a.key.container, b.key.container)
                               || (a.key.container == b.key.container
                                   && NameLess(a.imageDigest, b.imageDigest)))))))))
  {
    hide NamesLess;
    var x, y := a.key, b.key;
    ThreeNames(x.workloadName, x.container, a.imageDigest, y.workloadName, y.container, b.imageDigest);
    var u, v := [x.workloadName, x.container, a.imageDigest], [y.workloadName, y.container, b.imageDigest];
    FirstDecides(x.workloadKind, u, y.workloadKind, v);
    FirstDecides(x.namespace, [x.workloadKind] + u, y.namespace, [y.workloadKind] + v);
    assert BuildRank(a).names == [x.namespace] + ([x.workloadKind] + u);
    assert BuildRank(b).names == [y.namespace] + ([y.workloadKind] + v);
  }

  lemma BuildRanksDiffer(keys: set<BuildKey>)
    ensures Injective(BuildRank, keys)
  {
    forall a: BuildKey, b: BuildKey | BuildRank(a) == BuildRank(b)
      ensures a == b
    {
      assert BuildRank(a).names[0] == BuildRank(b).names[0];
      assert BuildRank(a).names[1] == BuildRank(b).names[1];
      assert BuildRank(a).names[2] == BuildRank(b).names[2];
      assert BuildRank(a).names[3] == BuildRank(b).names[3];
      assert BuildRank(a).names[4] == BuildRank(b).names[4];
    }
  }

  datatype Footprint = Footprint(
    rssAnonBytes: int, rssFileBytes: int, pssBytes: int, privateDirtyBytes: int,
    threads: int, openFiles: int, openFilesLimit: int)

  const NO_FOOTPRINT: Footprint := Footprint(0, 0, 0, 0, 0, 0, 0)

  datatype ListeningPort = ListeningPort(port: int, loopback: bool)

  datatype CounterDelta = CounterDelta(
    observedNanos: int, onCPUNanos: int, runDelayNanos: int, cpuUserNanos: int, cpuSystemNanos: int,
    majorFaults: int, voluntarySwitches: int, nonvoluntarySwitches: int, readBytes: int, writeBytes: int)

  /** One binary of a node report. */
  datatype Binary = Binary(
    goVersion: string, mainModule: string, pgo: bool, dependencies: seq<Modules.Module>,
    settings: map<string, string>, goDebug: map<string, string>, hasPprof: bool,
    peakRSSBytes: int, cpusAllowed: int, footprint: Footprint,
    listeningPorts: seq<ListeningPort>, counters: Option<CounterDelta>)

  /** A binary attributed to a container of a build. */
  datatype Fact = Fact(build: BuildKey, binary: Binary)

  // ---- peaks ----

  datatype NodePeaks = NodePeaks(
    processes: nat, peakRSSBytes: nat, cpusMin: nat, cpusMax: nat,
    rssAnonBytes: nat, rssFileBytes: nat, pssBytes: nat, privateDirtyBytes: nat,
    threads: nat, openFiles: nat, filesLimitMin: nat)

  const NO_PEAKS: NodePeaks := NodePeaks(0, 0, 0, 0, 0, 0, 0, 0, 0, 0, 0)

  function MaxNat(a: nat, b: nat): nat { if a >= b then a else b }

  /** The smaller of two limits, zero meaning not read. */
  function MinRead(a: nat, b: nat): nat {
    if a == 0 then b else if b == 0 || a <= b then a else b
  }

  function PlusPeaks(a: NodePeaks, b: NodePeaks): NodePeaks {
    NodePeaks(
      a.processes + b.processes, MaxNat(a.peakRSSBytes, b.peakRSSBytes),
      MinRead(a.cpusMin, b.cpusMin), MaxNat(a.cpusMax, b.cpusMax),
      MaxNat(a.rssAnonBytes, b.rssAnonBytes), MaxNat(a.rssFileBytes, b.rssFileBytes),
      MaxNat(a.pssBytes, b.pssBytes), MaxNat(a.privateDirtyBytes, b.privateDirtyBytes),
      MaxNat(a.threads, b.threads), MaxNat(a.openFiles, b.openFiles),
      MinRead(a.filesLimitMin, b.filesLimitMin))
  }

  const PEAKS: Monoid<NodePeaks> := Monoid(NO_PEAKS, PlusPeaks)

  function NonNegative(n: int): nat { if n > 0 then n else 0 }

  /** What one process adds: nothing where its status could not be read. */
  function PeakUnit(f: Fact): Option<NodePeaks> {
    var b := f.binary;
    if b.peakRSSBytes == 0 && b.cpusAllowed == 0 && b.footprint == NO_FOOTPRINT then None else
    var p := b.footprint;
    Some(NodePeaks(
      1, NonNegative(b.peakRSSBytes), NonNegative(b.cpusAllowed), NonNegative(b.cpusAllowed),
      NonNegative(p.rssAnonBytes), NonNegative(p.rssFileBytes), NonNegative(p.pssBytes),
        NonNegative(p.privateDirtyBytes),
      NonNegative(p.threads), NonNegative(p.openFiles), NonNegative(p.openFilesLimit)))
  }

  lemma MinReadLaws(a: nat, b: nat, c: nat)
    ensures MinRead(a, b) == MinRead(b, a) && MinRead(MinRead(a, b), c) == MinRead(a, MinRead(b, c))
  {
  }

  lemma PeaksCommutative()
    ensures Commutative(PEAKS)
  {
    hide MinRead, MaxNat;
    forall a: NodePeaks
      ensures PEAKS.plus(PEAKS.zero, a) == a
    {
      PeaksUnit(a);
    }
    forall a: NodePeaks, b: NodePeaks
      ensures PEAKS.plus(a, b) == PEAKS.plus(b, a)
    {
      PeaksSwap(a, b);
    }
    forall a: NodePeaks, b: NodePeaks, c: NodePeaks
      ensures PEAKS.plus(PEAKS.plus(a, b), c) == PEAKS.plus(a, PEAKS.plus(b, c))
    {
      PeaksRegroup(a, b, c);
    }
  }

  lemma PeaksUnit(a: NodePeaks)
    ensures PlusPeaks(NO_PEAKS, a) == a
  {
  }

  lemma PeaksSwap(a: NodePeaks, b: NodePeaks)
    ensures PlusPeaks(a, b) == PlusPeaks(b, a)
  {
  }

  lemma PeaksRegroup(a: NodePeaks, b: NodePeaks, c: NodePeaks)
    ensures PlusPeaks(PlusPeaks(a, b), c) == PlusPeaks(a, PlusPeaks(b, c))
  {
    hide MinRead;
    MinReadLaws(a.cpusMin, b.cpusMin, c.cpusMin);
    MinReadLaws(a.filesLimitMin, b.filesLimitMin, c.filesLimitMin);
  }

  // ---- counters ----

  datatype NodeCounters = NodeCounters(processes: nat, delta: CounterDelta)

  const NO_COUNTERS: NodeCounters := NodeCounters(0, CounterDelta(0, 0, 0, 0, 0, 0, 0, 0, 0, 0))

  function PlusDelta(a: CounterDelta, b: CounterDelta): CounterDelta {
    CounterDelta(
      a.observedNanos + b.observedNanos, a.onCPUNanos + b.onCPUNanos, a.runDelayNanos + b.runDelayNanos,
      a.cpuUserNanos + b.cpuUserNanos, a.cpuSystemNanos + b.cpuSystemNanos, a.majorFaults + b.majorFaults,
      a.voluntarySwitches + b.voluntarySwitches, a.nonvoluntarySwitches + b.nonvoluntarySwitches,
      a.readBytes + b.readBytes, a.writeBytes + b.writeBytes)
  }

  function PlusCounters(a: NodeCounters, b: NodeCounters): NodeCounters {
    NodeCounters(a.processes + b.processes, PlusDelta(a.delta, b.delta))
  }

  const COUNTERS: Monoid<NodeCounters> := Monoid(NO_COUNTERS, PlusCounters)

  function CounterUnit(f: Fact): Option<NodeCounters> {
    match f.binary.counters
    case None => None
    case Some(d) => Some(NodeCounters(1, d))
  }

  lemma CountersCommutative()
    ensures Commutative(COUNTERS)
  {
  }

  // ---- ports ----

  /** A port list as the ports it names: loopback only where every binding is. */
  type Ports = map<int, bool>

  function Union(a: Ports, b: Ports): Ports {
    map p | p in a.Keys + b.Keys :: (p in a ==> a[p]) && (p in b ==> b[p])
  }

  const PORTS: Monoid<Ports> := Monoid(map[], Union)

  function PortsOf(list: seq<ListeningPort>): Ports {
    if list == [] then map[]
    else Union(PortsOf(list[..|list| - 1]), map[Last(list).port := Last(list).loopback])
  }

  function PortUnit(f: Fact): Option<Ports> {
    if f.binary.listeningPorts == [] then None else Some(PortsOf(f.binary.listeningPorts))
  }

  lemma UnionAt(a: Ports, b: Ports, p: int)
    ensures p in Union(a, b) <==> p in a || p in b
    ensures p in Union(a, b) ==> Union(a, b)[p] == ((p in a ==> a[p]) && (p in b ==> b[p]))
  {
  }

  lemma UnionCommutes(a: Ports, b: Ports)
    ensures Union(a, b) == Union(b, a)
  {
  }

  lemma UnionAssociates(a: Ports, b: Ports, c: Ports)
    ensures Union(Union(a, b), c) == Union(a, Union(b, c))
  {
    hide Union;
    var l, r := Union(Union(a, b), c), Union(a, Union(b, c));
    forall p
      ensures p in l <==> p in r
      ensures p in l && p in r ==> l[p] == r[p]
    {
      UnionAt(a, b, p);
      UnionAt(b, c, p);
      UnionAt(Union(a, b), c, p);
      UnionAt(a, Union(b, c), p);
    }
    assert l == r;
  }

  /** Merging a list with itself or with nothing changes nothing. */
  lemma UnionIdempotent(a: Ports)
    ensures Union(a, a) == a && Union(map[], a) == a
  {
  }

  lemma PortsCommutative()
    ensures Commutative(PORTS)
  {
    hide Union;
    forall a: Ports
      ensures PORTS.plus(PORTS.zero, a) == a
    {
      UnionIdempotent(a);
    }
    forall a: Ports, b: Ports
      ensures PORTS.plus(a, b) == PORTS.plus(b, a)
    {
      UnionCommutes(a, b);
    }
    forall a: Ports, b: Ports, c: Ports
      ensures PORTS.plus(PORTS.plus(a, b), c) == PORTS.plus(a, PORTS.plus(b, c))
    {
      UnionAssociates(a, b, c);
    }
  }

  // ---- what a report contributes per build ----

  function Gather<M>(facts: seq<Fact>, unit: Fact -> Option<M>, g: Monoid<M>): map<BuildKey, M> {
    if facts == [] then map[] else
    var before, f := Gather(facts[..|facts| - 1], unit, g), Last(facts);
    match unit(f)
    case None => before
    case Some(u) => before[f.build := g.plus(if f.build in before then before[f.build] else g.zero, u)]
  }

  function Kept(facts: seq<Fact>, live: set<Key>): seq<Fact> {
    if facts == [] then [] else
    Kept(facts[..|facts| - 1], live) + if Last(facts).build.key in live then [Last(facts)] else []
  }

  function LiveBuild(live: set<Key>): BuildKey -> bool { (k: BuildKey) => k.key in live }

  /** Restricting a report to live keys restricts its contributions, nothing else. */
  lemma {:induction false} GatherKept<M>(facts: seq<Fact>, live: set<Key>, unit: Fact -> Option<M>, g: Monoid<M>)
    ensures var all := Gather(facts, unit, g);
      Gather(Kept(facts, live), unit, g) == OnlyKeys(all, LiveBuild(live))
  {
    if facts != [] {
      var init, f := facts[..|facts| - 1], Last(facts);
      GatherKept(init, live, unit, g);
      if f.build.key in live {
        var kept := Kept(init, live) + [f];
        assert kept[..|kept| - 1] == Kept(init, live);
      } else {
        assert Kept(init, live) + [] == Kept(init, live);
      }
    }
  }

  // ---- one index over whole runs ----

  datatype Op =
    | Ingest(node: string, facts: seq<Fact>, at: int)
    | Retain(live: set<Key>)
    | RetainNodes(nodes: set<string>)

  function PutAll<M>(ix: Index<BuildKey, M>, node: string, facts: seq<Fact>, unit: Fact -> Option<M>,
      g: Monoid<M>): Index<BuildKey, M> {
    if facts == [] then ix else
    var before, f := PutAll(ix, node, facts[..|facts| - 1], unit, g), Last(facts);
    if unit(f).None? then before else
    GatherHas(facts, unit, g);
    Put(before, f.build, node, Gather(facts, unit, g)[f.build])
  }

  lemma GatherHas<M>(facts: seq<Fact>, unit: Fact -> Option<M>, g: Monoid<M>)
    requires facts != [] && unit(Last(facts)).Some?
    ensures Last(facts).build in Gather(facts, unit, g)
  {
  }

  function StepIndex<M>(ix: Index<BuildKey, M>, op: Op, unit: Fact -> Option<M>, g: Monoid<M>): Index<BuildKey, M> {
    match op
    case Ingest(node, facts, _) => Forgotten(PutAll(ix, node, facts, unit, g), node, Gather(facts, unit, g).Keys)
    case Retain(live) => KeepKeys(ix, LiveBuild(live))
    case RetainNodes(nodes) => KeepNodes(ix, nodes)
  }

  function RunIndex<M>(ops: seq<Op>, unit: Fact -> Option<M>, g: Monoid<M>): Index<BuildKey, M> {
    if ops == [] then map[] else StepIndex(RunIndex(ops[..|ops| - 1], unit, g), Last(ops), unit, g)
  }

  /** Each live node's latest report, restricted to the keys retained since. */
  function StepLatest(latest: map<string, seq<Fact>>, op: Op): map<string, seq<Fact>> {
    match op
    case Ingest(node, facts, _) => latest[node := facts]
    case Retain(live) => map n | n in latest :: Kept(latest[n], live)
    case RetainNodes(nodes) => map n | n in latest && n in nodes :: latest[n]
  }

  function RunLatest(ops: seq<Op>): map<string, seq<Fact>> {
    if ops == [] then map[] else StepLatest(RunLatest(ops[..|ops| - 1]), Last(ops))
  }

  function Contributed<M>(latest: map<string, seq<Fact>>, unit: Fact -> Option<M>, g: Monoid<M>): Latest<BuildKey, M> {
    map n | n in latest :: Gather(latest[n], unit, g)
  }

  lemma {:induction false} PutAllOverlaid<M(!new)>(ix: Index<BuildKey, M>, node: string, facts: seq<Fact>,
      unit: Fact -> Option<M>, g: Monoid<M>)
    requires NoEmpty(ix)
    ensures Overlaid(ix, node, Gather(facts, unit, g), PutAll(ix, node, facts, unit, g))
  {
    hide NoEmpty;
    if facts != [] {
      var init, f := facts[..|facts| - 1], Last(facts);
      PutAllOverlaid(ix, node, init, unit, g);
      if unit(f).Some? {
        PutOverlaid(ix, node, Gather(init, unit, g), PutAll(ix, node, init, unit, g), f.build,
          Gather(facts, unit, g)[f.build]);
      }
    }
  }

  lemma StepAgrees<M(!new)>(ix: Index<BuildKey, M>, latest: map<string, seq<Fact>>, op: Op, unit: Fact -> Option<M>,
      g: Monoid<M>)
    requires Agrees(ix, Contributed(latest, unit, g))
    ensures Agrees(StepIndex(ix, op, unit, g), Contributed(StepLatest(latest, op), unit, g))
  {
    hide Agrees, Overlaid, NoEmpty, Gather, PutAll, Kept, Forgotten, KeepKeys, KeepNodes, OnlyKeys;
    var was, now := Contributed(latest, unit, g), Contributed(StepLatest(latest, op), unit, g);
    match op
    case Ingest(node, facts, _) =>
      AgreesNoEmpty(ix, was);
      PutAllOverlaid(ix, node, facts, unit, g);
      ReplaceAgrees(ix, was, node, Gather(facts, unit, g), PutAll(ix, node, facts, unit, g));
      assert now == was[node := Gather(facts, unit, g)];
    case Retain(live) =>
      KeepKeysAgrees(ix, was, LiveBuild(live));
      forall n | n in latest
        ensures now[n] == OnlyKeys(was[n], LiveBuild(live))
      {
        GatherKept(latest[n], live, unit, g);
      }
      assert now == LatestOfKeys(was, LiveBuild(live));
    case RetainNodes(nodes) =>
      KeepNodesAgrees(ix, was, nodes);
      assert now == LatestOfNodes(was, nodes);
  }

  lemma AgreesNoEmpty<K(!new), M(!new)>(ix: Index<K, M>, latest: Latest<K, M>)
    requires Agrees(ix, latest)
    ensures NoEmpty(ix)
  {
  }

  /** Main result, inventory agreement: after any sequence of reports, retentions
      and node departures, each index holds exactly what a recomputation from the
      live nodes' latest reports, restricted to the retained keys, would hold. */
  lemma {:induction false} IndexAgreement<M(!new)>(ops: seq<Op>, unit: Fact -> Option<M>, g: Monoid<M>)
    ensures Agrees(RunIndex(ops, unit, g), Contributed(RunLatest(ops), unit, g))
  {
    hide StepIndex, StepLatest, Gather;
    if ops != [] {
      IndexAgreement(ops[..|ops| - 1], unit, g);
      StepAgrees(RunIndex(ops[..|ops| - 1], unit, g), RunLatest(ops[..|ops| - 1]), Last(ops), unit, g);
    }
  }

  /** So the incrementally maintained index is the recomputed one. */
  lemma IndexIsRecomputed<M(!new)>(ops: seq<Op>, unit: Fact -> Option<M>, g: Monoid<M>)
    ensures RunIndex(ops, unit, g) == Recomputed(Contributed(RunLatest(ops), unit, g))
  {
    hide RunIndex, RunLatest, Contributed, Recomputed, Agrees;
    var latest := Contributed(RunLatest(ops), unit, g);
    IndexAgreement(ops, unit, g);
    RecomputedAgrees(latest);
    AgreesUnique(RunIndex(ops, unit, g), Recomputed(latest), latest);
  }

  // ---- snapshots ----

  /** Per node, what the latest reports state for one build. */
  function StatedFor<M>(latest: map<string, seq<Fact>>, k: BuildKey, unit: Fact -> Option<M>,
      g: Monoid<M>): map<string, M> {
    map n | n in latest && k in Gather(latest[n], unit, g) :: Gather(latest[n], unit, g)[k]
  }

  ghost function Snapshot<M(!new)>(g: Monoid<M>, ix: Index<BuildKey, M>): map<BuildKey, M> {
    map k | k in ix :: Sum(g, ix[k])
  }

  /** The snapshot has a record for a build exactly when some live node's latest
      report still states something for it, and that record is the sum of exactly
      those statements. */
  lemma SnapshotAgreement<M(!new)>(ops: seq<Op>, unit: Fact -> Option<M>, g: Monoid<M>, k: BuildKey)
    ensures var snap, stated := Snapshot(g, RunIndex(ops, unit, g)), StatedFor(RunLatest(ops), k, unit, g);
      && (k in snap <==> stated != map[])
      && (k in snap ==> snap[k] == Sum(g, stated))
      && (k in snap ==> RunIndex(ops, unit, g)[k] == stated)
  {
    hide Gather, RunIndex, RunLatest;
    var ix, latest := RunIndex(ops, unit, g), RunLatest(ops);
    var stated := StatedFor(latest, k, unit, g);
    IndexAgreement(ops, unit, g);
    forall n
      ensures n in stated <==> k in ix && n in ix[k]
      ensures n in stated ==> k in ix && n in ix[k] && stated[n] == ix[k][n]
    {
      assert Lookup(ix, k, n) == Stated(Contributed(latest, unit, g), k, n);
    }
    if k in ix {
      assert ix[k] == stated;
    }
  }

  // ---- how current a record is ----

  /** The earlier of two instants, the zero instant meaning never. */
  function Earlier(a: int, b: int): int {
    if a == 0 || (b != 0 && b < a) then b else a
  }

  const OLDEST: Monoid<int> := Monoid(0, Earlier)

  lemma OldestCommutative()
    ensures Commutative(OLDEST)
  {
  }

  function AssertedBy(reported: map<string, int>, nodes: set<string>): map<string, int> {
    map n | n in nodes :: if n in reported then reported[n] else 0
  }

  /** The earliest instant among those that are set. */
  ghost predicate IsOldest(m: map<string, int>, v: int) {
    && (forall n :: n in m && m[n] != 0 ==> v != 0 && v <= m[n])
    && (v != 0 ==> exists n :: n in m && m[n] == v)
  }

  lemma OldestStep(m: map<string, int>, c: string, low: int)
    requires c in m && IsOldest(m - {c}, low)
    ensures IsOldest(m, Earlier(m[c], low))
  {
    var rest := m - {c};
    var v := Earlier(m[c], low);
    assert forall n :: n in m && n != c ==> n in rest && rest[n] == m[n];
    if v != 0 && v != m[c] {
      var n :| n in rest && rest[n] == low;
      assert n in m && m[n] == v;
    }
  }

  /** The fold over contributing nodes is the oldest of their latest reports. */
  lemma {:induction false} OldestIsMinimum(m: map<string, int>)
    ensures IsOldest(m, Sum(OLDEST, m))
    decreases |m|
  {
    if m != map[] {
      hide Commutative, IsOldest;
      OldestCommutative();
      var c :| c in m;
      SumRemove(OLDEST, m, c);
      SizeDrops(m, c);
      OldestIsMinimum(m - {c});
      OldestStep(m, c, Sum(OLDEST, m - {c}));
    }
  }

  // ---- no record of a snapshot is empty ----

  /** A property every unit has and no sum loses. */
  ghost predicate Lasting<M(!new)>(unit: Fact -> Option<M>, g: Monoid<M>, big: M -> bool) {
    && (forall f :: unit(f).Some? ==> big(unit(f).value))
    && (forall a, b :: big(a) || big(b) ==> big(g.plus(a, b)))
  }

  lemma {:induction false} GatherLasting<M(!new)>(facts: seq<Fact>, unit: Fact -> Option<M>, g: Monoid<M>,
      big: M -> bool)
    requires Lasting(unit, g, big)
    ensures forall k :: k in Gather(facts, unit, g) ==> big(Gather(facts, unit, g)[k])
  {
    if facts != [] {
      GatherLasting(facts[..|facts| - 1], unit, g, big);
    }
  }

  lemma SumLasting<M(!new)>(g: Monoid<M>, m: map<string, M>, n: string, big: M -> bool, unit: Fact -> Option<M>)
    requires Commutative(g) && Lasting(unit, g, big) && n in m && big(m[n])
    ensures big(Sum(g, m))
  {
    hide Commutative;
    SumRemove(g, m, n);
  }

  lemma IndexedLasts<M(!new)>(ops: seq<Op>, unit: Fact -> Option<M>, g: Monoid<M>, big: M -> bool, k: BuildKey)
    requires Commutative(g) && Lasting(unit, g, big) && k in RunIndex(ops, unit, g)
    ensures big(Sum(g, RunIndex(ops, unit, g)[k]))
  {
    hide Commutative, Gather, RunIndex, RunLatest, Lasting;
    SnapshotAgreement(ops, unit, g, k);
    var stated := StatedFor(RunLatest(ops), k, unit, g);
    var n :| n in stated;
    GatherLasting(RunLatest(ops)[n], unit, g, big);
    SumLasting(g, stated, n, big, unit);
  }

  /** Every build the peak, counter or port index holds has something to show: the
      record without processes or ports that a snapshot would skip never arises. */
  lemma SnapshotNeverEmpty(ops: seq<Op>, k: BuildKey)
    ensures k in RunIndex(ops, PeakUnit, PEAKS) ==> Sum(PEAKS, RunIndex(ops, PeakUnit, PEAKS)[k]).processes > 0
    ensures k in RunIndex(ops, CounterUnit, COUNTERS) ==>
      Sum(COUNTERS, RunIndex(ops, CounterUnit, COUNTERS)[k]).processes > 0
    ensures k in RunIndex(ops, PortUnit, PORTS) ==> Sum(PORTS, RunIndex(ops, PortUnit, PORTS)[k]) != map[]
  {
    hide Commutative, RunIndex, Lasting;
    UnitsLast();
    PeaksCommutative();
    CountersCommutative();
    PortsCommutative();
    if k in RunIndex(ops, PeakUnit, PEAKS) {
      IndexedLasts(ops, PeakUnit, PEAKS, (p: NodePeaks) => p.processes > 0, k);
    }
    if k in RunIndex(ops, CounterUnit, COUNTERS) {
      IndexedLasts(ops, CounterUnit, COUNTERS, (c: NodeCounters) => c.processes > 0, k);
    }
    if k in RunIndex(ops, PortUnit, PORTS) {
      IndexedLasts(ops, PortUnit, PORTS, (p: Ports) => p != map[], k);
    }
  }

  lemma UnitsLast()
    ensures Lasting(PeakUnit, PEAKS, (p: NodePeaks) => p.processes > 0)
    ensures Lasting(CounterUnit, COUNTERS, (c: NodeCounters) => c.processes > 0)
    ensures Lasting(PortUnit, PORTS, (p: Ports) => p != map[])
  {
    hide Union;
    forall f: Fact | PortUnit(f).Some?
      ensures PortUnit(f).value != map[]
    {
      var list := f.binary.listeningPorts;
      UnionAt(PortsOf(list[..|list| - 1]), map[Last(list).port := Last(list).loopback], Last(list).port);
    }
    forall a: Ports, b: Ports | a != map[] || b != map[]
      ensures PORTS.plus(a, b) != map[]
    {
      UnionNonEmpty(a, b);
    }
  }

  lemma UnionNonEmpty(a: Ports, b: Ports)
    requires a != map[] || b != map[]
    ensures Union(a, b) != map[]
  {
    if a != map[] {
      var p := SomeKey(a);
      UnionAt(a, b, p);
    } else {
      var p := SomeKey(b);
      UnionAt(a, b, p);
    }
  }

  // ---- builds and what was written of them ----

  datatype BuildOp = File(digest: string) | Drop(referenced: set<string>) | Mark(digest: string)

  /** The digests held and the digests written. */
  datatype Builds = Builds(held: set<string>, written: set<string>)

  function StepBuilds(b: Builds, op: BuildOp): Builds {
    match op
    case File(d) => b.(held := b.held + {d})
    case Drop(referenced) => Builds(b.held * referenced, b.written - (b.held - referenced))
    case Mark(d) => b.(written := b.written + {d})
  }

  function RunBuilds(ops: seq<BuildOp>): Builds {
    if ops == [] then Builds({}, {}) else StepBuilds(RunBuilds(ops[..|ops| - 1]), Last(ops))
  }

  /** Every mark names a build held at that moment. */
  predicate MarksHeld(ops: seq<BuildOp>) {
    ops == [] || (MarksHeld(ops[..|ops| - 1])
      && (Last(ops).Mark? ==> Last(ops).digest in RunBuilds(ops[..|ops| - 1]).held))
  }

  /** Nothing is remembered as written that is not held, at any point of a run. */
  ghost predicate NothingHidden(ops: seq<BuildOp>) {
    forall n :: 0 <= n <= |ops| ==> RunBuilds(ops[..n]).written <= RunBuilds(ops[..n]).held
  }

  lemma BuildsStep(b: Builds, op: BuildOp)
    requires b.written <= b.held
    ensures StepBuilds(b, op).written <= StepBuilds(b, op).held <==> (op.Mark? ==> op.digest in b.held)
  {
  }

  /** The condition is exact: written builds stay held ones through a whole run if
      and only if every mark names a build held when it arrives. */
  lemma {:induction false} HiddenIff(ops: seq<BuildOp>)
    ensures NothingHidden(ops) <==> MarksHeld(ops)
  {
    if ops != [] {
      hide StepBuilds;
      var init := ops[..|ops| - 1];
      HiddenIff(init);
      assert ops[..|ops|] == ops && init[..|init|] == init;
      assert forall n :: 0 <= n <= |init| ==> init[..n] == ops[..n];
      if NothingHidden(init) {
        assert RunBuilds(init[..|init|]).written <= RunBuilds(init[..|init|]).held;
        BuildsStep(RunBuilds(init), Last(ops));
      }
      assert NothingHidden(ops) ==>
        NothingHidden(init) && RunBuilds(ops[..|ops|]).written <= RunBuilds(ops[..|ops|]).held;
    } else {
      assert ops[..0] == [];
    }
  }

  /** So a build that left and comes back is pending again. */
  lemma ReturningBuildPending(ops: seq<BuildOp>, digest: string)
    requires MarksHeld(ops) && digest !in RunBuilds(ops).held
    ensures var after := StepBuilds(RunBuilds(ops), File(digest)); digest in after.held && digest !in after.written
  {
    HiddenIff(ops);
    assert ops[..|ops|] == ops;
    assert RunBuilds(ops[..|ops|]).written <= RunBuilds(ops[..|ops|]).held;
  }

  /** A mark that arrives after its build was dropped hides the build when it
      comes back. */
  lemma LateMarkExample(digest: string)
    ensures var ops := [File(digest), Drop({}), Mark(digest), File(digest)];
      var b := RunBuilds(ops);
      digest in b.held && digest in b.written
  {
    var a, b, c, d := File(digest), Drop({}), Mark(digest), File(digest);
    assert [a, b, c, d][..3] == [a, b, c] && [a, b, c][..2] == [a, b] && [a, b][..1] == [a] && [a][..0] == [];
    assert RunBuilds([a]) == Builds({digest}, {});
    assert RunBuilds([a, b]) == Builds({}, {});
  }
}
