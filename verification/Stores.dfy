/** The inventory store as the object it is: nested maps replaced and deleted in
    place (internal/inventory/store.go, internal/nodescan/listeners.go). */
module Stores {
  import opened Basics
  import opened NodeIndexes
  import opened Inventory
  import opened Orders
  import Modules

  datatype GoRecord = GoRecord(goVersion: string, modulePath: string, imageDigest: string, pgo: bool, assertedAt: int)

  datatype BuildFacts = BuildFacts(
    goVersion: string, mainModule: string, modules: seq<Modules.Module>,
    settings: map<string, string>, goDebug: map<string, string>, hasPprof: bool)

  function FactsOf(b: Binary): BuildFacts {
    BuildFacts(b.goVersion, b.mainModule, Modules.ModulesOf(b.dependencies), b.settings, b.goDebug, b.hasPprof)
  }

  function DigestRank(digest: string): Rank { Rank(0, [digest]) }

  lemma DigestRanksDiffer(digests: set<string>)
    ensures Injective(DigestRank, digests)
  {
    forall a: string, b: string | DigestRank(a) == DigestRank(b)
      ensures a == b
    {
      assert DigestRank(a).names[0] == DigestRank(b).names[0];
    }
  }

  /** What a node's scan pass counted. */
  datatype ScanCounters = ScanCounters(
    processesScanned: int, goFound: int, filteredScope: int, filteredInfra: int, unreadable: int)

  /** Why a node is or is not profiling, and what it counted, by name. */
  datatype ProfilingCoverage = ProfilingCoverage(state: string, counts: map<string, int>)

  /** One node's report, each binary with the build the controller resolves it to. */
  datatype Report = Report(
    node: string, binaries: seq<(Binary, Option<BuildKey>)>, counters: ScanCounters,
      profiling: Option<ProfilingCoverage>)

  /** What one retention pass removed. */
  datatype Evicted = Evicted(records: int, builds: int, peaks: int, ports: int, counters: int)

  function Joined(bs: seq<(Binary, Option<BuildKey>)>): seq<Fact> {
    if bs == [] then [] else
    Joined(bs[..|bs| - 1]) + if Last(bs).1.Some? then [Fact(Last(bs).1.value, Last(bs).0)] else []
  }

  function RecordsAfter(records: map<Key, GoRecord>, facts: seq<Fact>, at: int): map<Key, GoRecord> {
    if facts == [] then records else
    var f := Last(facts);
    RecordsAfter(records, facts[..|facts| - 1], at)[f.build.key :=
      GoRecord(f.binary.goVersion, f.binary.mainModule, f.build.imageDigest, f.binary.pgo, at)]
  }

  /** Build facts are filed once per digest; a fact without one identifies no build. */
  function BuildsAfter(builds: map<string, BuildFacts>, facts: seq<Fact>): map<string, BuildFacts> {
    if facts == [] then builds else
    var before, f := BuildsAfter(builds, facts[..|facts| - 1]), Last(facts);
    var d := f.build.imageDigest;
    if d == "" || d in before then before else before[d := FactsOf(f.binary)]
  }

  function Undigested(facts: seq<Fact>): nat {
    if facts == [] then 0 else
    Undigested(facts[..|facts| - 1]) + if Last(facts).build.imageDigest == "" then 1 else 0
  }

  function LiveKey(live: set<Key>): Key -> bool { (k: Key) => k in live }

  /** The digests some record still names. */
  function Referenced(records: map<Key, GoRecord>): set<string> {
    set k | k in records && records[k].imageDigest != "" :: records[k].imageDigest
  }

  /** Filing one fact into one index: a build's first fact replaces what the node said
      in earlier reports, its later ones are added. */
  method FileFact<M(!new)>(
      ghost before: Index<BuildKey, M>, ghost done: seq<Fact>, ix: Index<BuildKey, M>, seen: set<BuildKey>,
      f: Fact, node: string, unit: Fact -> Option<M>, g: Monoid<M>)
    returns (out: Index<BuildKey, M>, touched: set<BuildKey>)
    requires NoEmpty(before)
    requires ix == PutAll(before, node, done, unit, g) && seen == Gather(done, unit, g).Keys
    ensures out == PutAll(before, node, done + [f], unit, g) && touched == Gather(done + [f], unit, g).Keys
  {
    hide NoEmpty;
    PutAllOverlaid(before, node, done, unit, g);
    assert (done + [f])[..|done + [f]| - 1] == done;
    out, touched := ix, seen;
    match unit(f) {
      case None =>
      case Some(u) =>
        var n := g.zero;
        if f.build in seen {
          assert Lookup(ix, f.build, node) == Some(Gather(done, unit, g)[f.build]);
          n := ix[f.build][node];
        }
        touched := seen + {f.build};
        out := Put(ix, f.build, node, g.plus(n, u));
    }
  }

  /** Filing a whole report into one index, then forgetting what it left out. */
  method FileAll<M(!new, ==)>(ix: Index<BuildKey, M>, node: string, facts: seq<Fact>, unit: Fact -> Option<M>,
      g: Monoid<M>)
    returns (out: Index<BuildKey, M>)
    requires NoEmpty(ix)
    ensures NoEmpty(out)
    ensures out == Forgotten(PutAll(ix, node, facts, unit, g), node, Gather(facts, unit, g).Keys)
  {
    hide NoEmpty, PutAll, Gather, Forgotten;
    out := ix;
    var seen: set<BuildKey> := {};
    NothingFiled(ix, node, unit, g);
    for i := 0 to |facts|
      invariant out == PutAll(ix, node, facts[..i], unit, g)
      invariant seen == Gather(facts[..i], unit, g).Keys
    {
      assert facts[..i + 1] == facts[..i] + [facts[i]];
      out, seen := FileFact(ix, facts[..i], out, seen, facts[i], node, unit, g);
    }
    assert facts[..|facts|] == facts;
    out := Forget(out, node, seen);
    StepNoEmpty(ix, node, facts, unit, g);
  }

  class Store {
    var records: map<Key, GoRecord>
    var builds: map<string, BuildFacts>
    var written: set<string>
    var peaks: Index<BuildKey, NodePeaks>
    var ports: Index<BuildKey, Ports>
    var counters: Index<BuildKey, NodeCounters>
    var nodesReported: map<string, int>
    var scans: map<string, ScanCounters>
    var profiling: map<string, ProfilingCoverage>
    var factsReceived: nat
    var factsJoined: nat
    var factsUnjoined: nat
    var factsUndigested: nat

    ghost predicate Valid()
      reads this`peaks, this`ports, this`counters, this`nodesReported, this`scans, this`profiling
    {
      && NoEmpty(peaks) && NoEmpty(ports) && NoEmpty(counters)
      && scans.Keys == nodesReported.Keys && profiling.Keys <= nodesReported.Keys
    }

    constructor ()
      ensures Valid()
      ensures peaks == map[] && ports == map[] && counters == map[] && nodesReported == map[]
      ensures scans == map[] && profiling == map[]
      ensures records == map[] && builds == map[] && written == {}
      ensures factsReceived == factsJoined == factsUnjoined == factsUndigested == 0
    {
      records, builds, written := map[], map[], {};
      peaks, ports, counters, nodesReported := map[], map[], map[], map[];
      scans, profiling := map[], map[];
      factsReceived, factsJoined, factsUnjoined, factsUndigested := 0, 0, 0, 0;
    }

    /** The joining half of a report: records upserted, builds filed, facts counted. */
    method Join(report: Report, at: int) returns (facts: seq<Fact>)
      modifies this`records, this`builds, this`factsReceived, this`factsJoined, this`factsUnjoined, this`factsUndigested
      ensures facts == Joined(report.binaries)
      ensures records == RecordsAfter(old(records), facts, at)
      ensures builds == BuildsAfter(old(builds), facts)
      ensures factsReceived == old(factsReceived) + |report.binaries|
      ensures factsJoined == old(factsJoined) + |facts|
      ensures factsReceived - factsJoined - factsUnjoined == old(factsReceived - factsJoined - factsUnjoined)
      ensures factsUndigested == old(factsUndigested) + Undigested(facts)
    {
      hide Joined, RecordsAfter, BuildsAfter, Undigested;
      facts := [];
      ghost var bs := report.binaries;
      NothingJoined(records, builds, at);
      for i := 0 to |report.binaries|
        invariant facts == Joined(bs[..i])
        invariant records == RecordsAfter(old(records), facts, at)
        invariant builds == BuildsAfter(old(builds), facts)
        invariant factsReceived == old(factsReceived) + i
        invariant factsJoined == old(factsJoined) + |facts|
        invariant factsReceived - factsJoined - factsUnjoined == old(factsReceived - factsJoined - factsUnjoined)
        invariant factsUndigested == old(factsUndigested) + Undigested(facts)
      {
        JoinedStep(bs, i);
        factsReceived := factsReceived + 1;
        var (b, resolved) := report.binaries[i];
        if resolved.None? {
          factsUnjoined := factsUnjoined + 1;
          continue;
        }
        factsJoined := factsJoined + 1;
        var f := Fact(resolved.value, b);
        FactStep(old(records), old(builds), facts, f, at);
        records := records[f.build.key := GoRecord(b.goVersion, b.mainModule, f.build.imageDigest, b.pgo, at)];
        IngestBuild(f);
        facts := facts + [f];
      }
      assert bs[..|bs|] == bs;
    }

    /** Who reported, when, and what it said of its own scan and profiling. */
    method Note(report: Report, at: int)
      requires Valid()
      modifies this`nodesReported, this`scans, this`profiling
      ensures Valid()
      ensures nodesReported == if report.node == "" then old(nodesReported) else old(nodesReported)[report.node := at]
      ensures scans == if report.node == "" then old(scans) else old(scans)[report.node := report.counters]
      ensures profiling == if report.node == "" || report.profiling.None? then old(profiling)
                           else old(profiling)[report.node := report.profiling.value]
    {
      hide NoEmpty;
      if report.node != "" {
        nodesReported := nodesReported[report.node := at];
        scans := scans[report.node := report.counters];
        if report.profiling.Some? {
          profiling := profiling[report.node := report.profiling.value];
        }
      }
    }

    /** Joins one node report: records are upserted, builds filed, and the node's
        contribution to each index is replaced wholesale. */
    method Ingest(report: Report, at: int)
      requires Valid()
      modifies this`peaks, this`ports, this`counters, this`nodesReported, this`scans, this`profiling,
        this`records, this`builds, this`factsReceived, this`factsJoined, this`factsUnjoined, this`factsUndigested
      ensures Valid()
      ensures var facts := Joined(report.binaries); var op := Inventory.Ingest(report.node, facts, at);
        && peaks == StepIndex(old(peaks), op, PeakUnit, PEAKS)
        && ports == StepIndex(old(ports), op, PortUnit, PORTS)
        && counters == StepIndex(old(counters), op, CounterUnit, COUNTERS)
        && records == RecordsAfter(old(records), facts, at)
        && builds == BuildsAfter(old(builds), facts)
        && factsJoined == old(factsJoined) + |facts|
        && factsUndigested == old(factsUndigested) + Undigested(facts)
      ensures nodesReported == if report.node == "" then old(nodesReported) else old(nodesReported)[report.node := at]
      ensures scans == if report.node == "" then old(scans) else old(scans)[report.node := report.counters]
      ensures profiling == if report.node == "" || report.profiling.None? then old(profiling)
                           else old(profiling)[report.node := report.profiling.value]
      ensures factsReceived == old(factsReceived) + |report.binaries|
      ensures factsReceived - factsJoined - factsUnjoined == old(factsReceived - factsJoined - factsUnjoined)
    {
      hide Valid, StepIndex, Joined, RecordsAfter, BuildsAfter, Undigested;
      Note(report, at);
      var facts := Join(report, at);
      File(report.node, facts, at);
    }

    /** The filing half: the node's contribution to each index is replaced. */
    method File(node: string, facts: seq<Fact>, ghost at: int)
      requires Valid()
      modifies this`peaks, this`ports, this`counters
      ensures Valid()
      ensures var op := Inventory.Ingest(node, facts, at);
        && peaks == StepIndex(old(peaks), op, PeakUnit, PEAKS)
        && ports == StepIndex(old(ports), op, PortUnit, PORTS)
        && counters == StepIndex(old(counters), op, CounterUnit, COUNTERS)
    {
      hide NoEmpty, PutAll, Gather, Forgotten, PeakUnit, PortUnit, CounterUnit;
      peaks := FileAll(peaks, node, facts, PeakUnit, PEAKS);
      ports := FileAll(ports, node, facts, PortUnit, PORTS);
      counters := FileAll(counters, node, facts, CounterUnit, COUNTERS);
    }

    /** Drops every record whose key is not live, and the builds no surviving record
        names - together with the mark that they were written. */
    method Retain(live: set<Key>) returns (ev: Evicted)
      requires Valid()
      modifies this`records, this`peaks, this`ports, this`counters, this`builds, this`written
      ensures Valid()
      ensures peaks == StepIndex(old(peaks), Inventory.Retain(live), PeakUnit, PEAKS)
      ensures ports == StepIndex(old(ports), Inventory.Retain(live), PortUnit, PORTS)
      ensures counters == StepIndex(old(counters), Inventory.Retain(live), CounterUnit, COUNTERS)
      ensures records == KeepKeys(old(records), LiveKey(live))
      ensures Builds(builds.Keys, written)
        == StepBuilds(Builds(old(builds).Keys, old(written)), Drop(Referenced(records)))
      ensures forall d :: d in builds ==> d in old(builds) && builds[d] == old(builds)[d]
      ensures ev == Evicted(
        |old(records)| - |records|, |old(builds)| - |builds|,
        |old(peaks)| - |peaks|, |old(ports)| - |ports|, |old(counters)| - |counters|)
    {
      hide StepBuilds, Referenced, Valid, StepIndex, KeepKeys;
      var r, b := KeepRecords(live);
      var p, l, c := KeepIndexes(live);
      ev := Evicted(r, b, p, l, c);
    }

    method KeepRecords(live: set<Key>) returns (r: nat, b: nat)
      modifies this`records, this`builds, this`written
      ensures records == KeepKeys(old(records), LiveKey(live))
      ensures Builds(builds.Keys, written)
        == StepBuilds(Builds(old(builds).Keys, old(written)), Drop(Referenced(records)))
      ensures forall d :: d in builds ==> d in old(builds) && builds[d] == old(builds)[d]
      ensures r == |old(records)| - |records| && b == |old(builds)| - |builds|
    {
      hide StepBuilds, Referenced, KeepKeys;
      records, r := RetainKeys(records, LiveKey(live));
      builds, written, b := DropBuilds(builds, written, Referenced(records));
    }

    method KeepIndexes(live: set<Key>) returns (p: nat, l: nat, c: nat)
      requires Valid()
      modifies this`peaks, this`ports, this`counters
      ensures Valid()
      ensures peaks == StepIndex(old(peaks), Inventory.Retain(live), PeakUnit, PEAKS)
      ensures ports == StepIndex(old(ports), Inventory.Retain(live), PortUnit, PORTS)
      ensures counters == StepIndex(old(counters), Inventory.Retain(live), CounterUnit, COUNTERS)
      ensures p == |old(peaks)| - |peaks| && l == |old(ports)| - |ports| && c == |old(counters)| - |counters|
    {
      hide KeepKeys, NoEmpty, LiveBuild, PutAll, Gather, Forgotten, KeepNodes, PeakUnit, PortUnit, CounterUnit;
      KeptNoEmpty(peaks, LiveBuild(live));
      KeptNoEmpty(ports, LiveBuild(live));
      KeptNoEmpty(counters, LiveBuild(live));
      peaks, p := RetainKeys(peaks, LiveBuild(live));
      ports, l := RetainKeys(ports, LiveBuild(live));
      counters, c := RetainKeys(counters, LiveBuild(live));
    }

    /** Drops the nodes that left the cluster, and everything they contributed. */
    method RetainNodes(live: set<string>)
      requires Valid()
      modifies this`peaks, this`ports, this`counters, this`nodesReported, this`scans, this`profiling
      ensures Valid()
      ensures peaks == StepIndex(old(peaks), Inventory.RetainNodes(live), PeakUnit, PEAKS)
      ensures ports == StepIndex(old(ports), Inventory.RetainNodes(live), PortUnit, PORTS)
      ensures counters == StepIndex(old(counters), Inventory.RetainNodes(live), CounterUnit, COUNTERS)
      ensures nodesReported == Trimmed(old(nodesReported), live)
      ensures scans == Trimmed(old(scans), live) && profiling == Trimmed(old(profiling), live)
    {
      hide Trimmed, KeepNodes, NoEmpty, StepIndex;
      TrimKeys(live);
      TrimIndexes(live);
    }

    /** What a departed node said of itself goes with it. */
    method TrimKeys(live: set<string>)
      requires Valid()
      modifies this`nodesReported, this`scans, this`profiling
      ensures Valid()
      ensures nodesReported == Trimmed(old(nodesReported), live)
      ensures scans == Trimmed(old(scans), live) && profiling == Trimmed(old(profiling), live)
    {
      hide NoEmpty;
      nodesReported := Trim(nodesReported, live);
      scans := Trim(scans, live);
      profiling := Trim(profiling, live);
    }

    /** And so does what it contributed. */
    method TrimIndexes(live: set<string>)
      requires Valid()
      modifies this`peaks, this`ports, this`counters
      ensures Valid()
      ensures peaks == StepIndex(old(peaks), Inventory.RetainNodes(live), PeakUnit, PEAKS)
      ensures ports == StepIndex(old(ports), Inventory.RetainNodes(live), PortUnit, PORTS)
      ensures counters == StepIndex(old(counters), Inventory.RetainNodes(live), CounterUnit, COUNTERS)
    {
      hide KeepNodes, NoEmpty, KeepKeys, PutAll, Gather, Forgotten, PeakUnit, PortUnit, CounterUnit;
      KeptNodesNoEmpty(peaks, live);
      KeptNodesNoEmpty(ports, live);
      KeptNodesNoEmpty(counters, live);
      peaks := NodeIndexes.RetainNodes(peaks, live);
      ports := NodeIndexes.RetainNodes(ports, live);
      counters := NodeIndexes.RetainNodes(counters, live);
    }

    method MarkBuildWritten(digest: string)
      modifies this`written
      ensures written == old(written) + {digest}
    {
      written := written + {digest};
    }

    /** The builds held and not yet written, by digest. */
    method PendingBuilds() returns (out: seq<(string, BuildFacts)>)
      ensures Sorted(DigestRank, map d | d in builds && d !in written :: builds[d], out)
    {
      hide Sorted;
      var found: map<string, BuildFacts> := map[];
      var todo := builds.Keys;
      while todo != {}
        invariant todo <= builds.Keys
        invariant found == map d | d in builds && d !in todo && d !in written :: builds[d]
        decreases |todo|
      {
        var d := Pick(todo);
        if d !in written {
          found := found[d := builds[d]];
        }
        todo := todo - {d};
      }
      assert found == map d | d in builds && d !in written :: builds[d];
      DigestRanksDiffer(found.Keys);
      out := InOrder(DigestRank, found);
    }

    /** One record per build some node still measures, in payload order. */
    method PeakSnapshot() returns (out: seq<(BuildKey, (NodePeaks, int))>)
      ensures Sorted(BuildRank, SnapshotMap(PEAKS, peaks, nodesReported, (p: NodePeaks) => p.processes > 0), out)
    {
      hide Commutative, Sorted, SnapshotMap;
      PeaksCommutative();
      out := SnapshotOf(PEAKS, peaks, nodesReported, (p: NodePeaks) => p.processes > 0);
    }

    method CounterSnapshot() returns (out: seq<(BuildKey, (NodeCounters, int))>)
      ensures Sorted(BuildRank, SnapshotMap(COUNTERS, counters, nodesReported, (c: NodeCounters) => c.processes > 0),
        out)
    {
      hide Commutative, Sorted, SnapshotMap;
      CountersCommutative();
      out := SnapshotOf(COUNTERS, counters, nodesReported, (c: NodeCounters) => c.processes > 0);
    }

    method PortSnapshot() returns (out: seq<(BuildKey, (Ports, int))>)
      ensures Sorted(BuildRank, SnapshotMap(PORTS, ports, nodesReported, (p: Ports) => p != map[]), out)
    {
      hide Commutative, Sorted, SnapshotMap;
      PortsCommutative();
      out := SnapshotOf(PORTS, ports, nodesReported, (p: Ports) => p != map[]);
    }

    method IngestBuild(f: Fact)
      modifies this`builds, this`factsUndigested
      ensures factsUndigested == old(factsUndigested) + if f.build.imageDigest == "" then 1 else 0
      ensures var d := f.build.imageDigest;
        builds == if d == "" || d in old(builds) then old(builds)
                  else old(builds)[d := FactsOf(f.binary)]
    {
      var d := f.build.imageDigest;
      if d == "" {
        factsUndigested := factsUndigested + 1;
        return;
      }
      if d in builds {
        return;
      }
      builds := builds[d := FactsOf(f.binary)];
    }
  }

  lemma KeptNodesNoEmpty<M(!new)>(ix: Index<BuildKey, M>, live: set<string>)
    ensures NoEmpty(KeepNodes(ix, live))
  {
  }

  lemma KeptNoEmpty<M(!new)>(ix: Index<BuildKey, M>, live: BuildKey -> bool)
    requires NoEmpty(ix)
    ensures NoEmpty(KeepKeys(ix, live))
  {
  }

  /** Builds and the marks on them are dropped together. */
  method DropBuilds(builds: map<string, BuildFacts>, written: set<string>, referenced: set<string>)
    returns (held: map<string, BuildFacts>, marked: set<string>, evicted: nat)
    ensures evicted == |builds| - |held|
    ensures Builds(held.Keys, marked) == StepBuilds(Builds(builds.Keys, written), Drop(referenced))
    ensures forall d :: d in held ==> d in builds && held[d] == builds[d]
  {
    held, marked, evicted := builds, written, 0;
    var todo := builds.Keys;
    while todo != {}
      invariant todo <= builds.Keys
      invariant held == map d | d in builds && (d in todo || d in referenced) :: builds[d]
      invariant forall d :: d in marked <==> d in written && (d !in builds || d in todo || d in referenced)
      invariant evicted == |builds| - |held|
      decreases |todo|
    {
      var d := Pick(todo);
      if d !in referenced {
        SizeDrops(held, d);
        held, marked, evicted := held - {d}, marked - {d}, evicted + 1;
      }
      todo := todo - {d};
    }
    assert held.Keys == builds.Keys * referenced;
    assert marked == written - (builds.Keys - referenced);
  }

  /** What a snapshot holds: every build with something to show, every node's
      contribution merged, dated by the stalest of them. */
  ghost function SnapshotMap<M(!new)>(g: Monoid<M>, ix: Index<BuildKey, M>, reported: map<string, int>, keep: M -> bool)
    : map<BuildKey, (M, int)>
  {
    map k | k in ix && keep(Sum(g, ix[k])) :: (Sum(g, ix[k]), Sum(OLDEST, AssertedBy(reported, ix[k].Keys)))
  }

  /** The double loop of a snapshot, over builds and over the nodes of each, and its sort. */
  method SnapshotOf<M(!new)>(g: Monoid<M>, ix: Index<BuildKey, M>, reported: map<string, int>, keep: M -> bool)
    returns (out: seq<(BuildKey, (M, int))>)
    requires Commutative(g)
    ensures Sorted(BuildRank, SnapshotMap(g, ix, reported, keep), out)
  {
    hide Commutative, AssertedBy, Sorted;
    OldestCommutative();
    var found: map<BuildKey, (M, int)> := map[];
    var todo := ix.Keys;
    while todo != {}
      invariant todo <= ix.Keys
      invariant forall k :: k in found <==> k in ix && k !in todo && keep(Sum(g, ix[k]))
      invariant forall k :: k in found ==> found[k] == (Sum(g, ix[k]), Sum(OLDEST, AssertedBy(reported, ix[k].Keys)))
      decreases |todo|
    {
      var k := Pick(todo);
      var asserted := Aggregate(OLDEST, AssertedBy(reported, ix[k].Keys));
      var merged := Aggregate(g, ix[k]);
      if keep(merged) {
        found := found[k := (merged, asserted)];
      }
      todo := todo - {k};
    }
    assert found == SnapshotMap(g, ix, reported, keep);
    BuildRanksDiffer(found.Keys);
    out := InOrder(BuildRank, found);
  }

  /** The union of port lists as one list in port order: a port is loopback only
      where every binding of it is. */
  method MergeListeningPorts(lists: seq<seq<ListeningPort>>) returns (out: seq<ListeningPort>)
    ensures PortsOf(out) == UnionOf(lists)
    ensures forall i, j :: 0 <= i < j < |out| ==> out[i].port < out[j].port
  {
    hide Union;
    var byPort: Ports := map[];
    for i := 0 to |lists|
      invariant byPort == UnionOf(lists[..i])
    {
      assert lists[..i + 1][..i] == lists[..i];
      var list := lists[i];
      ghost var before := byPort;
      UnionNothing(byPort);
      for j := 0 to |list|
        invariant byPort == Union(before, PortsOf(list[..j]))
      {
        assert list[..j + 1][..j] == list[..j];
        var lp := list[j];
        ghost var one: Ports := map[lp.port := lp.loopback];
        UnionAssociates(before, PortsOf(list[..j]), one);
        UnionOne(byPort, lp.port, lp.loopback);
        byPort := byPort[lp.port := if lp.port in byPort then byPort[lp.port] && lp.loopback else lp.loopback];
      }
      assert list[..|list|] == list;
    }
    assert lists[..|lists|] == lists;
    out := InPortOrder(byPort);
  }

  function UnionOf(lists: seq<seq<ListeningPort>>): Ports {
    if lists == [] then map[] else Union(UnionOf(lists[..|lists| - 1]), PortsOf(Last(lists)))
  }

  lemma UnionNothing(a: Ports)
    ensures Union(a, map[]) == a
  {
  }

  lemma UnionOne(a: Ports, port: int, loopback: bool)
    ensures Union(a, map[port := loopback]) == a[port := if port in a then a[port] && loopback else loopback]
  {
  }

  method InPortOrder(ports: Ports) returns (out: seq<ListeningPort>)
    ensures PortsOf(out) == ports
    ensures forall i, j :: 0 <= i < j < |out| ==> out[i].port < out[j].port
  {
    hide PortsOf;
    out := [];
    var todo := ports.Keys;
    ghost var got: Ports := map[];
    NoPorts();
    while todo != {}
      invariant todo <= ports.Keys
      invariant got == PortsOf(out)
      invariant forall p :: p in got <==> p in ports && p !in todo
      invariant forall p :: p in got ==> got[p] == ports[p]
      invariant forall i, j :: 0 <= i < j < |out| ==> out[i].port < out[j].port
      invariant forall i, p :: 0 <= i < |out| && p in todo ==> out[i].port < p
      decreases |todo|
    {
      var p := Smallest(todo);
      NewPort(out, ListeningPort(p, ports[p]));
      out := out + [ListeningPort(p, ports[p])];
      got := got[p := ports[p]];
      todo := todo - {p};
    }
    SamePorts(got, ports);
  }

  lemma SamePorts(a: Ports, b: Ports)
    requires forall p :: p in a <==> p in b
    requires forall p :: p in a && p in b ==> a[p] == b[p]
    ensures a == b
  {
    forall p
      ensures p in a <==> p in b
      ensures p in a && p in b ==> a[p] == b[p]
    {
    }
  }

  lemma NoPorts()
    ensures PortsOf([]) == map[]
  {
  }

  lemma NewPort(list: seq<ListeningPort>, lp: ListeningPort)
    requires lp.port !in PortsOf(list)
    ensures PortsOf(list + [lp]) == PortsOf(list)[lp.port := lp.loopback]
  {
    hide Union;
    assert (list + [lp])[..|list|] == list;
    UnionOne(PortsOf(list), lp.port, lp.loopback);
  }

  lemma NothingJoined(records: map<Key, GoRecord>, builds: map<string, BuildFacts>, at: int)
    ensures Joined([]) == [] && RecordsAfter(records, [], at) == records
    ensures BuildsAfter(builds, []) == builds && Undigested([]) == 0
  {
  }

  lemma JoinedStep(bs: seq<(Binary, Option<BuildKey>)>, i: nat)
    requires i < |bs|
    ensures Joined(bs[..i + 1]) ==
      if bs[i].1.Some? then Joined(bs[..i]) + [Fact(bs[i].1.value, bs[i].0)] else Joined(bs[..i])
  {
    assert bs[..i + 1][..i] == bs[..i];
    assert Joined(bs[..i]) + [] == Joined(bs[..i]);
  }

  lemma FactStep(records: map<Key, GoRecord>, builds: map<string, BuildFacts>, facts: seq<Fact>, f: Fact, at: int)
    ensures RecordsAfter(records, facts + [f], at) == RecordsAfter(records, facts, at)[f.build.key :=
      GoRecord(f.binary.goVersion, f.binary.mainModule, f.build.imageDigest, f.binary.pgo, at)]
    ensures var before, d := BuildsAfter(builds, facts), f.build.imageDigest;
      BuildsAfter(builds, facts + [f]) ==
        if d == "" || d in before then before else before[d := FactsOf(f.binary)]
    ensures Undigested(facts + [f]) == Undigested(facts) + if f.build.imageDigest == "" then 1 else 0
  {
    assert (facts + [f])[..|facts + [f]| - 1] == facts;
  }

  lemma NothingFiled<M(!new)>(ix: Index<BuildKey, M>, node: string, unit: Fact -> Option<M>, g: Monoid<M>)
    ensures PutAll(ix, node, [], unit, g) == ix && Gather([], unit, g) == map[]
  {
  }

  lemma StepNoEmpty<M(!new)>(ix: Index<BuildKey, M>, node: string, facts: seq<Fact>, unit: Fact -> Option<M>,
      g: Monoid<M>)
    requires NoEmpty(ix)
    ensures NoEmpty(Forgotten(PutAll(ix, node, facts, unit, g), node, Gather(facts, unit, g).Keys))
  {
    hide Forgotten, PutAll, Gather;
    PutAllOverlaid(ix, node, facts, unit, g);
    ForgottenLookup(PutAll(ix, node, facts, unit, g), node, Gather(facts, unit, g).Keys);
  }

  // ---- what joining means ----

  /** Exactly the binaries the resolver attributes are joined, each under the build it gives. */
  lemma {:induction false} JoinedMeaning(bs: seq<(Binary, Option<BuildKey>)>, f: Fact)
    ensures f in Joined(bs) <==> (f.binary, Some(f.build)) in bs
  {
    if bs != [] {
      var init, b := bs[..|bs| - 1], Last(bs);
      JoinedMeaning(init, f);
      assert bs == init + [b];
      assert forall x :: x in bs <==> x in init || x == b;
    }
  }

  /** The last fact about a container, or -1. */
  function LastAbout(facts: seq<Fact>, key: Key): (i: int)
    ensures -1 <= i < |facts|
  {
    if facts == [] then -1
    else if Last(facts).build.key == key then |facts| - 1
    else LastAbout(facts[..|facts| - 1], key)
  }

  /** The first fact that names a digest, or -1. */
  function FirstNaming(facts: seq<Fact>, digest: string): (i: int)
    ensures -1 <= i < |facts|
  {
    if facts == [] then -1 else
    var i := FirstNaming(facts[..|facts| - 1], digest);
    if i >= 0 then i else if Last(facts).build.imageDigest == digest then |facts| - 1 else -1
  }

  /** A container's record is what the report's last fact about it says, dated by the report;
      a container the report does not mention keeps its record. */
  lemma {:induction false} RecordsMeaning(records: map<Key, GoRecord>, facts: seq<Fact>, at: int, key: Key)
    ensures var after, i := RecordsAfter(records, facts, at), LastAbout(facts, key);
      if i < 0 then (key in after <==> key in records) && (key in records ==> after[key] == records[key])
      else
        && key in after
        && after[key].goVersion == facts[i].binary.goVersion && after[key].modulePath == facts[i].binary.mainModule
        && after[key].imageDigest == facts[i].build.imageDigest && after[key].pgo == facts[i].binary.pgo
        && after[key].assertedAt == at
  {
    if facts != [] {
      RecordsMeaning(records, facts[..|facts| - 1], at, key);
    }
  }

  /** A build is filed once, by the first fact that names its digest; no digest, no build. */
  lemma {:induction false} BuildsMeaning(builds: map<string, BuildFacts>, facts: seq<Fact>, digest: string)
    ensures var after, i := BuildsAfter(builds, facts), FirstNaming(facts, digest);
      if digest in builds then digest in after && after[digest] == builds[digest]
      else if digest == "" || i < 0 then digest !in after
      else
        && digest in after
        && after[digest].goVersion == facts[i].binary.goVersion
          && after[digest].mainModule == facts[i].binary.mainModule
        && after[digest].settings == facts[i].binary.settings && after[digest].goDebug == facts[i].binary.goDebug
        && after[digest].hasPprof == facts[i].binary.hasPprof
        && after[digest].modules == Modules.ModulesOf(facts[i].binary.dependencies)
  {
    if facts != [] {
      BuildsMeaning(builds, facts[..|facts| - 1], digest);
    }
  }

  /** After a retention a build is held exactly when it was and some surviving record names
      it, and marked as written only where it was and is still held or was never held. */
  lemma RetentionMeaning(records: map<Key, GoRecord>, live: set<Key>, held: set<string>, written: set<string>,
      d: string)
    requires "" !in held
    ensures var kept := KeepKeys(records, LiveKey(live));
      var b := StepBuilds(Builds(held, written), Drop(Referenced(kept)));
      && (d in b.held <==> d in held && exists k :: k in records && k in live && records[k].imageDigest == d)
      && (d in b.written <==> d in written && (d !in held || d in b.held))
  {
    var kept := KeepKeys(records, LiveKey(live));
    if k :| k in records && k in live && records[k].imageDigest == d && d in held {
      assert k in kept && kept[k].imageDigest == d;
    }
  }
}
