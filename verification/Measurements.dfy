/** What an inventory record means in terms of the processes the live nodes' latest
    reports list, and how current it is (internal/inventory/store.go). */
module Measurements {
  import opened Basics
  import opened NodeIndexes
  import opened Inventory

  /** The i-th fact of a report says something about a build. */
  predicate Measures<M>(facts: seq<Fact>, unit: Fact -> Option<M>, k: BuildKey, i: int) {
    0 <= i < |facts| && facts[i].build == k && unit(facts[i]).Some?
  }

  // ---- fields that keep one of the values they merge ----

  /** Merging keeps one of the two values, and the one that leads. */
  ghost predicate Selective<M(!new)>(g: Monoid<M>, f: M -> nat, leads: (nat, nat) -> bool) {
    && (forall a, b :: leads(f(a), f(g.plus(a, b))) && leads(f(b), f(g.plus(a, b))))
    && (forall a, b :: f(g.plus(a, b)) == f(a) || f(g.plus(a, b)) == f(b))
    && (forall x :: leads(x, x))
    && (forall x, y, z :: leads(x, y) && leads(y, z) ==> leads(x, z))
  }

  lemma SelectiveAt<M(!new)>(g: Monoid<M>, f: M -> nat, leads: (nat, nat) -> bool, a: M, b: M)
    requires Selective(g, f, leads)
    ensures leads(f(a), f(g.plus(a, b))) && leads(f(b), f(g.plus(a, b)))
    ensures f(g.plus(a, b)) == f(a) || f(g.plus(a, b)) == f(b)
    ensures forall x :: leads(x, f(a)) ==> leads(x, f(g.plus(a, b)))
    ensures forall x :: leads(x, f(b)) ==> leads(x, f(g.plus(a, b)))
    ensures leads(f(a), f(a))
  {
  }

  /** The value leads every fact of a report about a build, and is one of theirs. */
  ghost predicate LeadsReport<M>(facts: seq<Fact>, unit: Fact -> Option<M>, k: BuildKey, f: M -> nat,
      leads: (nat, nat) -> bool, v: nat) {
    && (forall i :: Measures(facts, unit, k, i) ==> leads(f(unit(facts[i]).value), v))
    && (exists i :: Measures(facts, unit, k, i) && f(unit(facts[i]).value) == v)
  }

  lemma LeadsFirst<M(!new)>(facts: seq<Fact>, init: seq<Fact>, unit: Fact -> Option<M>, k: BuildKey, f: M -> nat,
      leads: (nat, nat) -> bool)
    requires facts != [] && init == facts[..|facts| - 1] && Measures(facts, unit, k, |facts| - 1)
    requires forall i :: !Measures(init, unit, k, i)
    requires forall x :: leads(x, x)
    ensures LeadsReport(facts, unit, k, f, leads, f(unit(Last(facts)).value))
  {
    forall i | 0 <= i < |init|
      ensures Measures(facts, unit, k, i) <==> Measures(init, unit, k, i)
    {
    }
  }

  lemma LeadsMore<M(!new)>(facts: seq<Fact>, unit: Fact -> Option<M>, k: BuildKey, f: M -> nat,
      leads: (nat, nat) -> bool, v: nat, w: nat)
    requires facts != [] && LeadsReport(facts[..|facts| - 1], unit, k, f, leads, v)
    requires forall x :: leads(x, v) ==> leads(x, w)
    requires Measures(facts, unit, k, |facts| - 1) ==> leads(f(unit(Last(facts)).value), w)
    requires w == v || (Measures(facts, unit, k, |facts| - 1) && w == f(unit(Last(facts)).value))
    ensures LeadsReport(facts, unit, k, f, leads, w)
  {
    var init := facts[..|facts| - 1];
    forall i | Measures(facts, unit, k, i)
      ensures leads(f(unit(facts[i]).value), w)
    {
      if i < |facts| - 1 {
        assert Measures(init, unit, k, i) && init[i] == facts[i];
      }
    }
    if w == v {
      var i :| Measures(init, unit, k, i) && f(unit(init[i]).value) == v;
      assert Measures(facts, unit, k, i) && facts[i] == init[i];
    } else {
      assert Measures(facts, unit, k, |facts| - 1);
    }
  }

  /** A build is gathered exactly when some fact says something about it. */
  lemma {:induction false} Gathered<M(!new)>(facts: seq<Fact>, unit: Fact -> Option<M>, g: Monoid<M>, k: BuildKey)
    ensures k in Gather(facts, unit, g) <==> exists i :: Measures(facts, unit, k, i)
  {
    if facts != [] {
      var init := facts[..|facts| - 1];
      Gathered(init, unit, g, k);
      forall i | 0 <= i < |init|
        ensures Measures(facts, unit, k, i) <==> Measures(init, unit, k, i)
      {
      }
      assert Last(facts).build == k && unit(Last(facts)).Some? <==> Measures(facts, unit, k, |init|);
    }
  }

  lemma ZeroFirst<M(!new)>(g: Monoid<M>, a: M)
    requires Commutative(g)
    ensures g.plus(g.zero, a) == a
  {
  }

  lemma {:induction false} GatherSelects<M(!new)>(facts: seq<Fact>, unit: Fact -> Option<M>, g: Monoid<M>,
      k: BuildKey, f: M -> nat, leads: (nat, nat) -> bool)
    requires Commutative(g) && Selective(g, f, leads) && k in Gather(facts, unit, g)
    ensures LeadsReport(facts, unit, k, f, leads, f(Gather(facts, unit, g)[k]))
  {
    hide Commutative, Selective, LeadsReport;
    var init, last := facts[..|facts| - 1], Last(facts);
    var before := Gather(init, unit, g);
    if last.build == k && unit(last).Some? {
      var u := unit(last).value;
      if k in before {
        GatherSelects(init, unit, g, k, f, leads);
        SelectiveAt(g, f, leads, before[k], u);
        LeadsMore(facts, unit, k, f, leads, f(before[k]), f(g.plus(before[k], u)));
      } else {
        Gathered(init, unit, g, k);
        ZeroFirst(g, u);
        Reflexive(g, f, leads);
        LeadsFirst(facts, init, unit, k, f, leads);
      }
    } else {
      GatherSelects(init, unit, g, k, f, leads);
      LeadsMore(facts, unit, k, f, leads, f(before[k]), f(before[k]));
    }
  }

  lemma Reflexive<M(!new)>(g: Monoid<M>, f: M -> nat, leads: (nat, nat) -> bool)
    requires Selective(g, f, leads)
    ensures forall x :: leads(x, x)
  {
  }

  lemma {:induction false} SumSelects<M(!new)>(g: Monoid<M>, m: map<string, M>, f: M -> nat, leads: (nat, nat) -> bool)
    requires Commutative(g) && Selective(g, f, leads) && m != map[]
    ensures forall n, x :: n in m && leads(x, f(m[n])) ==> leads(x, f(Sum(g, m)))
    ensures exists n :: n in m && f(m[n]) == f(Sum(g, m))
    decreases |m|
  {
    hide Commutative, Selective;
    var c :| c in m;
    var rest := m - {c};
    SumRemove(g, m, c);
    SizeDrops(m, c);
    if rest == map[] {
      Laws(g, m[c], g.zero, g.zero);
      assert forall n :: n in m && n != c ==> n in rest;
    } else {
      SumSelects(g, rest, f, leads);
      SelectiveAt(g, f, leads, m[c], Sum(g, rest));
      assert forall n :: n in m && n != c ==> n in rest && rest[n] == m[n];
      if f(Sum(g, m)) != f(m[c]) {
        var n :| n in rest && f(rest[n]) == f(Sum(g, rest));
        assert n in m && f(m[n]) == f(Sum(g, m));
      }
    }
  }

  /** A fact about a build in the latest report of a live node. */
  predicate Stands<M>(latest: map<string, seq<Fact>>, unit: Fact -> Option<M>, k: BuildKey, n: string, i: int) {
    n in latest && Measures(latest[n], unit, k, i)
  }

  /** In any run, a selecting field of a build's record leads the processes the live
      nodes' latest reports list for it, and is the value of one of them. */
  lemma RecordSelects<M(!new)>(ops: seq<Op>, unit: Fact -> Option<M>, g: Monoid<M>, k: BuildKey, f: M -> nat,
      leads: (nat, nat) -> bool)
    requires Commutative(g) && Selective(g, f, leads) && k in RunIndex(ops, unit, g)
    ensures var latest, v := RunLatest(ops), f(Sum(g, RunIndex(ops, unit, g)[k]));
      && (forall n, i :: Stands(latest, unit, k, n, i) ==> leads(f(unit(latest[n][i]).value), v))
      && (exists n, i :: Stands(latest, unit, k, n, i) && f(unit(latest[n][i]).value) == v)
  {
    hide Commutative, Selective, RunIndex, RunLatest, Gather, Snapshot;
    var latest, ix := RunLatest(ops), RunIndex(ops, unit, g);
    IndexedFor(ops, unit, g, k);
    var m := StatedFor(latest, k, unit, g);
    var v := f(Sum(g, m));
    SumSelects(g, m, f, leads);
    forall n, i | Stands(latest, unit, k, n, i)
      ensures leads(f(unit(latest[n][i]).value), v)
    {
      Gathered(latest[n], unit, g, k);
      GatherSelects(latest[n], unit, g, k, f, leads);
      assert n in m && m[n] == Gather(latest[n], unit, g)[k];
    }
    var n :| n in m && f(m[n]) == v;
    GatherSelects(latest[n], unit, g, k, f, leads);
    var i :| Measures(latest[n], unit, k, i) && f(unit(latest[n][i]).value) == v;
    assert Stands(latest, unit, k, n, i);
  }

  lemma IndexedFor<M(!new)>(ops: seq<Op>, unit: Fact -> Option<M>, g: Monoid<M>, k: BuildKey)
    requires k in RunIndex(ops, unit, g)
    ensures RunIndex(ops, unit, g)[k] == StatedFor(RunLatest(ops), k, unit, g) != map[]
  {
    hide RunIndex, RunLatest, StatedFor;
    SnapshotAgreement(ops, unit, g, k);
  }

  /** A process of a build in the latest report of a live node. */
  predicate Lives(latest: map<string, seq<Fact>>, k: BuildKey, n: string, i: int) {
    n in latest && 0 <= i < |latest[n]| && latest[n][i].build == k
  }

  /** A build is indexed exactly when some fact of a live node says something about it. */
  lemma IndexedIff<M(!new)>(ops: seq<Op>, unit: Fact -> Option<M>, g: Monoid<M>, k: BuildKey)
    ensures k in RunIndex(ops, unit, g) <==> exists n, i :: Stands(RunLatest(ops), unit, k, n, i)
  {
    hide RunIndex, RunLatest, Gather;
    var latest := RunLatest(ops);
    SnapshotAgreement(ops, unit, g, k);
    var stated := StatedFor(latest, k, unit, g);
    if stated != map[] {
      var n :| n in stated;
      Gathered(latest[n], unit, g, k);
      var i :| Measures(latest[n], unit, k, i);
      assert Stands(latest, unit, k, n, i);
    }
    if n, i :| Stands(latest, unit, k, n, i) {
      Gathered(latest[n], unit, g, k);
      assert n in stated;
    }
  }

  // ---- the peak fields ----

  /** A process whose status was read: something of it is known. */
  predicate Read(b: Binary) {
    b.peakRSSBytes != 0 || b.cpusAllowed != 0 || b.footprint != Footprint(0, 0, 0, 0, 0, 0, 0)
  }

  datatype PeakField =
    | PeakRSS | CPUsMin | CPUsMax | RSSAnon | RSSFile | PSS | PrivateDirty | Threads | OpenFiles | FilesLimit

  function Merged(field: PeakField): NodePeaks -> nat {
    match field
    case PeakRSS => (p: NodePeaks) => p.peakRSSBytes
    case CPUsMin => (p: NodePeaks) => p.cpusMin
    case CPUsMax => (p: NodePeaks) => p.cpusMax
    case RSSAnon => (p: NodePeaks) => p.rssAnonBytes
    case RSSFile => (p: NodePeaks) => p.rssFileBytes
    case PSS => (p: NodePeaks) => p.pssBytes
    case PrivateDirty => (p: NodePeaks) => p.privateDirtyBytes
    case Threads => (p: NodePeaks) => p.threads
    case OpenFiles => (p: NodePeaks) => p.openFiles
    case FilesLimit => (p: NodePeaks) => p.filesLimitMin
  }

  function Reading(field: PeakField, b: Binary): int {
    match field
    case PeakRSS => b.peakRSSBytes
    case CPUsMin => b.cpusAllowed
    case CPUsMax => b.cpusAllowed
    case RSSAnon => b.footprint.rssAnonBytes
    case RSSFile => b.footprint.rssFileBytes
    case PSS => b.footprint.pssBytes
    case PrivateDirty => b.footprint.privateDirtyBytes
    case Threads => b.footprint.threads
    case OpenFiles => b.footprint.openFiles
    case FilesLimit => b.footprint.openFilesLimit
  }

  /** The highest value, or for the two limits the lowest one that was read. */
  function Leading(field: PeakField): (nat, nat) -> bool {
    if field.CPUsMin? || field.FilesLimit?
    then (x: nat, v: nat) => x == 0 || (v != 0 && v <= x)
    else (x: nat, v: nat) => x <= v
  }

  lemma PeakFieldSelective(field: PeakField)
    ensures Selective(PEAKS, Merged(field), Leading(field))
  {
  }

  lemma ReadIff(f: Fact)
    ensures PeakUnit(f).Some? <==> Read(f.binary)
    ensures forall field: PeakField :: PeakUnit(f).Some? ==>
      Merged(field)(PeakUnit(f).value) == NonNegative(Reading(field, f.binary))
  {
  }

  /** How many processes of a build a report lists whose status was read. */
  function ReadCount(facts: seq<Fact>, k: BuildKey): nat {
    if facts == [] then 0 else
    ReadCount(facts[..|facts| - 1], k) + if Last(facts).build == k && Read(Last(facts).binary) then 1 else 0
  }

  function ReadPerNode(latest: map<string, seq<Fact>>, k: BuildKey): map<string, int> {
    map n | n in latest :: ReadCount(latest[n], k)
  }

  /** A build has a peak record exactly when some live process of it was read. Each field is
      the maximum, or for the limits the minimum of those read, over those processes, and
      is attained by one; the process count is their number. */
  lemma PeakRecordMeaning(ops: seq<Op>, k: BuildKey, field: PeakField)
    ensures var latest, ix := RunLatest(ops), RunIndex(ops, PeakUnit, PEAKS);
      && (k in ix <==> exists n, i :: Lives(latest, k, n, i) && Read(latest[n][i].binary))
      && (k in ix ==>
            var rec := Sum(PEAKS, ix[k]);
            && (forall n, i :: Lives(latest, k, n, i) && Read(latest[n][i].binary) ==>
                  Leading(field)(NonNegative(Reading(field, latest[n][i].binary)), Merged(field)(rec)))
            && (exists n, i :: Lives(latest, k, n, i) && Read(latest[n][i].binary)
                  && NonNegative(Reading(field, latest[n][i].binary)) == Merged(field)(rec))
            && rec.processes == Total(ReadPerNode(latest, k), Weight()))
  {
    hide Selective, Commutative, RunIndex, RunLatest, Leading, Read, Merged, Reading, Total, Additive, PeakUnit;
    var latest, ix := RunLatest(ops), RunIndex(ops, PeakUnit, PEAKS);
    IndexedIff(ops, PeakUnit, PEAKS, k);
    forall f: Fact
      ensures PeakUnit(f).Some? <==> Read(f.binary)
      ensures PeakUnit(f).Some? ==> Merged(field)(PeakUnit(f).value) == NonNegative(Reading(field, f.binary))
    {
      ReadIff(f);
    }
    assert forall n, i :: Stands(latest, PeakUnit, k, n, i) <==> Lives(latest, k, n, i) && Read(latest[n][i].binary);
    if k in ix {
      PeaksCommutative();
      PeakFieldSelective(field);
      RecordSelects(ops, PeakUnit, PEAKS, k, Merged(field), Leading(field));
      AdditiveFields();
      RecordAdds(ops, PeakUnit, PEAKS, k, Processes());
      ProcessesAdd(latest, k);
    }
  }

  function Processes(): NodePeaks -> int { (p: NodePeaks) => p.processes }

  lemma {:induction false} ReadCounts(facts: seq<Fact>, k: BuildKey)
    ensures AddUp(facts, PeakUnit, k, Processes()) == ReadCount(facts, k)
  {
    if facts != [] {
      ReadCounts(facts[..|facts| - 1], k);
      ReadIff(Last(facts));
    }
  }

  lemma ProcessesAdd(latest: map<string, seq<Fact>>, k: BuildKey)
    ensures AddedUp(latest, PeakUnit, k, Processes()) == ReadPerNode(latest, k)
  {
    hide AddUp, ReadCount;
    forall n | n in latest
      ensures AddUp(latest[n], PeakUnit, k, Processes()) == ReadCount(latest[n], k)
    {
      ReadCounts(latest[n], k);
    }
  }

  // ---- ports ----

  predicate Listens(list: seq<ListeningPort>, port: int) {
    exists j :: 0 <= j < |list| && list[j].port == port
  }

  predicate Exposes(list: seq<ListeningPort>, port: int) {
    exists j :: 0 <= j < |list| && list[j].port == port && !list[j].loopback
  }

  function HasPort(port: int): Ports -> nat { (p: Ports) => if port in p then 1 else 0 }

  function HasExposed(port: int): Ports -> nat { (p: Ports) => if port in p && !p[port] then 1 else 0 }

  function AtMost(): (nat, nat) -> bool { (x: nat, v: nat) => x <= v }

  lemma {:induction false} PortsOfMeaning(list: seq<ListeningPort>, port: int)
    ensures port in PortsOf(list) <==> Listens(list, port)
    ensures port in PortsOf(list) && !PortsOf(list)[port] <==> Exposes(list, port)
  {
    if list != [] {
      hide Union;
      var init, last := list[..|list| - 1], Last(list);
      PortsOfMeaning(init, port);
      UnionAt(PortsOf(init), map[last.port := last.loopback], port);
      assert forall j :: 0 <= j < |init| ==> list[j] == init[j];
      assert list[|init|] == last;
    }
  }

  lemma PortFacetSelective(port: int)
    ensures Selective(PORTS, HasPort(port), AtMost()) && Selective(PORTS, HasExposed(port), AtMost())
  {
    hide Union;
    forall a: Ports, b: Ports
      ensures PORTS.plus(a, b) == Union(a, b)
      ensures port in Union(a, b) <==> port in a || port in b
      ensures port in Union(a, b) ==> Union(a, b)[port] == ((port in a ==> a[port]) && (port in b ==> b[port]))
    {
      UnionAt(a, b, port);
    }
  }

  /** A build has a port record exactly when some live process of it listens; the record
      names a port exactly when one of them listens on it, and calls it exposed exactly
      when one of those bindings is not loopback. */
  lemma PortRecordMeaning(ops: seq<Op>, k: BuildKey, port: int)
    ensures var latest, ix := RunLatest(ops), RunIndex(ops, PortUnit, PORTS);
      && (k in ix <==> exists n, i :: Lives(latest, k, n, i) && latest[n][i].binary.listeningPorts != [])
      && (k in ix ==>
            var rec := Sum(PORTS, ix[k]);
            && (port in rec <==>
                exists n, i :: Lives(latest, k, n, i) && Listens(latest[n][i].binary.listeningPorts, port))
            && (port in rec && !rec[port] <==>
                exists n, i :: Lives(latest, k, n, i) && Exposes(latest[n][i].binary.listeningPorts, port)))
  {
    hide Selective, Commutative, RunIndex, RunLatest, Listens, Exposes, PortsOf;
    var latest, ix := RunLatest(ops), RunIndex(ops, PortUnit, PORTS);
    IndexedIff(ops, PortUnit, PORTS, k);
    assert forall n, i :: Stands(latest, PortUnit, k, n, i) <==>
      Lives(latest, k, n, i) && latest[n][i].binary.listeningPorts != [];
    forall list: seq<ListeningPort>
      ensures port in PortsOf(list) <==> Listens(list, port)
      ensures port in PortsOf(list) && !PortsOf(list)[port] <==> Exposes(list, port)
      ensures Listens(list, port) || Exposes(list, port) ==> list != []
    {
      PortsOfMeaning(list, port);
      SomethingListed(list, port);
    }
    if k in ix {
      PortsCommutative();
      PortFacetSelective(port);
      RecordSelects(ops, PortUnit, PORTS, k, HasPort(port), AtMost());
      RecordSelects(ops, PortUnit, PORTS, k, HasExposed(port), AtMost());
    }
  }

  lemma SomethingListed(list: seq<ListeningPort>, port: int)
    ensures Listens(list, port) || Exposes(list, port) ==> list != []
  {
  }

  // ---- fields that add up ----

  ghost predicate Additive<M(!new)>(g: Monoid<M>, f: M -> int) {
    f(g.zero) == 0 && forall a, b :: f(g.plus(a, b)) == f(a) + f(b)
  }

  /** A field added up over the facts of a report about one build. */
  function AddUp<M>(facts: seq<Fact>, unit: Fact -> Option<M>, k: BuildKey, f: M -> int): int {
    if facts == [] then 0 else
    AddUp(facts[..|facts| - 1], unit, k, f)
    + if Last(facts).build == k && unit(Last(facts)).Some? then f(unit(Last(facts)).value) else 0
  }

  lemma {:induction false} GatherAdds<M(!new)>(facts: seq<Fact>, unit: Fact -> Option<M>, g: Monoid<M>, k: BuildKey,
      f: M -> int)
    requires Additive(g, f)
    ensures AddUp(facts, unit, k, f) == if k in Gather(facts, unit, g) then f(Gather(facts, unit, g)[k]) else 0
  {
    if facts != [] {
      GatherAdds(facts[..|facts| - 1], unit, g, k, f);
    }
  }

  /** That total, per live node. */
  function AddedUp<M>(latest: map<string, seq<Fact>>, unit: Fact -> Option<M>, k: BuildKey, f: M -> int)
    : map<string, int>
  {
    map n | n in latest :: AddUp(latest[n], unit, k, f)
  }

  function FieldOf<M>(m: map<string, M>, f: M -> int): map<string, int> {
    map n | n in m :: f(m[n])
  }

  function Weight(): (string, int) -> int { (_: string, w: int) => w }

  lemma {:induction false} SumAdds<M(!new)>(g: Monoid<M>, m: map<string, M>, f: M -> int)
    requires Commutative(g) && Additive(g, f)
    ensures f(Sum(g, m)) == Total(FieldOf(m, f), Weight())
    decreases |m|
  {
    hide Commutative;
    var weights := FieldOf(m, f);
    if m == map[] {
      assert weights == map[];
    } else {
      var c :| c in m;
      SumRemove(g, m, c);
      SizeDrops(m, c);
      SumAdds(g, m - {c}, f);
      TotalRemove(weights, Weight(), c);
      assert weights - {c} == FieldOf(m - {c}, f);
    }
  }

  lemma PartOfWhole<M(!new)>(latest: map<string, seq<Fact>>, unit: Fact -> Option<M>, g: Monoid<M>, k: BuildKey,
      f: M -> int)
    requires Additive(g, f)
    ensures var m := StatedFor(latest, k, unit, g);
      Total(FieldOf(m, f), Weight()) == Total(AddedUp(latest, unit, k, f), Weight())
  {
    hide Additive, Gather, AddUp, Total;
    var m := StatedFor(latest, k, unit, g);
    var part, whole := FieldOf(m, f), AddedUp(latest, unit, k, f);
    forall n
      ensures n in part ==> n in whole && part[n] == whole[n]
      ensures n in whole && n !in part ==> whole[n] == 0
    {
      if n in latest {
        GatherAdds(latest[n], unit, g, k, f);
      }
    }
    TotalSame(part, whole, Weight());
  }

  /** In any run, an additive field of a build's record is its total over the
      processes the live nodes' latest reports list for it. */
  lemma RecordAdds<M(!new)>(ops: seq<Op>, unit: Fact -> Option<M>, g: Monoid<M>, k: BuildKey, f: M -> int)
    requires Commutative(g) && Additive(g, f) && k in RunIndex(ops, unit, g)
    ensures f(Sum(g, RunIndex(ops, unit, g)[k]))
      == Total(AddedUp(RunLatest(ops), unit, k, f), Weight())
  {
    hide Commutative, Additive, RunIndex, RunLatest, Gather, AddUp, StatedFor, Total;
    var latest := RunLatest(ops);
    IndexedFor(ops, unit, g, k);
    var m := StatedFor(latest, k, unit, g);
    SumAdds(g, m, f);
    PartOfWhole(latest, unit, g, k, f);
  }

  lemma AdditiveFields()
    ensures Additive(PEAKS, Processes())
    ensures forall field: CounterField :: Additive(COUNTERS, Summed(field))
  {
  }

  // ---- the counter fields ----

  datatype CounterField =
    | CountedProcesses | ObservedTime | OnCPU | RunDelay | UserTime | SystemTime
    | MajorFaults | VoluntarySwitches | NonvoluntarySwitches | BytesRead | BytesWritten

  /** A field of a counter record. */
  function Summed(field: CounterField): NodeCounters -> int {
    match field
    case CountedProcesses => (c: NodeCounters) => c.processes
    case ObservedTime => (c: NodeCounters) => c.delta.observedNanos
    case OnCPU => (c: NodeCounters) => c.delta.onCPUNanos
    case RunDelay => (c: NodeCounters) => c.delta.runDelayNanos
    case UserTime => (c: NodeCounters) => c.delta.cpuUserNanos
    case SystemTime => (c: NodeCounters) => c.delta.cpuSystemNanos
    case MajorFaults => (c: NodeCounters) => c.delta.majorFaults
    case VoluntarySwitches => (c: NodeCounters) => c.delta.voluntarySwitches
    case NonvoluntarySwitches => (c: NodeCounters) => c.delta.nonvoluntarySwitches
    case BytesRead => (c: NodeCounters) => c.delta.readBytes
    case BytesWritten => (c: NodeCounters) => c.delta.writeBytes
  }

  /** What one process's delta says of it; a process counts for one. */
  function CounterReading(field: CounterField, d: CounterDelta): int {
    match field
    case CountedProcesses => 1
    case ObservedTime => d.observedNanos
    case OnCPU => d.onCPUNanos
    case RunDelay => d.runDelayNanos
    case UserTime => d.cpuUserNanos
    case SystemTime => d.cpuSystemNanos
    case MajorFaults => d.majorFaults
    case VoluntarySwitches => d.voluntarySwitches
    case NonvoluntarySwitches => d.nonvoluntarySwitches
    case BytesRead => d.readBytes
    case BytesWritten => d.writeBytes
  }

  /** A field over the processes of a build a report has a delta for. */
  function CounterSum(field: CounterField, facts: seq<Fact>, k: BuildKey): int {
    if facts == [] then 0 else
    var f := Last(facts);
    CounterSum(field, facts[..|facts| - 1], k)
    + if f.build == k && f.binary.counters.Some? then CounterReading(field, f.binary.counters.value) else 0
  }

  function CounterSums(field: CounterField, latest: map<string, seq<Fact>>, k: BuildKey): map<string, int> {
    map n | n in latest :: CounterSum(field, latest[n], k)
  }

  lemma {:induction false} CounterAddsUp(field: CounterField, facts: seq<Fact>, k: BuildKey)
    ensures AddUp(facts, CounterUnit, k, Summed(field)) == CounterSum(field, facts, k)
  {
    if facts != [] {
      CounterAddsUp(field, facts[..|facts| - 1], k);
    }
  }

  /** A build has a counter record exactly when some live process of it carries a delta, and
      each field of the record is its sum over those processes of the live nodes' latest
      reports, processes being their number. */
  lemma CounterRecordMeaning(ops: seq<Op>, k: BuildKey, field: CounterField)
    ensures var latest, ix := RunLatest(ops), RunIndex(ops, CounterUnit, COUNTERS);
      && (k in ix <==> exists n, i :: Lives(latest, k, n, i) && latest[n][i].binary.counters.Some?)
      && (k in ix ==> Summed(field)(Sum(COUNTERS, ix[k])) == Total(CounterSums(field, latest, k), Weight()))
  {
    hide Commutative, RunIndex, RunLatest, Total, Additive, AddUp, Summed, CounterReading;
    var latest, ix := RunLatest(ops), RunIndex(ops, CounterUnit, COUNTERS);
    IndexedIff(ops, CounterUnit, COUNTERS, k);
    assert forall n, i :: Stands(latest, CounterUnit, k, n, i) <==>
      Lives(latest, k, n, i) && latest[n][i].binary.counters.Some?;
    if k in ix {
      CountersCommutative();
      AdditiveFields();
      RecordAdds(ops, CounterUnit, COUNTERS, k, Summed(field));
      forall n | n in latest
        ensures AddUp(latest[n], CounterUnit, k, Summed(field)) == CounterSum(field, latest[n], k)
      {
        CounterAddsUp(field, latest[n], k);
      }
      assert AddedUp(latest, CounterUnit, k, Summed(field)) == CounterSums(field, latest, k);
    }
  }

  // ---- how current a record is ----

  function StepReported(reported: map<string, int>, op: Op): map<string, int> {
    match op
    case Ingest(node, _, at) => if node == "" then reported else reported[node := at]
    case Retain(_) => reported
    case RetainNodes(nodes) => Trimmed(reported, nodes)
  }

  function RunReported(ops: seq<Op>): map<string, int> {
    if ops == [] then map[] else StepReported(RunReported(ops[..|ops| - 1]), Last(ops))
  }

  /** When a node last reported, as far as the run says. */
  function LastReport(ops: seq<Op>, node: string): int {
    if ops == [] then 0
    else if Last(ops).Ingest? && Last(ops).node == node then Last(ops).at
    else LastReport(ops[..|ops| - 1], node)
  }

  lemma {:induction false} ReportedIsLast(ops: seq<Op>, node: string)
    requires node in RunLatest(ops) && node != ""
    ensures node in RunReported(ops) && RunReported(ops)[node] == LastReport(ops, node)
  {
    if ops != [] {
      if Last(ops).Ingest? && Last(ops).node == node {
      } else {
        ReportedIsLast(ops[..|ops| - 1], node);
      }
    }
  }

  /** A record is dated by the stalest of the reports that contribute to it: the
      earliest last report among the named nodes that still state something. */
  lemma AssertedAgreement<M(!new)>(ops: seq<Op>, unit: Fact -> Option<M>, g: Monoid<M>, k: BuildKey)
    requires k in RunIndex(ops, unit, g)
    ensures var stated := StatedFor(RunLatest(ops), k, unit, g);
      IsOldest(map n | n in stated :: if n == "" then 0 else LastReport(ops, n),
               Sum(OLDEST, AssertedBy(RunReported(ops), RunIndex(ops, unit, g)[k].Keys)))
  {
    hide RunIndex, RunLatest, RunReported, LastReport, IsOldest, Gather;
    IndexedFor(ops, unit, g, k);
    var stated := StatedFor(RunLatest(ops), k, unit, g);
    var asserted := AssertedBy(RunReported(ops), stated.Keys);
    NeverUnnamed(ops);
    forall n | n in stated && n != ""
      ensures asserted[n] == LastReport(ops, n)
    {
      ReportedIsLast(ops, n);
    }
    assert asserted == map n | n in stated :: if n == "" then 0 else LastReport(ops, n);
    OldestIsMinimum(asserted);
  }

  lemma {:induction false} NeverUnnamed(ops: seq<Op>)
    ensures "" !in RunReported(ops)
  {
    if ops != [] {
      NeverUnnamed(ops[..|ops| - 1]);
    }
  }
}
