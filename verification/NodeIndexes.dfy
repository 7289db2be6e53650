/** A node-keyed index: per key, what each node's latest report contributed. It is
    maintained incrementally and must agree with a recomputation from the reports
    themselves (internal/inventory/store.go). */
module NodeIndexes {
  import opened Basics

  type Index<!K, M> = map<K, map<string, M>>

  /** Each live node's latest contributions. */
  type Latest<!K, M> = map<string, map<K, M>>

  ghost predicate NoEmpty<K(!new), M>(ix: Index<K, M>) {
    forall k :: k in ix ==> ix[k] != map[]
  }

  function Lookup<K, M>(ix: Index<K, M>, k: K, node: string): Option<M> {
    if k in ix && node in ix[k] then Some(ix[k][node]) else None
  }

  function Stated<K, M>(latest: Latest<K, M>, k: K, node: string): Option<M> {
    if node in latest && k in latest[node] then Some(latest[node][k]) else None
  }

  /** The index holds exactly what the latest reports state, and nothing empty. */
  ghost predicate Agrees<K(!new), M(!new)>(ix: Index<K, M>, latest: Latest<K, M>) {
    && NoEmpty(ix)
    && forall k, n :: Lookup(ix, k, n) == Stated(latest, k, n)
  }

  /** Two indexes that agree with the same reports are the same index. */
  lemma AgreesUnique<K(!new), M(!new)>(a: Index<K, M>, b: Index<K, M>, latest: Latest<K, M>)
    requires Agrees(a, latest) && Agrees(b, latest)
    ensures a == b
  {
    forall k
      ensures k in a ==> k in b && a[k] == b[k]
      ensures k in b ==> k in a
    {
      assert forall n :: Lookup(a, k, n) == Lookup(b, k, n);
      if k in a {
        var n :| n in a[k];
        assert Lookup(b, k, n).Some?;
        forall n ensures n in a[k] <==> n in b[k] ensures n in a[k] && n in b[k] ==> a[k][n] == b[k][n] {
          assert Lookup(a, k, n) == Lookup(b, k, n);
        }
        assert a[k] == b[k];
      }
      if k in b {
        var n :| n in b[k];
        assert Lookup(a, k, n).Some?;
      }
    }
  }

  function KeysOf<K, M>(latest: Latest<K, M>): set<K> {
    set n, k | n in latest && k in latest[n] :: k
  }

  function StatedBy<K, M>(latest: Latest<K, M>, k: K): map<string, M> {
    map n | n in latest && k in latest[n] :: latest[n][k]
  }

  /** The index built afresh from the latest reports alone. */
  function Recomputed<K, M>(latest: Latest<K, M>): Index<K, M> {
    map k | k in KeysOf(latest) :: StatedBy(latest, k)
  }

  lemma RecomputedAgrees<K(!new), M(!new)>(latest: Latest<K, M>)
    ensures Agrees(Recomputed(latest), latest)
  {
    var ix := Recomputed(latest);
    forall k | k in ix
      ensures ix[k] != map[]
    {
      var n :| n in latest && k in latest[n];
      assert n in ix[k];
    }
    forall k, n
      ensures Lookup(ix, k, n) == Stated(latest, k, n)
    {
      if n in latest && k in latest[n] {
        assert k in KeysOf(latest);
      }
    }
  }

  // ---- filing a report ----

  function Put<K, M>(ix: Index<K, M>, k: K, node: string, m: M): Index<K, M> {
    ix[k := (if k in ix then ix[k] else map[])[node := m]]
  }

  /** The index while a report of a node is being filed: its contributions so far
      stand over what the index held. */
  ghost predicate Overlaid<K(!new), M(!new)>(before: Index<K, M>, node: string, contrib: map<K, M>, ix: Index<K, M>) {
    && NoEmpty(ix)
    && forall k, n :: Lookup(ix, k, n) == if n == node && k in contrib then Some(contrib[k]) else Lookup(before, k, n)
  }

  lemma PutOverlaid<K(!new), M(!new)>(
      before: Index<K, M>, node: string, contrib: map<K, M>, ix: Index<K, M>, k: K, m: M)
    requires Overlaid(before, node, contrib, ix)
    ensures Overlaid(before, node, contrib[k := m], Put(ix, k, node, m))
  {
    var after := Put(ix, k, node, m);
    assert node in after[k];
    forall j, n
      ensures Lookup(after, j, n) == if n == node && j == k then Some(m) else Lookup(ix, j, n)
    {
    }
  }

  /** Dropping a node's contribution to every key its report did not touch, and
      the key once nothing is left under it. */
  function Forgotten<K, M>(ix: Index<K, M>, node: string, seen: set<K>): Index<K, M> {
    map k | k in ix && (k in seen || ix[k] - {node} != map[]) :: if k in seen then ix[k] else ix[k] - {node}
  }

  method Forget<K(==), M(==)>(ix: Index<K, M>, node: string, seen: set<K>) returns (out: Index<K, M>)
    ensures out == Forgotten(ix, node, seen)
  {
    out := ix;
    var todo := ix.Keys;
    while todo != {}
      invariant todo <= ix.Keys
      invariant out == map k | k in ix && (k in todo || k in seen || ix[k] - {node} != map[]) ::
        if k in todo || k in seen then ix[k] else ix[k] - {node}
      decreases |todo|
    {
      var k := Pick(todo);
      if k !in seen {
        var byNode := out[k] - {node};
        if byNode == map[] {
          out := out - {k};
        } else {
          out := out[k := byNode];
        }
      }
      todo := todo - {k};
    }
  }

  lemma OthersLeft<M>(byNode: map<string, M>, node: string, n: string)
    ensures n in byNode && n != node ==> byNode - {node} != map[]
  {
    if n in byNode && n != node {
      assert n in byNode - {node};
    }
  }

  lemma LiveLeft<M>(byNode: map<string, M>, live: set<string>, n: string)
    ensures n in byNode && n in live ==> Trimmed(byNode, live) != map[]
  {
    if n in byNode && n in live {
      assert n in Trimmed(byNode, live);
    }
  }

  lemma ForgottenLookup<K(!new), M(!new)>(ix: Index<K, M>, node: string, seen: set<K>)
    requires NoEmpty(ix)
    ensures NoEmpty(Forgotten(ix, node, seen))
    ensures forall k, n ::
      Lookup(Forgotten(ix, node, seen), k, n) == if n == node && k !in seen then None else Lookup(ix, k, n)
  {
    var out := Forgotten(ix, node, seen);
    forall k, n
      ensures Lookup(out, k, n) == if n == node && k !in seen then None else Lookup(ix, k, n)
    {
      if k in ix {
        OthersLeft(ix[k], node, n);
      }
    }
  }

  /** A filed report replaces the node's contributions wholesale. */
  lemma ReplaceAgrees<K(!new), M(!new)>(
      before: Index<K, M>, latest: Latest<K, M>, node: string, contrib: map<K, M>, ix: Index<K, M>)
    requires Agrees(before, latest) && Overlaid(before, node, contrib, ix)
    ensures Agrees(Forgotten(ix, node, contrib.Keys), latest[node := contrib])
  {
    hide Forgotten;
    var out := Forgotten(ix, node, contrib.Keys);
    ForgottenLookup(ix, node, contrib.Keys);
    forall k, n
      ensures Lookup(out, k, n) == Stated(latest[node := contrib], k, n)
    {
      assert Lookup(before, k, n) == Stated(latest, k, n);
    }
  }

  // ---- retention ----

  function KeepNodes<K, M>(ix: Index<K, M>, live: set<string>): Index<K, M> {
    map k | k in ix && Trimmed(ix[k], live) != map[] :: Trimmed(ix[k], live)
  }

  function Trimmed<M>(byNode: map<string, M>, live: set<string>): map<string, M> {
    map n | n in byNode && n in live :: byNode[n]
  }

  method RetainNodes<K(==), M(==)>(ix: Index<K, M>, live: set<string>) returns (out: Index<K, M>)
    ensures out == KeepNodes(ix, live)
  {
    hide Trimmed;
    out := ix;
    var todo := ix.Keys;
    while todo != {}
      invariant todo <= ix.Keys
      invariant out == map k | k in ix && (k in todo || Trimmed(ix[k], live) != map[]) ::
        if k in todo then ix[k] else Trimmed(ix[k], live)
      decreases |todo|
    {
      var k := Pick(todo);
      var byNode := Trim(out[k], live);
      if byNode == map[] {
        out := out - {k};
      } else {
        out := out[k := byNode];
      }
      todo := todo - {k};
    }
  }

  method Trim<M>(byNode: map<string, M>, live: set<string>) returns (out: map<string, M>)
    ensures out == Trimmed(byNode, live)
  {
    out := byNode;
    var todo := byNode.Keys;
    while todo != {}
      invariant todo <= byNode.Keys
      invariant out == map n | n in byNode && (n in todo || n in live) :: byNode[n]
      decreases |todo|
    {
      var n := Pick(todo);
      if n !in live {
        out := out - {n};
      }
      todo := todo - {n};
    }
  }

  lemma KeepNodesAgrees<K(!new), M(!new)>(ix: Index<K, M>, latest: Latest<K, M>, live: set<string>)
    requires Agrees(ix, latest)
    ensures Agrees(KeepNodes(ix, live), LatestOfNodes(latest, live))
  {
    var out := KeepNodes(ix, live);
    var kept := LatestOfNodes(latest, live);
    forall k, n
      ensures Lookup(out, k, n) == Stated(kept, k, n)
    {
      assert Lookup(ix, k, n) == Stated(latest, k, n);
      if k in ix {
        LiveLeft(ix[k], live, n);
      }
    }
  }

  /** Dropping the keys that are no longer live. */
  function KeepKeys<K, V>(m: map<K, V>, live: K -> bool): map<K, V> {
    map k | k in m && live(k) :: m[k]
  }

  method RetainKeys<K(==), V>(m: map<K, V>, live: K -> bool) returns (out: map<K, V>, evicted: nat)
    ensures out == KeepKeys(m, live)
    ensures evicted == |m| - |out|
  {
    out, evicted := m, 0;
    var todo := m.Keys;
    while todo != {}
      invariant todo <= m.Keys
      invariant out == map k | k in m && (k in todo || live(k)) :: m[k]
      invariant evicted == |m| - |out|
      decreases |todo|
    {
      var k := Pick(todo);
      if !live(k) {
        SizeDrops(out, k);
        out := out - {k};
        evicted := evicted + 1;
      }
      todo := todo - {k};
    }
  }

  lemma SizeDrops<K, V>(m: map<K, V>, k: K)
    requires k in m
    ensures |m - {k}| == |m| - 1
  {
    assert (m - {k}).Keys == m.Keys - {k};
  }

  function OnlyKeys<K, M>(contrib: map<K, M>, live: K -> bool): map<K, M> {
    map k | k in contrib && live(k) :: contrib[k]
  }

  function LatestOfKeys<K, M>(latest: Latest<K, M>, live: K -> bool): Latest<K, M> {
    map n | n in latest :: OnlyKeys(latest[n], live)
  }

  function LatestOfNodes<K, M>(latest: Latest<K, M>, live: set<string>): Latest<K, M> {
    map n | n in latest && n in live :: latest[n]
  }

  lemma KeepKeysAgrees<K(!new), M(!new)>(ix: Index<K, M>, latest: Latest<K, M>, live: K -> bool)
    requires Agrees(ix, latest)
    ensures Agrees(KeepKeys(ix, live), LatestOfKeys(latest, live))
  {
    var out := KeepKeys(ix, live);
    var kept := LatestOfKeys(latest, live);
    forall k, n
      ensures Lookup(out, k, n) == Stated(kept, k, n)
    {
      assert Lookup(ix, k, n) == Stated(latest, k, n);
    }
  }

  // ---- aggregation over nodes, in any order ----

  datatype Monoid<!M> = Monoid(zero: M, plus: (M, M) -> M)

  ghost predicate Commutative<M(!new)>(g: Monoid<M>) {
    && (forall a :: g.plus(g.zero, a) == a)
    && (forall a, b :: g.plus(a, b) == g.plus(b, a))
    && (forall a, b, c :: g.plus(g.plus(a, b), c) == g.plus(a, g.plus(b, c)))
  }

  ghost function Sum<M(!new)>(g: Monoid<M>, m: map<string, M>): M {
    if m == map[] then g.zero else
    var n :| n in m;
    g.plus(m[n], Sum(g, m - {n}))
  }

  lemma {:induction false} SumRemove<M(!new)>(g: Monoid<M>, m: map<string, M>, n: string)
    requires Commutative(g) && n in m
    ensures Sum(g, m) == g.plus(m[n], Sum(g, m - {n}))
    decreases |m|
  {
    hide Commutative;
    var c :| c in m && Sum(g, m) == g.plus(m[c], Sum(g, m - {c}));
    if c != n {
      var both := m - {c} - {n};
      SumRemove(g, m - {c}, n);
      SumRemove(g, m - {n}, c);
      assert m - {n} - {c} == both;
      Exchange(g, m[c], m[n], Sum(g, both));
    }
  }

  lemma Exchange<M(!new)>(g: Monoid<M>, a: M, b: M, c: M)
    requires Commutative(g)
    ensures g.plus(a, g.plus(b, c)) == g.plus(b, g.plus(a, c))
  {
    assert g.plus(g.plus(a, b), c) == g.plus(a, g.plus(b, c));
    assert g.plus(g.plus(b, a), c) == g.plus(b, g.plus(a, c));
  }

  lemma Laws<M(!new)>(g: Monoid<M>, a: M, b: M, c: M)
    requires Commutative(g)
    ensures g.plus(g.zero, a) == a && g.plus(a, g.zero) == a
    ensures g.plus(g.plus(a, b), c) == g.plus(a, g.plus(b, c))
  {
    assert g.plus(a, g.zero) == g.plus(g.zero, a);
  }

  /** The merging loop of a snapshot. */
  method Aggregate<M(!new)>(g: Monoid<M>, m: map<string, M>) returns (r: M)
    requires Commutative(g)
    ensures r == Sum(g, m)
  {
    hide Commutative;
    r := g.zero;
    Laws(g, Sum(g, m), g.zero, g.zero);
    var rest := m;
    while rest != map[]
      invariant g.plus(r, Sum(g, rest)) == Sum(g, m)
      decreases |rest|
    {
      var n := Pick(rest.Keys);
      SumRemove(g, rest, n);
      Laws(g, r, rest[n], Sum(g, rest - {n}));
      r := g.plus(r, rest[n]);
      SizeDrops(rest, n);
      rest := rest - {n};
    }
    Laws(g, r, g.zero, g.zero);
  }
}
