/** The order payload records are written in: by window start and then by the
    strings of their key, so that equal contents give equal bytes
    (internal/rollup/accumulator.go, internal/journal, internal/inventory/store.go). */
module Orders {
  import opened Basics

  /** What a record is sorted by. */
  datatype Rank = Rank(start: int, names: seq<string>)

  predicate NameLess(a: string, b: string) {
    if b == [] then false
    else if a == [] then true
    else a[0] < b[0] || (a[0] == b[0] && NameLess(a[1..], b[1..]))
  }

  /** Field by field, the first difference deciding. */
  predicate NamesLess(a: seq<string>, b: seq<string>) {
    if b == [] then false
    else if a == [] then true
    else NameLess(a[0], b[0]) || (a[0] == b[0] && NamesLess(a[1..], b[1..]))
  }

  predicate RankLess(a: Rank, b: Rank) {
    a.start < b.start || (a.start == b.start && NamesLess(a.names, b.names))
  }

  /** The first field decides, and the rest where it is equal. */
  lemma FirstDecides(x: string, xs: seq<string>, y: string, ys: seq<string>)
    ensures NamesLess([x] + xs, [y] + ys) <==> NameLess(x, y) || (x == y && NamesLess(xs, ys))
  {
    assert ([x] + xs)[1..] == xs && ([y] + ys)[1..] == ys;
  }

  lemma OneName(x: string, y: string)
    ensures NamesLess([x], [y]) <==> NameLess(x, y)
  {
    FirstDecides(x, [], y, []);
    assert [x] + [] == [x] && [y] + [] == [y];
  }

  lemma TwoNames(a: string, b: string, x: string, y: string)
    ensures NamesLess([a, b], [x, y]) <==> NameLess(a, x) || (a == x && NameLess(b, y))
  {
    hide NamesLess;
    FirstDecides(a, [b], x, [y]);
    OneName(b, y);
    assert [a] + [b] == [a, b] && [x] + [y] == [x, y];
  }

  lemma ThreeNames(a: string, b: string, c: string, x: string, y: string, z: string)
    ensures NamesLess([a, b, c], [x, y, z]) <==>
      NameLess(a, x) || (a == x && (NameLess(b, y) || (b == y && NameLess(c, z))))
  {
    hide NamesLess;
    FirstDecides(a, [b, c], x, [y, z]);
    TwoNames(b, c, y, z);
    assert [a] + [b, c] == [a, b, c] && [x] + [y, z] == [x, y, z];
  }

  // ---- it is a strict total order ----

  lemma {:induction false} NameLessTotal(a: string, b: string)
    requires a != b
    ensures NameLess(a, b) || NameLess(b, a)
  {
    if a != [] && b != [] && a[0] == b[0] {
      assert a == [a[0]] + a[1..] && b == [b[0]] + b[1..];
      NameLessTotal(a[1..], b[1..]);
    }
  }

  lemma {:induction false} NameLessTransitive(a: string, b: string, c: string)
    requires NameLess(a, b) && NameLess(b, c)
    ensures NameLess(a, c)
  {
    if a != [] && a[0] == b[0] == c[0] {
      NameLessTransitive(a[1..], b[1..], c[1..]);
    }
  }

  lemma {:induction false} NameLessStrict(a: string)
    ensures !NameLess(a, a)
  {
    if a != [] {
      NameLessStrict(a[1..]);
    }
  }

  lemma {:induction false} NamesLessTotal(a: seq<string>, b: seq<string>)
    requires a != b
    ensures NamesLess(a, b) || NamesLess(b, a)
  {
    if a != [] && b != [] {
      assert a == [a[0]] + a[1..] && b == [b[0]] + b[1..];
      if a[0] == b[0] {
        NamesLessTotal(a[1..], b[1..]);
      } else {
        NameLessTotal(a[0], b[0]);
      }
    }
  }

  lemma {:induction false} NamesLessTransitive(a: seq<string>, b: seq<string>, c: seq<string>)
    requires NamesLess(a, b) && NamesLess(b, c)
    ensures NamesLess(a, c)
  {
    hide NameLess;
    if a != [] {
      if a[0] == b[0] == c[0] {
        NameLessStrict(a[0]);
        if NamesLess(a[1..], b[1..]) && NamesLess(b[1..], c[1..]) {
          NamesLessTransitive(a[1..], b[1..], c[1..]);
        }
      } else if a[0] != b[0] && b[0] != c[0] {
        NameLessTransitive(a[0], b[0], c[0]);
      }
    }
  }

  lemma {:induction false} NamesLessStrict(a: seq<string>)
    ensures !NamesLess(a, a)
  {
    if a != [] {
      NameLessStrict(a[0]);
      NamesLessStrict(a[1..]);
    }
  }

  lemma RankLessTotal(a: Rank, b: Rank)
    requires a != b
    ensures RankLess(a, b) || RankLess(b, a)
  {
    if a.start == b.start {
      NamesLessTotal(a.names, b.names);
    }
  }

  lemma RankLessTransitive(a: Rank, b: Rank, c: Rank)
    requires RankLess(a, b) && RankLess(b, c)
    ensures RankLess(a, c)
  {
    if a.start == b.start == c.start {
      NamesLessTransitive(a.names, b.names, c.names);
    }
  }

  lemma RankLessStrict(a: Rank)
    ensures !RankLess(a, a)
  {
    NamesLessStrict(a.names);
  }

  // ---- sorted listings of a map ----

  ghost predicate Ascending<K, V>(rank: K -> Rank, out: seq<(K, V)>) {
    forall i, j :: 0 <= i < j < |out| ==> RankLess(rank(out[i].0), rank(out[j].0))
  }

  /** Every entry of the map once, in rank order. */
  ghost predicate Sorted<K(!new), V(!new)>(rank: K -> Rank, m: map<K, V>, out: seq<(K, V)>) {
    && Ascending(rank, out)
    && (forall e :: e in out <==> e.0 in m && m[e.0] == e.1)
  }

  /** No two of these keys share a rank. */
  ghost predicate Injective<K(!new)>(rank: K -> Rank, keys: set<K>) {
    forall a, b :: a in keys && b in keys && rank(a) == rank(b) ==> a == b
  }

  /** The key of least rank. */
  method Least<K(==, !new)>(rank: K -> Rank, keys: set<K>) returns (k: K)
    requires keys != {} && Injective(rank, keys)
    ensures k in keys && forall j :: j in keys && j != k ==> RankLess(rank(k), rank(j))
  {
    hide RankLess;
    k := Pick(keys);
    var todo := keys - {k};
    while todo != {}
      invariant k in keys && k !in todo && todo <= keys
      invariant forall j :: j in keys && j !in todo && j != k ==> RankLess(rank(k), rank(j))
      decreases |todo|
    {
      var j := Pick(todo);
      RankLessTotal(rank(k), rank(j));
      if RankLess(rank(j), rank(k)) {
        forall i | i in keys && i !in todo && i != k
          ensures RankLess(rank(j), rank(i))
        {
          RankLessTransitive(rank(j), rank(k), rank(i));
        }
        k := j;
      }
      todo := todo - {j};
    }
  }

  /** Sorting keys by rank. */
  method KeysInOrder<K(==, !new)>(rank: K -> Rank, keys: set<K>) returns (out: seq<K>)
    requires Injective(rank, keys)
    ensures forall k :: k in out <==> k in keys
    ensures forall i, j :: 0 <= i < j < |out| ==> RankLess(rank(out[i]), rank(out[j]))
  {
    hide RankLess;
    out := [];
    var todo := keys;
    while todo != {}
      invariant todo <= keys
      invariant forall k :: k in out <==> k in keys && k !in todo
      invariant forall j, k :: j in out && k in todo ==> RankLess(rank(j), rank(k))
      invariant forall i, j :: 0 <= i < j < |out| ==> RankLess(rank(out[i]), rank(out[j]))
      decreases |todo|
    {
      var k := Least(rank, todo);
      assert forall i :: 0 <= i < |out| ==> out[i] in out;
      out := out + [k];
      todo := todo - {k};
    }
  }

  /** Ranging over a map and sorting what was found. */
  method InOrder<K(==, !new), V(!new)>(rank: K -> Rank, m: map<K, V>) returns (out: seq<(K, V)>)
    requires Injective(rank, m.Keys)
    ensures Sorted(rank, m, out)
  {
    hide RankLess;
    var keys := KeysInOrder(rank, m.Keys);
    assert forall i :: 0 <= i < |keys| ==> keys[i] in keys;
    out := seq(|keys|, i requires 0 <= i < |keys| => (keys[i], m[keys[i]]));
    forall e
      ensures e in out <==> e.0 in m && m[e.0] == e.1
    {
      if e.0 in m && m[e.0] == e.1 {
        var i :| 0 <= i < |keys| && keys[i] == e.0;
        assert out[i] == e;
      }
    }
  }

  /** Deterministic bytes: a map has one sorted listing, whatever order it was
      ranged over in. */
  lemma {:induction false} SortedUnique<K(!new), V(!new)>(rank: K -> Rank, m: map<K, V>, a: seq<(K, V)>, b: seq<(K, V)>)
    requires Sorted(rank, m, a) && Sorted(rank, m, b)
    ensures a == b
    decreases |a|
  {
    hide RankLess;
    BothEmpty(a, b);
    if a != [] {
      LeastFirst(rank, m, a, b);
      var rest := m - {a[0].0};
      SortedTail(rank, m, a);
      SortedTail(rank, m, b);
      SortedUnique(rank, rest, a[1..], b[1..]);
      assert a == [a[0]] + a[1..] && b == [b[0]] + b[1..];
    }
  }

  lemma BothEmpty<T(!new)>(a: seq<T>, b: seq<T>)
    requires forall e :: e in a <==> e in b
    ensures a == [] <==> b == []
  {
    assert a != [] ==> a[0] in b;
    assert b != [] ==> b[0] in a;
  }

  lemma LeastFirst<K(!new), V(!new)>(rank: K -> Rank, m: map<K, V>, a: seq<(K, V)>, b: seq<(K, V)>)
    requires Sorted(rank, m, a) && Sorted(rank, m, b) && a != [] && b != []
    ensures a[0] == b[0]
  {
    hide RankLess;
    assert a[0] in b && b[0] in a;
    var i :| 0 <= i < |b| && b[i] == a[0];
    var j :| 0 <= j < |a| && a[j] == b[0];
    if i > 0 && j > 0 {
      RankLessTransitive(rank(a[0].0), rank(b[0].0), rank(a[0].0));
      RankLessStrict(rank(a[0].0));
    }
  }

  lemma SortedTail<K(!new), V(!new)>(rank: K -> Rank, m: map<K, V>, a: seq<(K, V)>)
    requires Sorted(rank, m, a) && a != []
    ensures Sorted(rank, m - {a[0].0}, a[1..])
  {
    hide RankLess;
    RankLessStrict(rank(a[0].0));
    assert a == [a[0]] + a[1..];
    assert forall e :: e in a <==> e == a[0] || e in a[1..];
    forall e | e in a[1..]
      ensures e.0 != a[0].0
    {
      var i :| 0 <= i < |a[1..]| && a[1..][i] == e;
      assert RankLess(rank(a[0].0), rank(a[i + 1].0));
    }
  }
}
