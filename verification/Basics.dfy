/** Shared vocabulary: option and result types, the int64 range, and sums over
    sequences and maps that do not depend on the order of traversal. */
module Basics {

  datatype Option<+T> = None | Some(value: T)

  datatype Result<+T> = Ok(value: T) | Err

  const MAX_INT64: int := 0x7FFF_FFFF_FFFF_FFFF
  const MIN_INT64: int := -0x8000_0000_0000_0000
  const TWO_32: int := 0x1_0000_0000
  const TWO_64: int := 0x1_0000_0000_0000_0000

  function Min(a: int, b: int): int { if a <= b then a else b }

  function Max(a: int, b: int): int { if a >= b then a else b }

  /** Length of the interval [from, to), zero when it is empty. */
  function Gap(from: int, to: int): nat { if from < to then to - from else 0 }

  function Last<T>(s: seq<T>): T
    requires s != []
  {
    s[|s| - 1]
  }

  /** Some element of a set: where a loop ranging over a map happens to be. */
  method Pick<T>(s: set<T>) returns (x: T)
    requires s != {}
    ensures x in s
  {
    x :| x in s;
  }

  lemma SomeKey<K, V>(m: map<K, V>) returns (k: K)
    requires m != map[]
    ensures k in m
  {
    k :| k in m;
  }

  /** The least element of a set, as a sort would put it first. */
  method Smallest(s: set<int>) returns (m: int)
    requires s != {}
    ensures m in s && forall k :: k in s ==> m <= k
  {
    m := Pick(s);
    var todo := s - {m};
    while todo != {}
      invariant m in s && todo <= s && forall k :: k in s && k !in todo ==> m <= k
      decreases |todo|
    {
      var k := Pick(todo);
      if k < m {
        m := k;
      }
      todo := todo - {k};
    }
  }

  /** Sum of a sequence of integers. */
  function SumSeq(s: seq<int>): int {
    if s == [] then 0 else SumSeq(s[..|s| - 1]) + Last(s)
  }

  lemma {:induction false} SumSeqConcat(a: seq<int>, b: seq<int>)
    ensures SumSeq(a + b) == SumSeq(a) + SumSeq(b)
  {
    if b == [] {
      assert a + b == a;
    } else {
      SumSeqConcat(a, b[..|b| - 1]);
      assert (a + b)[..|a + b| - 1] == a + b[..|b| - 1];
    }
  }

  /** Taking one place out of a sequence takes its element out once. */
  lemma TakeOut<T>(b: seq<T>, i: nat)
    requires i < |b|
    ensures b == b[..i] + [b[i]] + b[i + 1..]
    ensures multiset(b[..i] + b[i + 1..]) == multiset(b) - multiset{b[i]}
  {
    var before, after := b[..i], b[i + 1..];
    assert b == before + [b[i]] + after;
    assert multiset(b) == multiset(before) + multiset{b[i]} + multiset(after);
    assert multiset(before + after) == multiset(before) + multiset(after);
  }

  lemma TakeLast<T>(a: seq<T>)
    requires a != []
    ensures Last(a) in multiset(a) && multiset(a[..|a| - 1]) == multiset(a) - multiset{Last(a)}
  {
    var rest := a[..|a| - 1];
    assert a == rest + [Last(a)];
  }

  /** In two orders of the same elements, the last element of one has a place in the other. */
  lemma PlaceOf<T>(a: seq<T>, b: seq<T>) returns (i: int)
    requires a != [] && multiset(a) == multiset(b)
    ensures 0 <= i < |b| && b[i] == Last(a)
    ensures b == b[..i] + [Last(a)] + b[i + 1..]
    ensures multiset(a[..|a| - 1]) == multiset(b[..i] + b[i + 1..])
  {
    TakeLast(a);
    assert Last(a) in multiset(b);
    i :| 0 <= i < |b| && b[i] == Last(a);
    TakeOut(b, i);
  }

  lemma SameMembers<T>(a: seq<T>, b: seq<T>)
    requires multiset(a) == multiset(b)
    ensures |a| == |b|
    ensures forall x :: x in a <==> x in b
  {
    assert |multiset(a)| == |a| && |multiset(b)| == |b|;
    assert forall x :: x in a <==> x in multiset(a);
    assert forall x :: x in b <==> x in multiset(b);
  }

  function Elements<T>(s: seq<T>): set<T> { set x | x in s }

  lemma {:induction false} DistinctCount<T>(s: seq<T>)
    requires forall i, j :: 0 <= i < j < |s| ==> s[i] != s[j]
    ensures |Elements(s)| == |s|
  {
    if s != [] {
      var init := s[..|s| - 1];
      DistinctCount(init);
      assert s == init + [Last(s)];
      assert Elements(s) == Elements(init) + {Last(s)};
    }
  }

  lemma {:induction false} SmallerSet<T>(a: set<T>, b: set<T>)
    requires a <= b
    ensures |a| <= |b|
    decreases a
  {
    if a != {} {
      var x :| x in a;
      SmallerSet(a - {x}, b - {x});
    }
  }

  lemma DisjointCount<T>(a: set<T>, b: set<T>, all: set<T>)
    requires a <= all && b <= all && a !! b
    ensures |a| + |b| <= |all|
  {
    assert |a + b| == |a| + |b|;
    SmallerSet(a + b, all);
  }

  /** Sum of a weight over the entries of a map: the total a range loop adds up,
      in whatever order the loop runs. */
  ghost function Total<K(!new), V(!new)>(m: map<K, V>, f: (K, V) -> int): int {
    if m == map[] then 0 else
    var k :| k in m;
    f(k, m[k]) + Total(m - {k}, f)
  }

  lemma {:induction false} TotalRemove<K(!new), V(!new)>(m: map<K, V>, f: (K, V) -> int, k: K)
    requires k in m
    ensures Total(m, f) == f(k, m[k]) + Total(m - {k}, f)
    decreases |m|
  {
    var c :| c in m && Total(m, f) == f(c, m[c]) + Total(m - {c}, f);
    if c != k {
      TotalRemove(m - {c}, f, k);
      TotalRemove(m - {k}, f, c);
      assert m - {c} - {k} == m - {k} - {c};
    }
  }

  /** Writing one entry moves the total by the difference of the two weights. */
  lemma TotalUpdate<K(!new), V(!new)>(m: map<K, V>, f: (K, V) -> int, k: K, v: V)
    ensures Total(m[k := v], f) == Total(m, f) - (if k in m then f(k, m[k]) else 0) + f(k, v)
  {
    TotalRemove(m[k := v], f, k);
    if k in m {
      TotalRemove(m, f, k);
      assert m[k := v] - {k} == m - {k};
    } else {
      assert m[k := v] - {k} == m;
    }
  }

  lemma UnionRemove<K(!new), V(!new)>(a: map<K, V>, b: map<K, V>, k: K)
    requires a.Keys !! b.Keys && k in b
    ensures (a + b) - {k} == a + (b - {k})
    ensures (a + b)[k] == b[k]
    ensures a.Keys !! (b - {k}).Keys
  {
  }

  /** The total of two maps with no key in common is the sum of their totals. */
  lemma {:induction false} TotalUnion<K(!new), V(!new)>(a: map<K, V>, b: map<K, V>, f: (K, V) -> int)
    requires a.Keys !! b.Keys
    ensures Total(a + b, f) == Total(a, f) + Total(b, f)
    decreases |b|
  {
    if b == map[] {
      assert a + b == a;
    } else {
      var k :| k in b;
      UnionRemove(a, b, k);
      TotalRemove(b, f, k);
      var u := a + b;
      TotalRemove(u, f, k);
      var rest := b - {k};
      assert |rest| < |b|;
      TotalUnion(a, rest, f);
    }
  }

  /** Totals compare entry by entry. */
  lemma {:induction false} TotalAtMost<K(!new)>(a: map<K, int>, b: map<K, int>, f: (K, int) -> int)
    requires a.Keys == b.Keys && forall k :: k in a ==> f(k, a[k]) <= f(k, b[k])
    ensures Total(a, f) <= Total(b, f)
    decreases |a|
  {
    if a != map[] {
      var k :| k in a;
      TotalRemove(a, f, k);
      TotalRemove(b, f, k);
      TotalAtMost(a - {k}, b - {k}, f);
    } else {
      assert b == map[];
    }
  }

  /** Entries of weight zero may come and go without moving the total. */
  lemma {:induction false} TotalSame<K(!new), V(!new)>(a: map<K, V>, b: map<K, V>, f: (K, V) -> int)
    requires forall k :: k in a ==> k in b && f(k, a[k]) == f(k, b[k])
    requires forall k :: k in b && k !in a ==> f(k, b[k]) == 0
    ensures Total(a, f) == Total(b, f)
    decreases |b|
  {
    if b == map[] {
      assert a == map[];
    } else {
      var k :| k in b;
      TotalRemove(b, f, k);
      if k in a {
        TotalRemove(a, f, k);
        TotalSame(a - {k}, b - {k}, f);
      } else {
        TotalSame(a, b - {k}, f);
      }
    }
  }

  ghost function WeightAt<K(!new), V(!new)>(m: map<K, V>, f: (K, V) -> int, k: K): int {
    if k in m then f(k, m[k]) else 0
  }

  /** Where only one entry's weight differs, the totals differ by that entry. */
  lemma TotalChange<K(!new), V(!new)>(a: map<K, V>, b: map<K, V>, f: (K, V) -> int, k: K)
    requires forall j :: j in a && j != k ==> j in b && f(j, a[j]) == f(j, b[j])
    requires forall j :: j in b && j !in a && j != k ==> f(j, b[j]) == 0
    ensures Total(b, f) - WeightAt(b, f, k) == Total(a, f) - WeightAt(a, f, k)
  {
    var c, d := a - {k}, b - {k};
    TotalSame(c, d, f);
    if k in a {
      TotalRemove(a, f, k);
    } else {
      assert c == a;
    }
    if k in b {
      TotalRemove(b, f, k);
    } else {
      assert d == b;
    }
  }
}
