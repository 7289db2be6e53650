/** A build's dependencies as its payload lists them: by path and version, equal
    neighbours once (internal/inventory/store.go). */
module Modules {
  import opened Basics
  import opened Orders

  datatype Module = Module(path: string, version: string, replaced: bool)

  function NamesOf(m: Module): seq<string> { [m.path, m.version] }

  predicate Precedes(a: Module, b: Module) { NamesLess(NamesOf(a), NamesOf(b)) }

  function Inserted(s: seq<Module>, x: Module): seq<Module> {
    if s == [] || !Precedes(x, Last(s)) then s + [x]
    else Inserted(s[..|s| - 1], x) + [Last(s)]
  }

  function Sorted(s: seq<Module>): seq<Module> {
    if s == [] then [] else Inserted(Sorted(s[..|s| - 1]), Last(s))
  }

  function Compacted(s: seq<Module>): seq<Module> {
    if |s| <= 1 then s
    else Compacted(s[..|s| - 1]) + if Last(s) == s[|s| - 2] then [] else [Last(s)]
  }

  /** The module list of a build fact. */
  function ModulesOf(dependencies: seq<Module>): seq<Module> { Compacted(Sorted(dependencies)) }

  /** Nothing comes before what it should follow. */
  ghost predicate Ordered(s: seq<Module>) {
    forall i, j :: 0 <= i < j < |s| ==> !Precedes(s[j], s[i])
  }

  lemma PrecedesCombined(a: Module, b: Module, c: Module)
    requires !Precedes(b, a) && !Precedes(c, b)
    ensures !Precedes(c, a)
  {
    if Precedes(c, a) {
      if NamesOf(a) == NamesOf(b) {
      } else {
        NamesLessTotal(NamesOf(a), NamesOf(b));
        NamesLessTransitive(NamesOf(c), NamesOf(a), NamesOf(b));
      }
    }
  }

  lemma {:induction false} InsertedOrdered(s: seq<Module>, x: Module)
    requires Ordered(s)
    ensures Ordered(Inserted(s, x))
    ensures forall m :: m in Inserted(s, x) <==> m in s || m == x
  {
    hide Precedes;
    if s == [] {
    } else if !Precedes(x, Last(s)) {
      forall i | 0 <= i < |s|
        ensures !Precedes(x, s[i])
      {
        if i < |s| - 1 {
          PrecedesCombined(s[i], Last(s), x);
        }
      }
    } else {
      var init, last := s[..|s| - 1], Last(s);
      InsertedOrdered(init, x);
      assert s == init + [last];
      PrecedesOneWay(x, last);
      forall i | 0 <= i < |Inserted(init, x)|
        ensures !Precedes(last, Inserted(init, x)[i])
      {
        assert Inserted(init, x)[i] in Inserted(init, x);
        if Inserted(init, x)[i] != x {
          var k :| 0 <= k < |init| && init[k] == Inserted(init, x)[i];
          assert s[k] == init[k] && s[|s| - 1] == last;
        }
      }
    }
  }

  lemma PrecedesOneWay(a: Module, b: Module)
    requires Precedes(a, b)
    ensures !Precedes(b, a)
  {
    if Precedes(b, a) {
      NamesLessTransitive(NamesOf(a), NamesOf(b), NamesOf(a));
      NamesLessStrict(NamesOf(a));
    }
  }

  lemma {:induction false} SortedOrdered(s: seq<Module>)
    ensures Ordered(Sorted(s))
    ensures forall m :: m in Sorted(s) <==> m in s
  {
    hide Inserted;
    if s != [] {
      var init := s[..|s| - 1];
      SortedOrdered(init);
      InsertedOrdered(Sorted(init), Last(s));
      assert s == init + [Last(s)];
    }
  }

  /** Ordered, the same modules, the same last one, and no two equal side by side. */
  ghost predicate CompactOf(r: seq<Module>, s: seq<Module>) {
    && Ordered(r) && (forall m :: m in r <==> m in s)
    && (s != [] ==> r != [] && Last(r) == Last(s))
    && (forall i :: 0 <= i < |r| - 1 ==> r[i] != r[i + 1])
  }

  lemma CompactMore(r: seq<Module>, s: seq<Module>, x: Module)
    requires CompactOf(r, s) && s != [] && Ordered(s + [x])
    ensures CompactOf(if x == Last(s) then r else r + [x], s + [x])
  {
    hide Precedes;
    forall i | 0 <= i < |r|
      ensures !Precedes(x, r[i])
    {
      assert r[i] in s;
      var k :| 0 <= k < |s| && s[k] == r[i];
      assert (s + [x])[k] == s[k] && (s + [x])[|s|] == x;
    }
    assert Last(s) in s;
  }

  lemma {:induction false} CompactedKeeps(s: seq<Module>)
    requires Ordered(s)
    ensures CompactOf(Compacted(s), s)
  {
    hide Precedes;
    if |s| > 1 {
      hide CompactOf;
      var init := s[..|s| - 1];
      assert s == init + [Last(s)] && Last(init) == s[|s| - 2];
      CompactedKeeps(init);
      CompactMore(Compacted(init), init, Last(s));
      assert Compacted(init) + [] == Compacted(init);
    }
  }

  /** Path and version name one module in these dependencies. */
  ghost predicate Consistent(dependencies: seq<Module>) {
    forall a, b :: a in dependencies && b in dependencies && NamesOf(a) == NamesOf(b) ==> a == b
  }

  /** The module list holds exactly the dependencies, none before one it should follow
      and no two equal side by side; where path and version name one module it is
      strictly ascending, and so the same whatever order the toolchain recorded. */
  lemma ModulesMeaning(dependencies: seq<Module>)
    ensures var r := ModulesOf(dependencies);
      && (forall m :: m in r <==> m in dependencies)
      && Ordered(r)
      && (forall i :: 0 <= i < |r| - 1 ==> r[i] != r[i + 1])
      && (Consistent(dependencies) ==> forall i :: 0 <= i < |r| - 1 ==> Precedes(r[i], r[i + 1]))
  {
    hide Sorted, Compacted, Precedes;
    SortedOrdered(dependencies);
    CompactedKeeps(Sorted(dependencies));
    var r := ModulesOf(dependencies);
    forall i | 0 <= i < |r| - 1
      ensures Consistent(dependencies) ==> Precedes(r[i], r[i + 1])
    {
      assert r[i] in r && r[i + 1] in r;
      Comparable(r[i], r[i + 1]);
    }
  }

  lemma Comparable(a: Module, b: Module)
    ensures NamesOf(a) == NamesOf(b) || Precedes(a, b) || Precedes(b, a)
  {
    if NamesOf(a) != NamesOf(b) {
      NamesLessTotal(NamesOf(a), NamesOf(b));
    }
  }
}
