/** What the window journals share: records filed under a subject and a window,
    closed when the window ends, resumed from a previous process
    (internal/journal). */
module Journals {
  import opened Basics
  import opened Orders
  import opened Windows

  /** Where a record is filed. */
  datatype Slot<+S> = Slot(of: S, start: int)

  function StillOpen<S(==), R>(length: int, open: map<Slot<S>, R>, now: int): map<Slot<S>, R> {
    map k | k in open && k.start + length > now :: open[k]
  }

  function ClosedAt<S(==), R>(length: int, open: map<Slot<S>, R>, now: int): map<Slot<S>, R> {
    map k | k in open && k.start + length <= now :: open[k]
  }

  /** A record is handed over exactly when its window can hold no instant any more, and kept
      otherwise. */
  lemma ClosedIff<S(!new), R(!new)>(length: int, open: map<Slot<S>, R>, now: int, k: Slot<S>)
    requires length > 0 && k in open && StartOf(length, k.start) == k.start
    ensures k in ClosedAt(length, open, now) <==> forall at | at >= now :: StartOf(length, at) != k.start
    ensures k in ClosedAt(length, open, now) <==> k !in StillOpen(length, open, now)
    ensures k in ClosedAt(length, open, now) ==> ClosedAt(length, open, now)[k] == open[k]
    ensures k in StillOpen(length, open, now) ==> StillOpen(length, open, now)[k] == open[k]
  {
    hide StartOf;
    forall at | at >= now
      ensures StartOf(length, at) == k.start <==> k.start <= at < k.start + length
    {
      OneWindow(length, at, k.start);
    }
    if k.start + length > now {
      var at := Max(now, k.start);
      OneWindow(length, at, k.start);
      assert at >= now && StartOf(length, at) == k.start;
    }
  }

  /** Recovered records, added where nothing is held under their slot yet. */
  function ResumedAll<S(==), R>(open: map<Slot<S>, R>, records: seq<(Slot<S>, R)>): map<Slot<S>, R> {
    if records == [] then open else
    var o := ResumedAll(open, records[..|records| - 1]);
    if Last(records).0 in o then o else o[Last(records).0 := Last(records).1]
  }

  /** Resuming keeps what is open and adds each missing slot once, from its records. */
  lemma {:induction false} ResumeKeeps<S(!new), R(!new)>(open: map<Slot<S>, R>, records: seq<(Slot<S>, R)>)
    ensures var o := ResumedAll(open, records);
      && (forall k :: k in open ==> k in o && o[k] == open[k])
      && (forall k :: k in o && k !in open ==> (k, o[k]) in records)
      && (forall r :: r in records ==> r.0 in o)
  {
    if records != [] {
      ResumeKeeps(open, records[..|records| - 1]);
      assert records == records[..|records| - 1] + [Last(records)];
    }
  }

  /** Closing moves records and loses none. */
  lemma CloseTotal<S(!new), R(!new)>(length: int, open: map<Slot<S>, R>, now: int, weight: (Slot<S>, R) -> int)
    ensures Total(open, weight)
         == Total(StillOpen(length, open, now), weight) + Total(ClosedAt(length, open, now), weight)
  {
    var a, b := StillOpen(length, open, now), ClosedAt(length, open, now);
    assert open == a + b;
    TotalUnion(a, b, weight);
  }

  /** A total over what was handed over so far. */
  ghost function HandedTotal<S(!new), R(!new)>(handed: seq<map<Slot<S>, R>>, weight: (Slot<S>, R) -> int): int {
    if handed == [] then 0 else HandedTotal(handed[..|handed| - 1], weight) + Total(Last(handed), weight)
  }

  /** A total over every window there has been, handed over or open. */
  ghost function AllWindows<S(!new), R(!new)>(
      open: map<Slot<S>, R>, handed: seq<map<Slot<S>, R>>, weight: (Slot<S>, R) -> int): int {
    Total(open, weight) + HandedTotal(handed, weight)
  }

  /** Handing windows over leaves the total over all windows as it was. */
  lemma HandOver<S(!new), R(!new)>(
      length: int, open: map<Slot<S>, R>, handed: seq<map<Slot<S>, R>>, now: int, weight: (Slot<S>, R) -> int)
    ensures AllWindows(StillOpen(length, open, now), handed + [ClosedAt(length, open, now)], weight)
         == AllWindows(open, handed, weight)
  {
    hide StillOpen, ClosedAt, Total;
    CloseTotal(length, open, now, weight);
    assert (handed + [ClosedAt(length, open, now)])[..|handed|] == handed;
  }

  method Resume<S(==), R>(open: map<Slot<S>, R>, records: seq<(Slot<S>, R)>)
      returns (after: map<Slot<S>, R>, seeded: nat)
    ensures after == ResumedAll(open, records)
    ensures seeded == |after| - |open|
  {
    after, seeded := open, 0;
    for i := 0 to |records|
      invariant after == ResumedAll(open, records[..i])
      invariant seeded == |after| - |open|
    {
      assert records[..i + 1][..i] == records[..i];
      if records[i].0 !in after {
        after := after[records[i].0 := records[i].1];
        seeded := seeded + 1;
      }
    }
    assert records[..|records|] == records;
  }

  /** Ranges over the open records, taking out those whose window ended. */
  method Close<S(==, !new), R(!new)>(length: int, open: map<Slot<S>, R>, now: int, rank: Slot<S> -> Rank)
    returns (kept: map<Slot<S>, R>, out: seq<(Slot<S>, R)>)
    requires Injective(rank, open.Keys)
    ensures kept == StillOpen(length, open, now)
    ensures Sorted(rank, ClosedAt(length, open, now), out)
  {
    kept := open;
    var gone: map<Slot<S>, R> := map[];
    var todo := open.Keys;
    while todo != {}
      invariant todo <= open.Keys
      invariant kept == map k | k in open && (k in todo || k.start + length > now) :: open[k]
      invariant gone == map k | k in open && k !in todo && k.start + length <= now :: open[k]
      decreases |todo|
    {
      var k := Pick(todo);
      if k.start + length <= now {
        gone := gone[k := open[k]];
        kept := kept - {k};
      }
      todo := todo - {k};
    }
    assert gone == ClosedAt(length, open, now);
    out := InOrder(rank, gone);
  }
}
