/** The chunked search for the pprof marker in an executable
    (internal/nodescan/pprofmark.go). */
module Markers {
  import opened Basics

  type Byte = bv8

  const SCAN_CHUNK_BYTES: nat := 65536

  predicate OccursAt(data: seq<Byte>, marker: seq<Byte>, i: int) {
    0 <= i && i + |marker| <= |data| && data[i..i + |marker|] == marker
  }

  /** The pattern occurs somewhere in the bytes. */
  ghost predicate Contains(data: seq<Byte>, marker: seq<Byte>) {
    exists i :: OccursAt(data, marker, i)
  }

  /** bytes.Contains. */
  method ContainsBytes(data: seq<Byte>, marker: seq<Byte>) returns (b: bool)
    ensures b == Contains(data, marker)
  {
    for i := 0 to |data| + 1
      invariant forall j :: 0 <= j < i ==> !OccursAt(data, marker, j)
    {
      if OccursAt(data, marker, i) {
        return true;
      }
    }
    return false;
  }

  /** One call of Read: the bytes it returned and whether it also returned an
      error or the end of the file. */
  datatype Read = Read(bytes: seq<Byte>, last: bool)

  /** Everything a reader yields up to and including the read that ended it. */
  function Yielded(calls: seq<Read>): seq<Byte> {
    if calls == [] then []
    else calls[0].bytes + if calls[0].last then [] else Yielded(calls[1..])
  }

  /** The bytes carried over to the next chunk: one less than the marker's length. */
  function Tail(seen: seq<Byte>, overlap: nat): seq<Byte> {
    if |seen| > overlap then seen[|seen| - overlap..] else seen
  }

  lemma OccursInFront(seen: seq<Byte>, chunk: seq<Byte>, marker: seq<Byte>, i: int)
    ensures OccursAt(seen + chunk, marker, i) && i + |marker| <= |seen| ==> OccursAt(seen, marker, i)
  {
    if OccursAt(seen + chunk, marker, i) && i + |marker| <= |seen| {
      assert seen[i..i + |marker|] == (seen + chunk)[i..i + |marker|];
    }
  }

  lemma SuffixOccurs(all: seq<Byte>, marker: seq<Byte>, cut: nat, i: int)
    requires cut <= |all| && i >= 0
    ensures OccursAt(all[cut..], marker, i) <==> OccursAt(all, marker, i + cut)
  {
    if i + |marker| <= |all| - cut {
      assert all[cut..][i..i + |marker|] == all[i + cut..i + cut + |marker|];
    }
  }

  /** An occurrence that is not in what was seen ends inside the new chunk, so
      the carried tail is enough to see it. */
  lemma TailSuffices(seen: seq<Byte>, chunk: seq<Byte>, marker: seq<Byte>)
    requires marker != [] && !Contains(seen, marker)
    ensures Contains(seen + chunk, marker) <==> Contains(Tail(seen, |marker| - 1) + chunk, marker)
  {
    var all, buf := seen + chunk, Tail(seen, |marker| - 1) + chunk;
    var cut := |all| - |buf|;
    assert all[cut..] == buf;
    if Contains(all, marker) {
      var i :| OccursAt(all, marker, i);
      OccursInFront(seen, chunk, marker, i);
      assert i >= cut;
      SuffixOccurs(all, marker, cut, i - cut);
    }
    if Contains(buf, marker) {
      var i :| OccursAt(buf, marker, i);
      SuffixOccurs(all, marker, cut, i);
    }
  }

  lemma TailGrows(seen: seq<Byte>, chunk: seq<Byte>, overlap: nat)
    ensures Tail(Tail(seen, overlap) + chunk, overlap) == Tail(seen + chunk, overlap)
  {
  }

  lemma ContainsGrows(a: seq<Byte>, b: seq<Byte>, marker: seq<Byte>)
    requires Contains(a, marker)
    ensures Contains(a + b, marker)
  {
    var i :| OccursAt(a, marker, i);
    assert (a + b)[i..i + |marker|] == a[i..i + |marker|];
    assert OccursAt(a + b, marker, i);
  }

  /** The streaming search: for every way the reader chunks its bytes, it answers
      whether the marker occurs in their concatenation, and what it carries from one
      chunk to the next is always shorter than the marker. */
  method ScanForMarker(calls: seq<Read>, marker: seq<Byte>) returns (found: bool, ghost carried: seq<nat>)
    requires marker != []
    requires calls != [] && Last(calls).last
    requires forall r :: r in calls ==> |r.bytes| <= SCAN_CHUNK_BYTES
    ensures found == Contains(Yielded(calls), marker)
    ensures forall n :: n in carried ==> n < |marker|
  {
    hide Contains, Yielded, Tail;
    var overlap := |marker| - 1;
    var buf: seq<Byte> := [];
    var n := 0;
    carried := [];
    ghost var seen: seq<Byte> := [];
    NothingYet(marker, overlap);
    assert calls[0..] == calls && [] + Yielded(calls) == Yielded(calls);
    while true
      invariant 0 <= n < |calls|
      invariant buf == Tail(seen, overlap) && |buf| <= overlap
      invariant !Contains(seen, marker)
      invariant forall k :: k in carried ==> k <= overlap
      invariant Yielded(calls) == seen + Yielded(calls[n..])
      decreases |calls| - n
    {
      var r := calls[n];
      assert r in calls;
      ghost var rest := if r.last then [] else Yielded(calls[n + 1..]);
      YieldedStep(calls, n);
      assert Yielded(calls) == (seen + r.bytes) + rest;
      TailSuffices(seen, r.bytes, marker);
      TailGrows(seen, r.bytes, overlap);
      if |r.bytes| > 0 {
        buf := buf + r.bytes;
        assert |buf| <= SCAN_CHUNK_BYTES + overlap;
        var hit := ContainsBytes(buf, marker);
        if hit {
          ContainsGrows(seen + r.bytes, rest, marker);
          found := true;
          return;
        }
        TailOf(buf, overlap);
        if |buf| > overlap {
          buf := buf[|buf| - overlap..];
        }
      } else {
        assert buf + r.bytes == buf && seen + r.bytes == seen;
      }
      seen := seen + r.bytes;
      carried := carried + [|buf|];
      if r.last {
        assert seen + rest == seen;
        found := false;
        return;
      }
      n := n + 1;
    }
  }

  lemma YieldedStep(calls: seq<Read>, n: nat)
    requires n < |calls|
    ensures Yielded(calls[n..]) == calls[n].bytes + if calls[n].last then [] else Yielded(calls[n + 1..])
  {
    assert calls[n..][1..] == calls[n + 1..];
  }

  lemma TailOf(buf: seq<Byte>, overlap: nat)
    ensures Tail(buf, overlap) == if |buf| > overlap then buf[|buf| - overlap..] else buf
  {
  }

  lemma NothingYet(marker: seq<Byte>, overlap: nat)
    requires marker != []
    ensures !Contains([], marker) && Tail([], overlap) == []
  {
  }
}
