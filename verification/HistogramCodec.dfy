/** Sparse histograms on the grid: observing, merging and the payload codec
    (internal/rollup/histogram.go). The payload object is a map from bucket lower
    bound to count. */
module HistogramCodec {
  import opened Basics
  import opened Histograms

  datatype Histogram = Histogram(anchorShift: nat, counts: map<int, nat>)

  /** A bucket some value in the int64 range falls into. */
  predicate Reachable(anchor: nat, i: int) {
    && 0 <= i
    && LowerBound(anchor, i) <= MAX_INT64
    && Index(anchor, LowerBound(anchor, i)) == i
  }

  /** Every bucket is one some value falls into. */
  ghost predicate OnGrid(h: Histogram) {
    h.anchorShift <= 62 && forall i :: i in h.counts ==> Reachable(h.anchorShift, i)
  }

  /** What every histogram built by observing and merging looks like. */
  ghost predicate Valid(h: Histogram) {
    OnGrid(h) && forall i :: i in h.counts ==> h.counts[i] > 0
  }

  function Get(counts: map<int, nat>, i: int): nat {
    if i in counts then counts[i] else 0
  }

  function Observed(h: Histogram, v: int): Histogram {
    var i := Index(h.anchorShift, v);
    h.(counts := h.counts[i := Get(h.counts, i) + 1])
  }

  function MergeCounts(a: map<int, nat>, b: map<int, nat>): map<int, nat> {
    map i | i in a.Keys + (set k | k in b && b[k] != 0) :: Get(a, i) + Get(b, i)
  }

  function Merged(h: Histogram, o: Histogram): Result<Histogram> {
    if h.anchorShift != o.anchorShift then Err else Ok(h.(counts := MergeCounts(h.counts, o.counts)))
  }

  lemma MergeCountsAt(a: map<int, nat>, b: map<int, nat>, i: int)
    ensures i in MergeCounts(a, b) <==> i in a || Get(b, i) != 0
    ensures Get(MergeCounts(a, b), i) == Get(a, i) + Get(b, i)
  {
  }

  /** The merge loop, in whatever order the map is ranged over. */
  method Merge(h: Histogram, o: Histogram) returns (r: Result<Histogram>)
    ensures r == Merged(h, o)
  {
    hide MergeCounts;
    if h.anchorShift != o.anchorShift {
      return Err;
    }
    var counts: map<int, nat> := h.counts;
    var todo := o.counts.Keys;
    while todo != {}
      invariant todo <= o.counts.Keys
      invariant forall i :: i in counts <==> i in h.counts || (i !in todo && Get(o.counts, i) != 0)
      invariant forall i :: i in counts ==> counts[i] == Get(h.counts, i) + if i in todo then 0 else Get(o.counts, i)
      decreases |todo|
    {
      var i := Pick(todo);
      if o.counts[i] != 0 {
        counts := counts[i := Get(counts, i) + o.counts[i]];
      }
      todo := todo - {i};
    }
    forall i
      ensures i in counts <==> i in MergeCounts(h.counts, o.counts)
      ensures i in counts ==> counts[i] == MergeCounts(h.counts, o.counts)[i]
    {
      MergeCountsAt(h.counts, o.counts, i);
    }
    assert counts == MergeCounts(h.counts, o.counts);
    r := Ok(h.(counts := counts));
  }

  // ---- validity over whole runs ----

  lemma IndexReachable(anchor: nat, v: int)
    requires anchor <= 62 && v <= MAX_INT64
    ensures Reachable(anchor, Index(anchor, v))
  {
    hide Index, Bound;
    IndexUnderflow(anchor, v);
    if v < 0 {
      Pow2Positive(anchor);
      IndexExact(anchor, 0);
      IndexUnderflow(anchor, 0);
    } else {
      IndexExact(anchor, v);
      var i := Index(anchor, v);
      var low := LowerBound(anchor, i);
      IndexExact(anchor, low);
      IndexMonotone(anchor, low, v);
      if i > 0 {
        assert Bound(anchor, i - 1) <= low;
      }
    }
  }

  lemma Pow2Positive(n: nat)
    ensures Pow2(n) > 0
  {
  }

  lemma ObservedValid(h: Histogram, v: int)
    requires Valid(h) && v <= MAX_INT64
    ensures Valid(Observed(h, v))
  {
    IndexReachable(h.anchorShift, v);
  }

  lemma MergedValid(h: Histogram, o: Histogram)
    requires Valid(h) && Valid(o) && h.anchorShift == o.anchorShift
    ensures Merged(h, o).Ok? && Valid(Merged(h, o).value)
  {
  }

  // ---- the codec ----

  /** Occupied buckets have distinct lower bounds, in the order of their indices. */
  lemma LowerBoundsAscend(anchor: nat, i: int, j: int)
    requires anchor <= 62 && Reachable(anchor, i) && Reachable(anchor, j)
    ensures i < j <==> LowerBound(anchor, i) < LowerBound(anchor, j)
  {
    hide Index, Bound;
    var a, b := LowerBound(anchor, i), LowerBound(anchor, j);
    if a <= b {
      IndexMonotone(anchor, a, b);
    } else {
      IndexMonotone(anchor, b, a);
    }
  }

  /** The payload object of a histogram. */
  function Encoded(h: Histogram): map<int, nat> {
    map b | b in (set i | i in h.counts :: LowerBound(h.anchorShift, i)) :: Get(h.counts, Index(h.anchorShift, b))
  }

  /** Keys the decoder accepts. */
  predicate IsBucketBound(anchor: nat, b: int) {
    0 <= b <= MAX_INT64 && LowerBound(anchor, Index(anchor, b)) == b
  }

  /** The buckets the keys of an object stand for. */
  function Buckets(anchor: nat, raw: map<int, nat>): set<int> {
    set b | b in raw :: Index(anchor, b)
  }

  function Decoded(anchor: nat, raw: map<int, nat>): Result<map<int, nat>> {
    if forall b :: b in raw ==> IsBucketBound(anchor, b)
    then Ok(map i | i in Buckets(anchor, raw) :: raw[LowerBound(anchor, i)])
    else Err
  }

  lemma BucketsAt(anchor: nat, raw: map<int, nat>, i: int)
    requires forall b :: b in raw ==> IsBucketBound(anchor, b)
    ensures i in Buckets(anchor, raw) <==> LowerBound(anchor, i) in raw && Index(anchor, LowerBound(anchor, i)) == i
  {
    hide Index, LowerBound;
  }

  /** The decoding loop: every key is checked against the grid before its count
      is added, in whatever order the object is ranged over. */
  method Unmarshal(anchor: nat, raw: map<int, nat>) returns (r: Result<Histogram>)
    ensures r == match Decoded(anchor, raw) { case Ok(counts) => Ok(Histogram(anchor, counts)) case Err => Err }
  {
    hide Index, LowerBound, Buckets;
    var counts: map<int, nat> := map[];
    var todo := raw.Keys;
    while todo != {}
      invariant todo <= raw.Keys
      invariant forall b :: b in raw && b !in todo ==> IsBucketBound(anchor, b)
      invariant forall i :: i in counts <==>
        var b := LowerBound(anchor, i); b in raw && b !in todo && Index(anchor, b) == i
      invariant forall i :: i in counts ==> counts[i] == raw[LowerBound(anchor, i)]
      decreases |todo|
    {
      var b := Pick(todo);
      if b < 0 || b > MAX_INT64 {
        assert !IsBucketBound(anchor, b);
        return Err;
      }
      var i := BucketOf(anchor, b);
      if LowerBound(anchor, i) != b {
        assert !IsBucketBound(anchor, b);
        return Err;
      }
      counts := counts[i := Get(counts, i) + raw[b]];
      todo := todo - {b};
    }
    forall i
      ensures i in counts <==> i in Buckets(anchor, raw)
    {
      BucketsAt(anchor, raw, i);
    }
    assert Decoded(anchor, raw).value == counts;
    r := Ok(Histogram(anchor, counts));
  }

  /** Main codec result: decoding the encoding of any histogram on the grid -
      so of every one built by the package - gives it back. */
  lemma RoundTrip(h: Histogram)
    requires OnGrid(h)
    ensures Decoded(h.anchorShift, Encoded(h)) == Ok(h.counts)
  {
    hide Index, LowerBound, Buckets, Encoded;
    var raw := Encoded(h);
    forall b
      ensures b in raw ==> IsBucketBound(h.anchorShift, b)
    {
      EncodedAt(h, b);
    }
    var back := Decoded(h.anchorShift, raw).value;
    forall i
      ensures i in back <==> i in h.counts
      ensures i in back && i in h.counts ==> back[i] == h.counts[i]
    {
      BucketsAt(h.anchorShift, raw, i);
      EncodedAt(h, LowerBound(h.anchorShift, i));
    }
    assert back == h.counts;
  }

  lemma EncodedAt(h: Histogram, b: int)
    requires OnGrid(h)
    ensures b in Encoded(h) <==>
      Index(h.anchorShift, b) in h.counts && LowerBound(h.anchorShift, Index(h.anchorShift, b)) == b
    ensures b in Encoded(h) ==> IsBucketBound(h.anchorShift, b)
    ensures b in Encoded(h) ==> Encoded(h)[b] == h.counts[Index(h.anchorShift, b)]
  {
    hide Index, LowerBound;
    if b in Encoded(h) {
      var i :| i in h.counts && LowerBound(h.anchorShift, i) == b;
      assert Reachable(h.anchorShift, i);
    }
  }

  /** Decoding accepts nothing else: whatever it returns encodes to the same object. */
  lemma DecodeThenEncode(anchor: nat, raw: map<int, nat>)
    requires anchor <= 62 && Decoded(anchor, raw).Ok?
    ensures var h := Histogram(anchor, Decoded(anchor, raw).value);
      && OnGrid(h) && Encoded(h) == raw
      && (Valid(h) <==> forall b :: b in raw ==> raw[b] > 0)
  {
    hide Index, LowerBound, Buckets, Encoded;
    var h := Histogram(anchor, Decoded(anchor, raw).value);
    forall i | i in h.counts
      ensures Reachable(anchor, i)
      ensures LowerBound(anchor, i) in raw && h.counts[i] == raw[LowerBound(anchor, i)]
    {
      BucketsAt(anchor, raw, i);
      assert IsBucketBound(anchor, LowerBound(anchor, i));
      BucketNonNegative(anchor, LowerBound(anchor, i));
    }
    forall b
      ensures b in Encoded(h) <==> b in raw
      ensures b in raw ==> Encoded(h)[b] == raw[b]
    {
      EncodedAt(h, b);
      BucketsAt(anchor, raw, Index(anchor, b));
      assert b in raw ==> IsBucketBound(anchor, b);
    }
    forall b | b in raw
      ensures Index(anchor, b) in h.counts && h.counts[Index(anchor, b)] == raw[b]
    {
      assert IsBucketBound(anchor, b);
      BucketsAt(anchor, raw, Index(anchor, b));
    }
  }

  lemma BucketNonNegative(anchor: nat, v: nat)
    requires anchor <= 62 && v <= MAX_INT64
    ensures Index(anchor, v) >= 0
  {
    hide Index, Bound;
    IndexExact(anchor, v);
  }

  /** Which keys are bucket bounds: zero and the boundaries of that grid, as far
      as they fit in an int64. */
  lemma AcceptedKeys(anchor: nat, b: int)
    requires anchor <= 62
    ensures IsBucketBound(anchor, b) <==> 0 <= b <= MAX_INT64 && (b == 0 || exists j: nat :: Bound(anchor, j) == b)
  {
    hide Index, Bound;
    if 0 <= b <= MAX_INT64 {
      IndexExact(anchor, b);
      var i := Index(anchor, b);
      if j: nat :| Bound(anchor, j) == b {
        assert j < i;
        BoundMonotone(anchor, j, i - 1);
        assert Bound(anchor, i - 1) <= b;
      } else if i > 0 {
        assert LowerBound(anchor, i) == Bound(anchor, i - 1);
      }
    }
  }

  datatype Entry = Entry(bound: int, count: nat)

  ghost predicate Ascending(entries: seq<Entry>) {
    forall i, j :: 0 <= i < j < |entries| ==> entries[i].bound < entries[j].bound
  }

  /** Reading an object back: a repeated key takes the last value written. */
  function ParseObject(entries: seq<Entry>): map<int, nat> {
    if entries == [] then map[]
    else ParseObject(entries[..|entries| - 1])[Last(entries).bound := Last(entries).count]
  }

  /** The encoder: buckets in ascending order, so equal histograms give equal
      bytes and no key repeats. */
  method Marshal(h: Histogram) returns (entries: seq<Entry>)
    requires OnGrid(h)
    ensures Ascending(entries)
    ensures ParseObject(entries) == Encoded(h)
  {
    hide Index, LowerBound, Encoded;
    entries := [];
    var todo := h.counts.Keys;
    while todo != {}
      invariant todo <= h.counts.Keys
      invariant Ascending(entries)
      invariant forall e, i :: e in entries && i in todo ==> e.bound < LowerBound(h.anchorShift, i)
      invariant forall b :: b in ParseObject(entries) <==>
        var i := Index(h.anchorShift, b); i in h.counts && i !in todo && LowerBound(h.anchorShift, i) == b
      invariant forall b :: b in ParseObject(entries) ==> ParseObject(entries)[b] == h.counts[Index(h.anchorShift, b)]
      decreases |todo|
    {
      var i := Smallest(todo);
      var e := Entry(LowerBound(h.anchorShift, i), h.counts[i]);
      assert Reachable(h.anchorShift, i);
      forall k | k in todo - {i}
        ensures e.bound < LowerBound(h.anchorShift, k)
      {
        LowerBoundsAscend(h.anchorShift, i, k);
      }
      assert (entries + [e])[..|entries|] == entries;
      assert ParseObject(entries + [e]) == ParseObject(entries)[e.bound := e.count];
      entries := entries + [e];
      todo := todo - {i};
    }
    forall b
      ensures b in Encoded(h) <==> b in ParseObject(entries)
      ensures b in Encoded(h) ==> Encoded(h)[b] == ParseObject(entries)[b]
    {
      EncodedAt(h, b);
    }
  }
}
