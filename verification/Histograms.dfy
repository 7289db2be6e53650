/** The frozen logarithmic bucket grid and the sparse histogram on it
    (internal/rollup/histogram.go). */
module Histograms {
  import opened Basics

  /** The eight steps of an octave, powers of the eighth root of two scaled by 2^32. */
  const OCTAVE_STEPS: seq<int> := [
    4294967296, 4683695048, 5107605667, 5569883475,
    6074001000, 6623745059, 7223245206, 7877004752]

  const CPU_ANCHOR_SHIFT: nat := 0
  const MEMORY_ANCHOR_SHIFT: nat := 20

  function Pow2(n: nat): (p: nat)
    ensures p > 0
  {
    if n == 0 then 1 else 2 * Pow2(n - 1)
  }

  /** Number of bits of a word, as bits.Len64 counts them. */
  function Len64(u: nat): nat {
    if u == 0 then 0 else 1 + Len64(u / 2)
  }

  /** Boundary j of the grid: the high and low words of the product, shifted
      down by the fraction width, saturating past the top octave. */
  function Bound(anchor: nat, j: int): nat {
    if j < 0 then 0 else
    var shift := anchor + j / 8;
    if shift > 62 then TWO_64 - 1 else
    var product := Pow2(shift) * OCTAVE_STEPS[j % 8];
    var hi, lo := product / TWO_64, product % TWO_64;
    (hi * TWO_32) % TWO_64 + lo / TWO_32
  }

  function LowerBound(anchor: nat, i: int): nat {
    if i <= 0 then 0 else Bound(anchor, i - 1)
  }

  function UpperBound(anchor: nat, i: int): nat {
    Bound(anchor, i)
  }

  function SearchDown(anchor: nat, u: nat, q: nat, m: nat): int {
    if m == 0 then 8 * q + 1
    else if Bound(anchor, 8 * q + m) <= u then 8 * q + m + 1
    else SearchDown(anchor, u, q, m - 1)
  }

  /** Bucket of a value. */
  function Index(anchor: nat, v: int): int {
    if v < Pow2(anchor) then 0 else
    var len := Len64(v / Pow2(anchor));
    if len == 0 then 1 else SearchDown(anchor, v, len - 1, 7)
  }

  /** The bucket search as the loop it is: the octave from the bit length, then
      at most seven comparisons downwards. */
  method BucketOf(anchor: nat, v: int) returns (i: int)
    ensures i == Index(anchor, v)
  {
    hide Bound, Pow2, Len64;
    if v < Pow2(anchor) {
      return 0;
    }
    var len := Len64(v / Pow2(anchor));
    if len == 0 {
      return 1;
    }
    var q := len - 1;
    for m := 7 downto 0
      invariant Index(anchor, v) == SearchDown(anchor, v, q, m)
    {
      var j := 8 * q + m + 1;
      if Bound(anchor, j) <= v {
        return j + 1;
      }
    }
    i := 8 * q + 1;
  }

  // ---- powers of two ----

  lemma {:induction false} Pow2Add(m: nat, n: nat)
    ensures Pow2(m + n) == Pow2(m) * Pow2(n)
  {
    if m > 0 {
      Pow2Add(m - 1, n);
      assert Pow2(m + n) == 2 * (Pow2(m - 1) * Pow2(n)) == (2 * Pow2(m - 1)) * Pow2(n);
    }
  }

  lemma {:induction false} Pow2Monotone(m: nat, n: nat)
    requires m <= n
    ensures Pow2(m) <= Pow2(n)
  {
    if m < n {
      Pow2Monotone(m, n - 1);
    }
  }

  lemma Pow2Small()
    ensures Pow2(1) == 2 && Pow2(2) == 4
  {
    assert Pow2(0) == 1;
  }

  lemma Pow2Top()
    ensures Pow2(62) == 0x4000_0000_0000_0000 && Pow2(63) == 0x8000_0000_0000_0000
  {
    hide Pow2;
    Pow2Small();
    Pow2Add(2, 2);
    Pow2Add(4, 4);
    Pow2Add(8, 8);
    Pow2Add(16, 16);
    Pow2Add(32, 32);
    Pow2Add(62, 2);
    Pow2Add(63, 1);
  }

  lemma {:induction false} LenBounds(u: nat)
    requires u > 0
    ensures Len64(u) > 0 && Pow2(Len64(u) - 1) <= u < Pow2(Len64(u))
  {
    if u > 1 {
      LenBounds(u / 2);
    }
  }

  // ---- the grid ----

  /** The two-word product is the exact fixed-point boundary. */
  lemma BoundExact(anchor: nat, j: nat)
    requires anchor + j / 8 <= 62
    ensures Bound(anchor, j) == Pow2(anchor + j / 8) * OCTAVE_STEPS[j % 8] / TWO_32
    ensures Bound(anchor, j) <= MAX_INT64
  {
    var shift, step := anchor + j / 8, OCTAVE_STEPS[j % 8];
    Pow2Monotone(shift, 62);
    Pow2Top();
    ProductBound(Pow2(shift), step, 0x4000_0000_0000_0000, 7877004752);
    WordShift(Pow2(shift) * step);
  }

  lemma ProductBound(a: nat, b: nat, top: nat, step: nat)
    requires a <= top && b <= step
    ensures 0 <= a * b <= top * step
  {
    assert (top - a) * b >= 0;
    assert top * (step - b) >= 0;
  }

  lemma WordShift(product: nat)
    requires product <= 0x4000_0000_0000_0000 * 7877004752
    ensures (product / TWO_64 * TWO_32) % TWO_64 + (product % TWO_64) / TWO_32 == product / TWO_32 <= MAX_INT64
  {
    var hi, lo := product / TWO_64, product % TWO_64;
    assert hi < TWO_32;
    assert product == (hi * TWO_32) * TWO_32 + lo;
  }

  lemma BoundAnchor(anchor: nat, q: nat)
    requires anchor + q <= 62
    ensures Bound(anchor, 8 * q) == Pow2(anchor + q)
  {
    BoundExact(anchor, 8 * q);
  }

  /** Neighbouring boundaries never cross, and grow by at most 9.1 percent plus
      the rounding of one unit below the saturated top. */
  lemma BoundStep(anchor: nat, j: nat)
    ensures Bound(anchor, j) <= Bound(anchor, j + 1)
    ensures anchor + (j + 1) / 8 <= 62 ==> 1000 * Bound(anchor, j + 1) <= 1091 * (Bound(anchor, j) + 1)
  {
    hide Bound, Pow2;
    if anchor + (j + 1) / 8 <= 62 {
      BoundExact(anchor, j);
      BoundExact(anchor, j + 1);
      StepWithin(anchor, j);
    } else {
      BoundSaturated(anchor, j + 1);
      BoundBelowTop(anchor, j);
    }
  }

  lemma BoundSaturated(anchor: nat, j: nat)
    requires anchor + j / 8 > 62
    ensures Bound(anchor, j) == TWO_64 - 1
  {
  }

  lemma BoundBelowTop(anchor: nat, j: nat)
    ensures Bound(anchor, j) <= TWO_64 - 1
  {
    hide Pow2;
    if anchor + j / 8 <= 62 {
      BoundExact(anchor, j);
    }
  }

  lemma StepWithin(anchor: nat, j: nat)
    ensures var b0 := Pow2(anchor + j / 8) * OCTAVE_STEPS[j % 8] / TWO_32;
      var b1 := Pow2(anchor + (j + 1) / 8) * OCTAVE_STEPS[(j + 1) % 8] / TWO_32;
      b0 <= b1 && 1000 * b1 <= 1091 * (b0 + 1)
  {
    var p := Pow2(anchor + j / 8);
    var m := j % 8;
    if m == 7 {
      assert (j + 1) / 8 == j / 8 + 1 && (j + 1) % 8 == 0;
      assert Pow2(anchor + (j + 1) / 8) == 2 * p;
    } else {
      assert (j + 1) / 8 == j / 8 && (j + 1) % 8 == m + 1;
    }
  }

  lemma {:induction false} BoundMonotone(anchor: nat, j: nat, k: nat)
    requires j <= k
    ensures Bound(anchor, j) <= Bound(anchor, k)
  {
    if j < k {
      BoundMonotone(anchor, j, k - 1);
      BoundStep(anchor, k - 1);
    }
  }

  // ---- the bucket search ----

  /** The octave the bit length picks brackets the value between its anchor
      boundary and the next one. */
  lemma OctaveBrackets(anchor: nat, v: nat, q: nat)
    requires anchor <= 62 && Pow2(anchor) <= v <= MAX_INT64
    requires q + 1 == Len64(v / Pow2(anchor))
    ensures Bound(anchor, 8 * q) <= v < Bound(anchor, 8 * q + 8)
  {
    hide Bound, Len64;
    var unit := Pow2(anchor);
    var u := v / unit;
    QuotientPositive(v, unit);
    LenBounds(u);
    Pow2Add(anchor, q);
    Pow2Add(anchor, q + 1);
    Scale(unit, Pow2(q), u, Pow2(q + 1), v);
    Pow2Top();
    if anchor + q >= 63 {
      Pow2Monotone(63, anchor + q);
      assert false;
    }
    BoundAnchor(anchor, q);
    if anchor + q + 1 <= 62 {
      BoundAnchor(anchor, q + 1);
    } else {
      BoundSaturated(anchor, 8 * q + 8);
    }
  }

  lemma QuotientPositive(v: int, unit: int)
    requires 0 < unit <= v
    ensures v / unit > 0
  {
  }

  lemma Scale(unit: int, low: int, u: int, high: int, v: int)
    requires 0 < unit && low <= u < high && u == v / unit
    ensures unit * low <= v < unit * high
  {
    assert v == unit * u + v % unit;
    TimesMonotone(unit, low, u);
    TimesMonotone(unit, u + 1, high);
    assert unit * (u + 1) == unit * u + unit;
  }

  lemma TimesMonotone(unit: int, a: int, b: int)
    requires 0 < unit && a <= b
    ensures unit * a <= unit * b
  {
  }

  lemma {:induction false} SearchBrackets(anchor: nat, u: nat, q: nat, m: nat)
    requires Bound(anchor, 8 * q) <= u < Bound(anchor, 8 * q + m + 1)
    ensures var i := SearchDown(anchor, u, q, m);
      i >= 1 && Bound(anchor, i - 1) <= u < Bound(anchor, i)
  {
    hide Bound;
    if m > 0 && Bound(anchor, 8 * q + m) > u {
      SearchBrackets(anchor, u, q, m - 1);
    }
  }

  /** Main result for the grid: a value lies in its bucket, and the boundaries at
      or below it are exactly those below the bucket's index. */
  lemma IndexExact(anchor: nat, v: nat)
    requires anchor <= 62 && v <= MAX_INT64
    ensures 0 <= Index(anchor, v)
    ensures LowerBound(anchor, Index(anchor, v)) <= v < UpperBound(anchor, Index(anchor, v))
    ensures forall j: nat :: Bound(anchor, j) <= v <==> j < Index(anchor, v)
  {
    hide Bound, Len64, SearchDown;
    var i := Index(anchor, v);
    IndexBrackets(anchor, v);
    forall j: nat
      ensures Bound(anchor, j) <= v <==> j < i
    {
      if j < i {
        BoundMonotone(anchor, j, i - 1);
      } else {
        BoundMonotone(anchor, i, j);
      }
    }
  }

  lemma IndexBrackets(anchor: nat, v: nat)
    requires anchor <= 62 && v <= MAX_INT64
    ensures 0 <= Index(anchor, v)
    ensures LowerBound(anchor, Index(anchor, v)) <= v < Bound(anchor, Index(anchor, v))
  {
    hide Bound, Len64, SearchDown;
    if v < Pow2(anchor) {
      BoundAnchor(anchor, 0);
    } else {
      QuotientPositive(v, Pow2(anchor));
      LenBounds(v / Pow2(anchor));
      var q := Len64(v / Pow2(anchor)) - 1;
      OctaveBrackets(anchor, v, q);
      SearchBrackets(anchor, v, q, 7);
    }
  }

  lemma IndexMonotone(anchor: nat, v: nat, w: nat)
    requires anchor <= 62 && v <= w <= MAX_INT64
    ensures Index(anchor, v) <= Index(anchor, w)
  {
    hide Bound, Index;
    IndexExact(anchor, v);
    IndexExact(anchor, w);
    var i := Index(anchor, v);
    if i > 0 {
      assert Bound(anchor, i - 1) <= v;
    }
  }

  /** Below the saturated top no bucket is wider than 9.1 percent of its lower
      edge, give or take one unit. */
  lemma BucketWidth(anchor: nat, i: nat)
    requires 1 <= i && anchor + i / 8 <= 62
    ensures 1000 * UpperBound(anchor, i) <= 1091 * (LowerBound(anchor, i) + 1)
  {
    BoundStep(anchor, i - 1);
  }

  /** Negative inputs go to the underflow bucket with everything below the anchor. */
  lemma IndexUnderflow(anchor: nat, v: int)
    requires anchor <= 62 && v <= MAX_INT64
    ensures Index(anchor, v) == 0 <==> v < Pow2(anchor)
  {
    hide Bound, Len64, SearchDown;
    if v >= Pow2(anchor) {
      IndexBrackets(anchor, v);
      BoundAnchor(anchor, 0);
    }
  }

  function Eighth(x: int): int { var four := x * x * (x * x); four * four }

  /** Each step is the 32.32 value nearest to its power of the eighth root of two: half a unit
      less is below it and half a unit more above, in eighth powers of twice the values. */
  lemma StepsNearest(m: nat)
    requires m < 8
    ensures Eighth(2 * OCTAVE_STEPS[m] - 1) < Pow2(264 + m) < Eighth(2 * OCTAVE_STEPS[m] + 1)
  {
    hide Pow2;
    Pow2Literal();
    Pow2Add(m, 264);
    Pow2Eight();
  }

  lemma Pow2Eight()
    ensures Pow2(0) == 1 && Pow2(1) == 2 && Pow2(2) == 4 && Pow2(3) == 8
    ensures Pow2(4) == 16 && Pow2(5) == 32 && Pow2(6) == 64 && Pow2(7) == 128
  {
  }

  lemma Pow2Literal()
    ensures Pow2(264) == 0x100_0000_0000_0000_0000_0000_0000_0000_0000_0000_0000_0000_0000_0000_0000_0000_0000
  {
    hide Pow2;
    Pow2Eight();
    Pow2Add(4, 4);
    Pow2Add(8, 8);
    Pow2Add(16, 16);
    Pow2Add(32, 32);
    Pow2Add(64, 64);
    Pow2Add(128, 128);
    Pow2Add(256, 8);
  }
}
