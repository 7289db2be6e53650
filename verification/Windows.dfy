/** Wall-clock windows and the pro-rata splitter (internal/rollup/window.go).
    Instants are integer nanoseconds since the zero time. */
module Windows {
  import opened Basics

  /** Start of the aligned window holding an instant. */
  function StartOf(length: int, at: int): (s: int)
    requires length > 0
    ensures s <= at < s + length
  {
    at - at % length
  }

  /** Difference of two instants as a Duration: it saturates at the int64 range. */
  function Sub(a: int, b: int): (d: int) {
    Max(MIN_INT64, Min(MAX_INT64, a - b))
  }

  /** a*b/c through a 128-bit product, saturating where the quotient does not fit. */
  function MulDiv(a: int, b: int, c: int): (q: int) {
    if a < 0 || b < 0 || c <= 0 then 0 else
    var hi, lo := a * b / TWO_64, a * b % TWO_64;
    if hi >= c then MAX_INT64 else
    var q := (hi * TWO_64 + lo) / c;
    if q > MAX_INT64 then MAX_INT64 else q
  }

  /** The two-word arithmetic is the mathematical quotient, capped. */
  lemma MulDivExact(a: int, b: int, c: int)
    requires 0 <= a && 0 <= b && 0 < c
    ensures 0 <= a * b
    ensures MulDiv(a, b, c) == Min(a * b / c, MAX_INT64)
  {
    var p := a * b;
    if p / TWO_64 >= c {
      DivLower(p, c, TWO_64);
    }
  }

  lemma DivLower(p: int, c: int, q: int)
    requires 0 < c && c * q <= p
    ensures q <= p / c
  {
    MulCancel(c, q, p / c + 1);
  }

  lemma MulCancel(c: int, x: int, y: int)
    requires 0 < c && c * x < c * y
    ensures x < y
  {
    assert x >= y ==> c * (x - y) >= 0;
  }

  lemma DivUpper(p: int, c: int, q: int)
    requires 0 < c && p <= c * q
    ensures p / c <= q
  {
    MulCancel(c, p / c, q + 1);
  }

  /** One window's share of an interval total. */
  datatype Part = Part(start: int, amount: int)

  function Amounts(parts: seq<Part>): (s: seq<int>)
    ensures |s| == |parts|
  {
    seq(|parts|, i requires 0 <= i < |parts| => parts[i].amount)
  }

  function SplitFrom(length: int, to: int, amount: int, total: int, segFrom: int, remaining: int): (parts: seq<Part>)
    requires length > 0
    decreases Gap(segFrom, to)
  {
    if segFrom >= to then []
    else
      var start := StartOf(length, segFrom);
      var segTo := start + length;
      if segTo < to then
        var part := MulDiv(amount, Sub(segTo, segFrom), total);
        [Part(start, part)] + SplitFrom(length, to, amount, total, segTo, remaining - part)
      else
        [Part(start, remaining)]
  }

  lemma SplitStep(length: int, to: int, amount: int, total: int, segFrom: int, remaining: int)
    requires length > 0 && segFrom < to
    ensures var start := StartOf(length, segFrom);
      var segTo := start + length;
      var part := MulDiv(amount, Sub(segTo, segFrom), total);
      SplitFrom(length, to, amount, total, segFrom, remaining) ==
      if segTo < to
      then [Part(start, part)] + SplitFrom(length, to, amount, total, segTo, remaining - part)
      else [Part(start, remaining)]
  {
  }

  /** The windows [from, to) overlaps, each with its share of amount. */
  function SplitSpec(length: int, from: int, to: int, amount: int): (parts: seq<Part>)
    requires length > 0
  {
    var total := Sub(to, from);
    if total <= 0 || amount < 0 then [] else SplitFrom(length, to, amount, total, from, amount)
  }

  /** The splitter loop. */
  method Split(length: int, from: int, to: int, amount: int) returns (parts: seq<Part>)
    requires length > 0
    ensures parts == SplitSpec(length, from, to, amount)
  {
    hide MulDiv, StartOf, SplitFrom;
    parts := [];
    var total := Sub(to, from);
    if total <= 0 || amount < 0 {
      return;
    }
    var remaining := amount;
    var segFrom := from;
    ghost var tail := SplitFrom(length, to, amount, total, from, amount);
    while segFrom < to
      invariant tail == SplitFrom(length, to, amount, total, segFrom, remaining)
      invariant parts + tail == SplitFrom(length, to, amount, total, from, amount)
      decreases Gap(segFrom, to)
    {
      SplitStep(length, to, amount, total, segFrom, remaining);
      var segTo := StartOf(length, segFrom) + length;
      var part := remaining;
      if segTo < to {
        part := MulDiv(amount, Sub(segTo, segFrom), total);
        remaining := remaining - part;
      } else {
        segTo := to;
        SplitPast(length, to, amount, total, to, remaining);
      }
      ghost var next := SplitFrom(length, to, amount, total, segTo, remaining);
      assert tail == [Part(StartOf(length, segFrom), part)] + next;
      SeqShift(parts, tail, Part(StartOf(length, segFrom), part), next);
      parts := parts + [Part(StartOf(length, segFrom), part)];
      segFrom, tail := segTo, next;
    }
    SplitPast(length, to, amount, total, segFrom, remaining);
  }

  lemma SplitPast(length: int, to: int, amount: int, total: int, segFrom: int, remaining: int)
    requires length > 0 && segFrom >= to
    ensures SplitFrom(length, to, amount, total, segFrom, remaining) == []
  {
  }

  lemma SeqShift<T>(done: seq<T>, tail: seq<T>, head: T, next: seq<T>)
    requires tail == [head] + next
    ensures done + tail == (done + [head]) + next
  {
  }

  /** How much of [from, to) lies in the window starting at start. */
  function Overlap(length: int, from: int, to: int, start: int): int {
    Min(start + length, to) - Max(start, from)
  }

  /** Parts are the consecutive windows of [from, to), first to last. */
  ghost predicate Consecutive(length: int, from: int, to: int, parts: seq<Part>)
    requires length > 0
  {
    && parts != []
    && parts[0].start == StartOf(length, from)
    && Last(parts).start == StartOf(length, to - 1)
    && forall i :: 0 <= i < |parts| - 1 ==> parts[i + 1].start == parts[i].start + length
  }

  lemma StartOfNext(length: int, at: int)
    requires length > 0
    ensures StartOf(length, StartOf(length, at) + length) == StartOf(length, at) + length
  {
    var q := at / length;
    assert StartOf(length, at) + length == (q + 1) * length;
    MultipleMod(q + 1, length);
  }

  lemma MultipleMod(q: int, length: int)
    requires length > 0
    ensures (q * length) % length == 0
  {
    assert (q * length) / length == q by {
      DivLower(q * length, length, q);
      DivUpper(q * length, length, q);
    }
  }

  /** Two instants share a window exactly when neither leaves the other's. */
  lemma SameStart(length: int, s: int, at: int)
    requires length > 0 && StartOf(length, s) == s && s <= at < s + length
    ensures StartOf(length, at) == s
  {
    var a, b := at / length, s / length;
    assert s == length * b && at == length * a + at % length;
    MulCancel(length, b, a + 1);
    MulCancel(length, a, b + 1);
  }

  lemma StartOfAligned(length: int, at: int)
    requires length > 0
    ensures StartOf(length, StartOf(length, at)) == StartOf(length, at)
  {
    assert StartOf(length, at) == (at / length) * length;
    MultipleMod(at / length, length);
  }

  lemma ConsecutiveCons(length: int, from: int, next: int, to: int, head: Part, rest: seq<Part>)
    requires length > 0 && Consecutive(length, next, to, rest)
    requires head.start == StartOf(length, from) && StartOf(length, next) == head.start + length
    ensures Consecutive(length, from, to, [head] + rest)
  {
    var parts := [head] + rest;
    assert Last(parts) == Last(rest);
    assert forall i :: 1 <= i < |parts| ==> parts[i] == rest[i - 1];
  }

  /** The splitter visits consecutive aligned windows covering the interval. */
  lemma {:induction false} SplitFromWindows(length: int, to: int, amount: int, total: int, segFrom: int, remaining: int)
    requires length > 0 && segFrom < to
    ensures Consecutive(length, segFrom, to, SplitFrom(length, to, amount, total, segFrom, remaining))
    decreases Gap(segFrom, to)
  {
    hide MulDiv, StartOf, SplitFrom;
    SplitStep(length, to, amount, total, segFrom, remaining);
    var start := StartOf(length, segFrom);
    var segTo := start + length;
    if segTo < to {
      var part := MulDiv(amount, Sub(segTo, segFrom), total);
      SplitFromWindows(length, to, amount, total, segTo, remaining - part);
      StartOfNext(length, segFrom);
      ConsecutiveCons(length, segFrom, segTo, to, Part(start, part),
                      SplitFrom(length, to, amount, total, segTo, remaining - part));
    } else {
      StartOfAligned(length, segFrom);
      SameStart(length, start, to - 1);
    }
  }

  /** Every part but the last is the scaled overlap of its window. */
  ghost predicate Scaled(length: int, from: int, to: int, amount: int, total: int, parts: seq<Part>) {
    forall i :: 0 <= i < |parts| - 1 ==>
      && parts[i].start + length < to
      && parts[i].amount == MulDiv(amount, parts[i].start + length - Max(parts[i].start, from), total)
  }

  lemma {:induction false} SplitFromScaled(length: int, to: int, amount: int, total: int, segFrom: int, remaining: int)
    requires 0 < length <= MAX_INT64 && segFrom < to
    ensures Scaled(length, segFrom, to, amount, total, SplitFrom(length, to, amount, total, segFrom, remaining))
    ensures forall p :: p in SplitFrom(length, to, amount, total, segFrom, remaining) ==>
      p.start >= StartOf(length, segFrom)
    decreases Gap(segFrom, to)
  {
    hide MulDiv, StartOf, SplitFrom;
    SplitStep(length, to, amount, total, segFrom, remaining);
    var start := StartOf(length, segFrom);
    var segTo := start + length;
    if segTo < to {
      var part := MulDiv(amount, Sub(segTo, segFrom), total);
      var rest := SplitFrom(length, to, amount, total, segTo, remaining - part);
      SplitFromScaled(length, to, amount, total, segTo, remaining - part);
      StartOfNext(length, segFrom);
      ScaledCons(length, segFrom, segTo, to, amount, total, Part(start, part), rest);
    }
  }

  lemma ScaledCons(length: int, from: int, next: int, to: int, amount: int, total: int, head: Part, rest: seq<Part>)
    requires Scaled(length, next, to, amount, total, rest)
    requires forall p :: p in rest ==> p.start >= next
    requires head.start <= from <= next == head.start + length < to
    requires head.amount == MulDiv(amount, next - from, total)
    ensures Scaled(length, from, to, amount, total, [head] + rest)
  {
    var parts := [head] + rest;
    forall i | 0 <= i < |parts| - 1
      ensures parts[i].start + length < to
      ensures parts[i].amount == MulDiv(amount, parts[i].start + length - Max(parts[i].start, from), total)
    {
      if i > 0 {
        assert parts[i] == rest[i - 1] && rest[i - 1] in rest;
      }
    }
  }

  lemma {:induction false} SplitFromSum(length: int, to: int, amount: int, total: int, segFrom: int, remaining: int)
    requires length > 0 && segFrom < to
    ensures SumSeq(Amounts(SplitFrom(length, to, amount, total, segFrom, remaining))) == remaining
    decreases Gap(segFrom, to)
  {
    hide MulDiv, StartOf, SplitFrom;
    SplitStep(length, to, amount, total, segFrom, remaining);
    var start := StartOf(length, segFrom);
    var segTo := start + length;
    var parts := SplitFrom(length, to, amount, total, segFrom, remaining);
    if segTo < to {
      var part := MulDiv(amount, Sub(segTo, segFrom), total);
      var rest := SplitFrom(length, to, amount, total, segTo, remaining - part);
      SplitFromSum(length, to, amount, total, segTo, remaining - part);
      assert Amounts(parts) == [part] + Amounts(rest);
      SumSeqConcat([part], Amounts(rest));
      assert SumSeq([part]) == part;
    } else {
      assert Amounts(parts) == [remaining];
    }
  }

  /** An interval total on an amount equal to itself scales to the overlap. */
  lemma MulDivWhole(total: int, seg: int)
    requires 0 < total <= MAX_INT64 && 0 <= seg <= MAX_INT64
    ensures MulDiv(total, seg, total) == seg
  {
    MulDivExact(total, seg, total);
    DivLower(total * seg, total, seg);
    DivUpper(total * seg, total, seg);
  }

  /** Splitting the duration itself: the last window gets what is left after the
      exact overlaps of the others. */
  lemma {:induction false} SplitFromWhole(length: int, to: int, total: int, segFrom: int, remaining: int)
    requires 0 < length <= MAX_INT64 && segFrom < to && 0 < total <= MAX_INT64
    ensures var parts := SplitFrom(length, to, total, total, segFrom, remaining);
      parts != [] && Last(parts).amount == remaining - Gap(segFrom, StartOf(length, to - 1))
    decreases Gap(segFrom, to)
  {
    hide MulDiv, StartOf, SplitFrom;
    SplitStep(length, to, total, total, segFrom, remaining);
    var start := StartOf(length, segFrom);
    var segTo := start + length;
    if segTo < to {
      var seg := Sub(segTo, segFrom);
      MulDivWhole(total, seg);
      SplitFromWhole(length, to, total, segTo, remaining - seg);
      StartOfNext(length, segFrom);
      assert StartOf(length, to - 1) >= segTo by { StartOfMonotone(length, segTo, to - 1); }
    } else {
      StartOfAligned(length, segFrom);
      SameStart(length, start, to - 1);
    }
  }

  lemma StartOfMonotone(length: int, a: int, b: int)
    requires length > 0 && a <= b
    ensures StartOf(length, a) <= StartOf(length, b)
  {
    var q, r := a / length, b / length;
    MulCancel(length, q, r + 1);
    assert length * (r - q) >= 0;
  }

  /** What the segments handed out so far leave behind never goes negative while
      they cover no more than total. */
  lemma {:induction false} SplitFromNonNegative(length: int, from: int, to: int, amount: int, total: int,
      segFrom: int, remaining: int)
    requires 0 < length && from <= segFrom < to && 0 < total && 0 <= amount
    requires segFrom == from || StartOf(length, segFrom) == segFrom
    requires StartOf(length, to - 1) - from <= total
    requires (amount - remaining) * total <= amount * (segFrom - from)
    ensures forall p :: p in SplitFrom(length, to, amount, total, segFrom, remaining) ==> p.amount >= 0
    decreases Gap(segFrom, to)
  {
    hide MulDiv, StartOf, SplitFrom;
    SplitStep(length, to, amount, total, segFrom, remaining);
    var start := StartOf(length, segFrom);
    var segTo := start + length;
    if segTo < to {
      var seg := Sub(segTo, segFrom);
      var part := MulDiv(amount, seg, total);
      ShareBound(amount, seg, total);
      StartOfNext(length, segFrom);
      StepBound(amount, remaining, part, total, segFrom - from, seg, segTo - segFrom);
      SplitFromNonNegative(length, from, to, amount, total, segTo, remaining - part);
    } else {
      StartOfAligned(length, segFrom);
      SameStart(length, start, to - 1);
      RemainingNonNegative(amount, remaining, total, segFrom - from);
    }
  }

  lemma ShareBound(amount: int, seg: int, total: int)
    requires 0 <= amount && 0 <= seg && 0 < total
    ensures 0 <= MulDiv(amount, seg, total)
    ensures MulDiv(amount, seg, total) * total <= amount * seg
  {
    hide MulDiv;
    MulDivExact(amount, seg, total);
    var p := amount * seg;
    DivLower(p, total, 0);
    CappedShare(p, total, p / total, MulDiv(amount, seg, total));
  }

  lemma CappedShare(p: int, total: int, q: int, capped: int)
    requires 0 < total && q * total <= p && capped <= q
    ensures capped * total <= p
  {
    assert (q - capped) * total >= 0;
  }

  lemma StepBound(amount: int, remaining: int, part: int, total: int, done: int, seg: int, width: int)
    requires 0 <= amount && seg <= width && part * total <= amount * seg
    requires (amount - remaining) * total <= amount * done
    ensures (amount - (remaining - part)) * total <= amount * (done + width)
  {
    assert amount * (width - seg) >= 0;
  }

  lemma RemainingNonNegative(amount: int, remaining: int, total: int, done: int)
    requires 0 <= amount && 0 < total && done <= total
    requires (amount - remaining) * total <= amount * done
    ensures remaining >= 0
  {
    assert amount * (total - done) >= 0;
    assert total * (remaining + 1) > 0;
    MulCancel(total, 0, remaining + 1);
  }

  /** Main result for the splitter: consecutive aligned windows covering the
      interval, non-negative parts adding up to exactly the amount, and every
      part but the last the floor of its exact share. */
  lemma SplitExact(length: int, from: int, to: int, amount: int)
    requires 0 < length <= MAX_INT64 && from < to && to - from <= MAX_INT64
    requires 0 <= amount <= MAX_INT64
    ensures var parts := SplitSpec(length, from, to, amount);
      && Consecutive(length, from, to, parts)
      && SumSeq(Amounts(parts)) == amount
      && (forall p :: p in parts ==> p.amount >= 0)
      && (forall i :: 0 <= i < |parts| - 1 ==>
            parts[i].amount == amount * Overlap(length, from, to, parts[i].start) / (to - from))
  {
    hide MulDiv, StartOf, SplitFrom;
    var total := to - from;
    var parts := SplitSpec(length, from, to, amount);
    SplitFromWindows(length, to, amount, total, from, amount);
    SplitFromSum(length, to, amount, total, from, amount);
    SplitFromScaled(length, to, amount, total, from, amount);
    SplitFromNonNegative(length, from, to, amount, total, from, amount);
    forall i | 0 <= i < |parts| - 1
      ensures parts[i].amount == amount * Overlap(length, from, to, parts[i].start) / total
    {
      var o := Overlap(length, from, to, parts[i].start);
      assert parts[i] in parts;
      ShareFits(amount, o, total);
    }
  }

  lemma ShareFits(amount: int, seg: int, total: int)
    requires 0 <= amount <= MAX_INT64 && 0 <= seg <= total && 0 < total
    ensures MulDiv(amount, seg, total) == amount * seg / total
  {
    MulDivExact(amount, seg, total);
    assert amount * (total - seg) >= 0;
    DivUpper(amount * seg, total, amount);
  }

  /** Splitting the interval's own duration gives each window exactly its overlap. */
  lemma SplitDuration(length: int, from: int, to: int)
    requires 0 < length <= MAX_INT64 && from < to && to - from <= MAX_INT64
    ensures forall p :: p in SplitSpec(length, from, to, to - from) ==>
      p.amount == Overlap(length, from, to, p.start)
  {
    hide MulDiv, StartOf, SplitFrom;
    var total := to - from;
    var parts := SplitSpec(length, from, to, total);
    SplitFromWindows(length, to, total, total, from, total);
    SplitFromScaled(length, to, total, total, from, total);
    SplitFromWhole(length, to, total, from, total);
    forall i | 0 <= i < |parts|
      ensures parts[i].amount == Overlap(length, from, to, parts[i].start)
    {
      if i < |parts| - 1 {
        assert parts[i] in parts;
        MulDivWhole(total, Overlap(length, from, to, parts[i].start));
      } else {
        assert parts[i] == Last(parts);
      }
    }
  }

  /** Time.Sub saturates, so the promise of non-negative parts depends on the
      interval: it holds for every amount exactly when the start of the last
      window is within the int64 range of from. */
  lemma SplitNonNegativeIff(length: int, from: int, to: int)
    requires 0 < length <= MAX_INT64 && from < to
    ensures (forall amount | 0 <= amount <= MAX_INT64 ::
               forall p :: p in SplitSpec(length, from, to, amount) ==> p.amount >= 0)
       <==> StartOf(length, to - 1) - from <= MAX_INT64
  {
    var total := Sub(to, from);
    if StartOf(length, to - 1) - from <= MAX_INT64 {
      forall amount | 0 <= amount <= MAX_INT64
        ensures forall p :: p in SplitSpec(length, from, to, amount) ==> p.amount >= 0
      {
        SplitFromNonNegative(length, from, to, amount, total, from, amount);
      }
    } else {
      SplitFromWhole(length, to, total, from, total);
      var parts := SplitSpec(length, from, to, total);
      assert Last(parts) in parts && Last(parts).amount < 0;
    }
  }

  /** A concrete interval past the saturation point: the third window is charged -1. */
  lemma SplitSaturatedExample()
    ensures SplitSpec(MAX_INT64, 0, 3 * MAX_INT64, 1)
         == [Part(0, 1), Part(MAX_INT64, 1), Part(2 * MAX_INT64, -1)]
  {
    hide MulDiv, StartOf, SplitFrom;
    var n := MAX_INT64;
    MulDivWhole(n, 1);
    MulDivCommutes(1, n, n);
    StartOfMultiple(n, 0);
    StartOfMultiple(n, 1);
    StartOfMultiple(n, 2);
    SplitStep(n, 3 * n, 1, n, 2 * n, -1);
    SplitStep(n, 3 * n, 1, n, n, 0);
    SplitStep(n, 3 * n, 1, n, 0, 1);
  }

  lemma MulDivCommutes(a: int, b: int, c: int)
    requires 0 <= a && 0 <= b && 0 < c
    ensures MulDiv(a, b, c) == MulDiv(b, a, c)
  {
    hide MulDiv;
    MulDivExact(a, b, c);
    MulDivExact(b, a, c);
  }

  lemma StartOfMultiple(length: int, q: int)
    requires length > 0
    ensures StartOf(length, q * length) == q * length
  {
    MultipleMod(q, length);
  }

  /** The window start is the one multiple of the length whose window holds the instant. */
  lemma StartOfUnique(length: int, at: int, w: int)
    requires length > 0
    ensures w == StartOf(length, at) <==> w % length == 0 && w <= at < w + length
  {
    StartOfAligned(length, at);
    if w % length == 0 && w <= at < w + length {
      SameStart(length, w, at);
    }
  }

  /** An instant is in a window, before it, or after it. */
  lemma OneWindow(length: int, at: int, w: int)
    requires length > 0 && StartOf(length, w) == w
    ensures StartOf(length, at) == w <==> w <= at < w + length
    ensures at < w ==> StartOf(length, at) + length <= w
  {
    hide StartOf;
    if w <= at < w + length {
      SameStart(length, w, at);
    }
    StartOfAligned(length, at);
    if at < w < StartOf(length, at) + length {
      SameStart(length, StartOf(length, at), w);
    }
  }

  /** Between two multiples of the length, every window but the last gets the same
      part, and the last what they leave. */
  lemma {:induction false} MultiplesLast(length: int, a: int, b: int, amount: int, total: int, remaining: int)
    requires 0 < length <= MAX_INT64 && a < b
    ensures var parts := SplitFrom(length, b * length, amount, total, a * length, remaining);
      parts != [] && Last(parts).amount == remaining - (b - a - 1) * MulDiv(amount, length, total)
    decreases Gap(a, b)
  {
    hide MulDiv, StartOf, SplitFrom;
    var part := MulDiv(amount, length, total);
    assert a * length + length == (a + 1) * length;
    MulOrder(length, a, b);
    SplitStep(length, b * length, amount, total, a * length, remaining);
    StartOfMultiple(length, a);
    if a + 1 < b {
      MulOrder(length, a + 1, b);
      MultiplesLast(length, a + 1, b, amount, total, remaining - part);
      assert (b - a - 1) * part == (b - (a + 1) - 1) * part + part;
    }
  }

  lemma MulOrder(length: int, a: int, b: int)
    requires 0 < length && a < b
    ensures a * length < b * length
  {
    MulCancel(length, a, b);
    assert (b - a) * length > 0;
  }

  /** The input a container without a start time makes: one core-hour attributed from
      the zero instant to a time some 2024 years later, over one-hour windows. The
      last window is charged minus 21341 seconds of core time. */
  lemma ZeroStartExample()
    ensures var hour := 3600 * 1_000_000_000;
      var parts := SplitSpec(hour, 0, 17_750_000 * hour, hour);
      parts != [] && Last(parts).amount == -21_340_985_094_874
  {
    hide MulDiv, StartOf, SplitFrom;
    var hour := 3600 * 1_000_000_000;
    MulDivExact(hour, hour, MAX_INT64);
    MultiplesLast(hour, 0, 17_750_000, hour, MAX_INT64, hour);
  }
}
