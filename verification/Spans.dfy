/** Cutting an observed interval at window boundaries
    (internal/journal/states.go, internal/journal/counters.go). */
module Spans {
  import opened Basics
  import opened Windows

  datatype Span = Span(start: int, end: int)

  function SpansOf(length: int, from: int, to: int): (spans: seq<Span>)
    requires length > 0
    decreases Gap(from, to)
  {
    if from >= to then [] else
    var end := Min(StartOf(length, from) + length, to);
    [Span(from, end)] + SpansOf(length, end, to)
  }

  method Cut(length: int, from: int, to: int) returns (out: seq<Span>)
    requires length > 0
    ensures out == SpansOf(length, from, to)
  {
    hide StartOf;
    out := [];
    var at := from;
    ghost var rest := SpansOf(length, from, to);
    while at < to
      invariant rest == SpansOf(length, at, to)
      invariant out + rest == SpansOf(length, from, to)
      decreases Gap(at, to)
    {
      var end := StartOf(length, at) + length;
      if end > to {
        end := to;
      }
      SeqShift(out, rest, Span(at, end), SpansOf(length, end, to));
      out := out + [Span(at, end)];
      rest := SpansOf(length, end, to);
      at := end;
    }
  }

  /** Each span lies inside one window, and the spans run from end to end of the interval. */
  ghost predicate Covers(length: int, from: int, to: int, spans: seq<Span>)
    requires length > 0
  {
    && (spans == [] <==> from >= to)
    && (spans != [] ==> spans[0].start == from && Last(spans).end == to)
    && (forall i :: 0 <= i < |spans| ==>
          from <= spans[i].start < spans[i].end <= Min(StartOf(length, spans[i].start) + length, to))
    && (forall i :: 0 <= i < |spans| - 1 ==> spans[i + 1].start == spans[i].end == StartOf(length, spans[i + 1].start))
  }

  lemma CoversCons(length: int, from: int, end: int, to: int, rest: seq<Span>)
    requires length > 0 && from < end <= Min(StartOf(length, from) + length, to) && Covers(length, end, to, rest)
    requires end < to ==> StartOf(length, end) == end
    ensures Covers(length, from, to, [Span(from, end)] + rest)
  {
    hide StartOf;
    var spans := [Span(from, end)] + rest;
    assert forall i :: 1 <= i < |spans| ==> spans[i] == rest[i - 1];
    assert rest != [] ==> Last(spans) == Last(rest);
  }

  lemma {:induction false} SpansCover(length: int, from: int, to: int)
    requires length > 0
    ensures Covers(length, from, to, SpansOf(length, from, to))
    decreases Gap(from, to)
  {
    hide StartOf, Covers;
    if from < to {
      var end := Min(StartOf(length, from) + length, to);
      SpansCover(length, end, to);
      StartOfNext(length, from);
      CoversCons(length, from, end, to, SpansOf(length, end, to));
    } else {
      CoversNothing(length, from, to);
    }
  }

  lemma CoversNothing(length: int, from: int, to: int)
    requires length > 0 && from >= to
    ensures Covers(length, from, to, [])
  {
  }

  function Durations(spans: seq<Span>): int {
    if spans == [] then 0 else (spans[0].end - spans[0].start) + Durations(spans[1..])
  }

  /** The spans account for the interval, neither more nor less. */
  lemma {:induction false} SpansSum(length: int, from: int, to: int)
    requires length > 0
    ensures Durations(SpansOf(length, from, to)) == Gap(from, to)
    decreases Gap(from, to)
  {
    hide StartOf;
    if from < to {
      var end := Min(StartOf(length, from) + length, to);
      SpansSum(length, end, to);
      assert SpansOf(length, from, to)[1..] == SpansOf(length, end, to);
    }
  }
}
