/** The cadence gate in front of the spool (internal/sink/cadence.go,
    internal/sink/spool.go). SHA-256 is taken as injective: a fingerprint is the
    bytes that were hashed. */
module Cadences {
  import opened Basics

  // ---- the fingerprint ----

  const CAPTURED_AT: string := "  \"captured_at\": "

  predicate NoNewline(s: string) { forall k :: 0 <= k < |s| ==> s[k] != '\n' }

  /** Place of the first newline, or -1. */
  function NewlineAt(data: string): (i: int)
    ensures -1 <= i < |data|
  {
    if data == [] then -1
    else if data[0] == '\n' then 0
    else var i := NewlineAt(data[1..]); if i < 0 then -1 else i + 1
  }

  lemma {:induction false} NewlineFound(data: string)
    ensures var i := NewlineAt(data);
      if i >= 0 then data[i] == '\n' && NoNewline(data[..i]) else NoNewline(data)
  {
    if data != [] && data[0] != '\n' {
      NewlineFound(data[1..]);
      var i := NewlineAt(data[1..]);
      if i >= 0 {
        assert data[..i + 1] == [data[0]] + data[1..][..i];
      } else {
        assert forall k :: 0 < k < |data| ==> data[k] == data[1..][k - 1];
      }
    }
  }

  lemma {:induction false} NewlineUnique(data: string, i: int)
    requires 0 <= i < |data| && data[i] == '\n' && NoNewline(data[..i])
    ensures NewlineAt(data) == i
  {
    if i > 0 {
      assert data[..i][0] == data[0];
      assert data[1..][..i - 1] == data[..i][1..];
      NewlineUnique(data[1..], i - 1);
    }
  }

  lemma {:induction false} NewlineAbsent(data: string)
    requires NoNewline(data)
    ensures NewlineAt(data) == -1
  {
    if data != [] {
      NewlineAbsent(data[1..]);
    }
  }

  /** The lines of a payload, each with its newline. */
  function Lines(data: string): seq<string>
    decreases |data|
  {
    if data == [] then [] else
    var i := NewlineAt(data);
    if i < 0 then [data] else [data[..i + 1]] + Lines(data[i + 1..])
  }

  predicate Elided(line: string) { CAPTURED_AT <= line }

  function Kept(lines: seq<string>): seq<string> {
    if lines == [] then []
    else (if Elided(lines[0]) then [] else [lines[0]]) + Kept(lines[1..])
  }

  function Join(lines: seq<string>): string {
    if lines == [] then [] else lines[0] + Join(lines[1..])
  }

  /** The content a payload states: its lines without the top-level capture instant. */
  function Content(data: string): seq<string> { Kept(Lines(data)) }

  function FingerprintOf(data: string): string { Join(Content(data)) }

  /** The hashing loop, line by line. */
  method Fingerprint(data: string) returns (fp: string)
    ensures fp == FingerprintOf(data)
  {
    hide NewlineAt, FingerprintOf, Elided;
    NoContent();
    fp := [];
    var rest := data;
    assert [] + FingerprintOf(data) == FingerprintOf(data);
    while |rest| > 0
      invariant FingerprintOf(data) == fp + FingerprintOf(rest)
      decreases |rest|
    {
      FingerprintStep(rest);
      var i := NewlineAt(rest);
      var line := rest;
      if i >= 0 {
        line, rest := rest[..i + 1], rest[i + 1..];
      } else {
        rest := [];
      }
      if !Elided(line) {
        assert fp + (line + FingerprintOf(rest)) == (fp + line) + FingerprintOf(rest);
        fp := fp + line;
      } else {
        assert [] + FingerprintOf(rest) == FingerprintOf(rest);
      }
    }
    assert rest == [] && fp + [] == fp;
  }

  lemma NoContent()
    ensures FingerprintOf([]) == []
  {
  }

  /** The first line and what follows it. */
  function HeadLine(data: string): string {
    var i := NewlineAt(data); if i >= 0 then data[..i + 1] else data
  }

  function TailLines(data: string): string {
    var i := NewlineAt(data); if i >= 0 then data[i + 1..] else []
  }

  lemma LinesStep(data: string)
    requires data != []
    ensures Lines(data) == [HeadLine(data)] + Lines(TailLines(data))
  {
    hide NewlineAt;
  }

  lemma FingerprintStep(data: string)
    requires data != []
    ensures FingerprintOf(data)
      == (if Elided(HeadLine(data)) then [] else HeadLine(data)) + FingerprintOf(TailLines(data))
  {
    hide HeadLine, TailLines, Elided, Lines;
    LinesStep(data);
    var line, rest := HeadLine(data), Lines(TailLines(data));
    assert ([line] + rest)[1..] == rest;
    assert Kept([line] + rest) == (if Elided(line) then [] else [line]) + Kept(rest);
    if Elided(line) {
      assert [] + Kept(rest) == Kept(rest);
      assert [] + Join(Kept(rest)) == Join(Kept(rest));
    } else {
      assert ([line] + Kept(rest))[1..] == Kept(rest);
    }
  }

  predicate Terminated(line: string) {
    line != [] && Last(line) == '\n' && NoNewline(line[..|line| - 1])
  }

  /** A newline only ever ends a line, and only the last line may lack one. */
  ghost predicate WellFormed(lines: seq<string>) {
    lines != [] ==>
      if Terminated(lines[0]) then WellFormed(lines[1..])
      else |lines| == 1 && lines[0] != [] && NoNewline(lines[0])
  }

  lemma WellFormedCons(line: string, rest: seq<string>)
    requires Terminated(line) && WellFormed(rest)
    ensures WellFormed([line] + rest)
  {
    hide Terminated, NoNewline;
    assert ([line] + rest)[1..] == rest;
  }

  lemma {:induction false} LinesWellFormed(data: string)
    ensures WellFormed(Lines(data))
    decreases |data|
  {
    hide NewlineAt, NoNewline;
    if data != [] {
      NewlineFound(data);
      LinesStep(data);
      var i := NewlineAt(data);
      if i >= 0 {
        assert data[..i + 1][..i] == data[..i];
        LinesWellFormed(data[i + 1..]);
        WellFormedCons(data[..i + 1], Lines(data[i + 1..]));
      } else {
        LineAlone(data);
      }
    }
  }

  lemma LineAlone(line: string)
    requires line != [] && NoNewline(line)
    ensures WellFormed([line]) && !Terminated(line)
  {
  }

  lemma {:induction false} KeptWellFormed(lines: seq<string>)
    requires WellFormed(lines)
    ensures WellFormed(Kept(lines))
  {
    hide Elided, Terminated, NoNewline;
    if lines != [] {
      if Terminated(lines[0]) {
        KeptWellFormed(lines[1..]);
        WellFormedCons(lines[0], Kept(lines[1..]));
        assert [] + Kept(lines[1..]) == Kept(lines[1..]);
      } else {
        assert lines == [lines[0]] && lines[1..] == [];
        LineAlone(lines[0]);
        assert [lines[0]] + [] == [lines[0]];
      }
    }
  }

  lemma LinesCons(line: string, data: string)
    requires Terminated(line)
    ensures Lines(line + data) == [line] + Lines(data)
  {
    hide Lines, NoNewline;
    var all, i := line + data, |line| - 1;
    assert all[..i] == line[..i];
    NewlineUnique(all, i);
    LinesStep(all);
    assert all[..i + 1] == line && all[i + 1..] == data;
  }

  /** Lines can be read back off their concatenation. */
  lemma {:induction false} LinesOfJoin(lines: seq<string>)
    requires WellFormed(lines)
    ensures Lines(Join(lines)) == lines
  {
    hide NewlineAt, Terminated, NoNewline;
    if lines != [] {
      assert lines == [lines[0]] + lines[1..];
      if Terminated(lines[0]) {
        LinesOfJoin(lines[1..]);
        LinesCons(lines[0], Join(lines[1..]));
      } else {
        assert lines[1..] == [] && lines[0] + [] == lines[0];
        NewlineAbsent(lines[0]);
        LinesStep(lines[0]);
      }
    }
  }

  /** Equal fingerprints mean equal content: nothing but capture-instant lines is
      lost, and no two different contents run together into the same bytes. */
  lemma FingerprintDecides(a: string, b: string)
    ensures FingerprintOf(a) == FingerprintOf(b) <==> Content(a) == Content(b)
  {
    hide Lines, Join, Kept, WellFormed;
    LinesWellFormed(a);
    LinesWellFormed(b);
    KeptWellFormed(Lines(a));
    KeptWellFormed(Lines(b));
    LinesOfJoin(Content(a));
    LinesOfJoin(Content(b));
  }

  // ---- the gate ----

  datatype Trigger = Always | Changed | Event

  datatype Cadence = Cadence(floor: int, ceiling: int, trigger: Trigger)

  datatype Written = Written(at: int, fp: string)

  /** Whether a payload is written now, against what was last written under its key. */
  predicate IsDue(last: Option<Written>, c: Cadence, fp: string, now: int) {
    match last
    case None => true
    case Some(w) => now - w.at >= c.ceiling || (now - w.at >= c.floor && fp != w.fp)
  }

  class Gate {
    var last: map<string, Written>

    constructor ()
      ensures last == map[]
    {
      last := map[];
    }

    function LastOf(key: string): Option<Written>
      reads this
    {
      if key in last then Some(last[key]) else None
    }

    method Due(key: string, c: Cadence, data: string, now: int) returns (fp: string, due: bool)
      ensures c.trigger != Changed ==> fp == [] && due
      ensures c.trigger == Changed ==>
        fp == FingerprintOf(data) && due == IsDue(LastOf(key), c, FingerprintOf(data), now)
    {
      hide FingerprintOf;
      if c.trigger != Changed {
        return [], true;
      }
      fp := Fingerprint(data);
      if key !in last {
        due := true;
      } else if now - last[key].at >= c.ceiling {
        due := true;
      } else if now - last[key].at < c.floor {
        due := false;
      } else {
        due := fp != last[key].fp;
      }
    }

    /** Only change-triggered kinds are remembered. */
    method Wrote(key: string, c: Cadence, fp: string, now: int)
      modifies this
      ensures last == if c.trigger == Changed then old(last)[key := Written(now, fp)] else old(last)
    {
      if c.trigger == Changed {
        last := last[key := Written(now, fp)];
      }
    }

    method Prune(cutoff: int)
      modifies this
      ensures last == map k | k in old(last) && old(last)[k].at >= cutoff :: old(last)[k]
    {
      var todo := last.Keys;
      while todo != {}
        invariant todo <= old(last).Keys
        invariant last == map k | k in old(last) && (k in todo || old(last)[k].at >= cutoff) :: old(last)[k]
        decreases |todo|
      {
        var k := Pick(todo);
        if last[k].at < cutoff {
          last := last - {k};
        }
        todo := todo - {k};
      }
    }

    /** One write attempt: the gate is asked, the bytes are published, and only a
        publish that landed is remembered. */
    method Write(key: string, c: Cadence, data: string, now: int, landed: int, published: bool) returns (due: bool)
      modifies this
      ensures c.trigger == Changed ==>
        && due == IsDue(old(LastOf(key)), c, FingerprintOf(data), now)
        && LastOf(key) == Pass(now, landed, data, published).After(c, old(LastOf(key)))
      ensures c.trigger != Changed ==> due && last == old(last)
      ensures forall k :: k != key ==> LastOf(k) == old(LastOf(k))
    {
      hide FingerprintOf;
      var fp;
      fp, due := Due(key, c, data, now);
      if due && published {
        Wrote(key, c, fp, landed);
      }
    }
  }

  // ---- whole runs of one change-triggered key ----

  /** One pass: when the gate was asked, when a landed write was recorded, the
      payload, and whether publishing it succeeded. */
  datatype Pass = Pass(now: int, landed: int, data: string, published: bool) {
    predicate Lands(c: Cadence, last: Option<Written>) {
      IsDue(last, c, FingerprintOf(data), now) && published
    }

    function After(c: Cadence, last: Option<Written>): Option<Written> {
      if Lands(c, last) then Some(Written(landed, FingerprintOf(data))) else last
    }
  }

  function Remembered(c: Cadence, passes: seq<Pass>): Option<Written> {
    if passes == [] then None else Last(passes).After(c, Remembered(c, passes[..|passes| - 1]))
  }

  predicate LandsAt(c: Cadence, passes: seq<Pass>, n: nat)
    requires n < |passes|
  {
    passes[n].Lands(c, Remembered(c, passes[..n]))
  }

  predicate DueAt(c: Cadence, passes: seq<Pass>, n: nat)
    requires n < |passes|
  {
    IsDue(Remembered(c, passes[..n]), c, FingerprintOf(passes[n].data), passes[n].now)
  }

  /** The clock does not run backwards from reading to reading. */
  ghost predicate Ordered(passes: seq<Pass>) {
    && (forall i :: 0 <= i < |passes| ==> passes[i].now <= passes[i].landed)
    && (forall i, j :: 0 <= i < j < |passes| ==> passes[i].landed <= passes[j].now)
  }

  /** Pass j is the latest landed one before n. */
  ghost predicate LatestLanded(c: Cadence, passes: seq<Pass>, j: int, n: nat)
    requires n <= |passes|
  {
    0 <= j < n && LandsAt(c, passes, j) && forall k :: j < k < n ==> !LandsAt(c, passes, k)
  }

  lemma {:induction false} RememberedIs(c: Cadence, passes: seq<Pass>, n: nat)
    requires n <= |passes|
    ensures Remembered(c, passes[..n]).None? ==> forall k :: 0 <= k < n ==> !LandsAt(c, passes, k)
    ensures Remembered(c, passes[..n]).Some? ==>
      exists j ::
        && LatestLanded(c, passes, j, n)
        && Remembered(c, passes[..n]) == Some(Written(passes[j].landed, FingerprintOf(passes[j].data)))
  {
    hide FingerprintOf, IsDue;
    if n > 0 {
      RememberedIs(c, passes, n - 1);
      assert passes[..n][..n - 1] == passes[..n - 1];
      if LandsAt(c, passes, n - 1) {
        assert LatestLanded(c, passes, n - 1, n);
      } else if Remembered(c, passes[..n]).Some? {
        var j :| LatestLanded(c, passes, j, n - 1)
          && Remembered(c, passes[..n - 1]) == Some(Written(passes[j].landed, FingerprintOf(passes[j].data)));
        assert LatestLanded(c, passes, j, n);
      }
    }
  }

  /** Main result, the decision at every pass of every run: it is due exactly when
      nothing landed before, or the ceiling has passed since the latest landed
      write, or the floor has passed and the content differs from that write's. */
  lemma DueExactly(c: Cadence, passes: seq<Pass>, n: nat)
    requires n < |passes|
    ensures (forall k :: 0 <= k < n ==> !LandsAt(c, passes, k)) ==> DueAt(c, passes, n)
    ensures forall j :: LatestLanded(c, passes, j, n) ==>
      (DueAt(c, passes, n) <==>
        var gap := passes[n].now - passes[j].landed;
        gap >= c.ceiling || (gap >= c.floor && Content(passes[n].data) != Content(passes[j].data)))
  {
    hide FingerprintOf, Content;
    RememberedIs(c, passes, n);
    forall j | LatestLanded(c, passes, j, n)
      ensures Remembered(c, passes[..n]) == Some(Written(passes[j].landed, FingerprintOf(passes[j].data)))
    {
      if Remembered(c, passes[..n]).Some? {
        var i :| LatestLanded(c, passes, i, n)
          && Remembered(c, passes[..n]) == Some(Written(passes[i].landed, FingerprintOf(passes[i].data)));
        assert i == j;
      }
    }
    forall j | LatestLanded(c, passes, j, n)
      ensures FingerprintOf(passes[n].data) == FingerprintOf(passes[j].data)
        <==> Content(passes[n].data) == Content(passes[j].data)
    {
      FingerprintDecides(passes[n].data, passes[j].data);
    }
  }

  /** Landed writes are never closer than the floor, nor than the ceiling where
      that is the smaller. */
  lemma {:induction false} LandedApart(c: Cadence, passes: seq<Pass>, i: nat, n: nat)
    requires Ordered(passes) && i < n < |passes| && LandsAt(c, passes, i) && LandsAt(c, passes, n)
    ensures passes[n].landed - passes[i].landed >= Min(c.floor, c.ceiling)
  {
    hide FingerprintOf, Content;
    RememberedIs(c, passes, n);
    var j :| LatestLanded(c, passes, j, n)
      && Remembered(c, passes[..n]) == Some(Written(passes[j].landed, FingerprintOf(passes[j].data)));
    assert i <= j;
  }

  // ---- what the content leaves out ----

  /** A line of the top-level capture instant. */
  predicate IsCapturedAt(line: string) {
    |line| >= 17 && line[..17] == "  \"captured_at\": "
  }

  lemma KeptCons(line: string, rest: seq<string>)
    ensures Kept([line] + rest) == (if Elided(line) then [] else [line]) + Kept(rest)
  {
    hide Elided;
    assert ([line] + rest)[1..] == rest;
  }

  lemma KeptNone()
    ensures Kept([]) == []
  {
  }

  lemma {:induction false} KeptConcat(a: seq<string>, b: seq<string>)
    ensures Kept(a + b) == Kept(a) + Kept(b)
  {
    hide Elided, Kept;
    if a == [] {
      KeptNone();
      assert a + b == b && [] + Kept(b) == Kept(b);
    } else {
      var line, rest := a[0], a[1..];
      KeptConcat(rest, b);
      assert a == [line] + rest && a + b == [line] + (rest + b);
      KeptCons(line, rest);
      KeptCons(line, rest + b);
    }
  }

  lemma CapturedAtElided(line: string)
    ensures Elided(line) <==> IsCapturedAt(line)
  {
    assert |CAPTURED_AT| == 17;
  }

  lemma KeptOne(line: string)
    ensures Kept([line]) == if IsCapturedAt(line) then [] else [line]
  {
    hide Elided, IsCapturedAt;
    CapturedAtElided(line);
    assert [line][1..] == [];
  }

  /** Two payloads that differ in one line state the same content if and only if both those
      lines are top-level capture instants; any other difference counts. */
  lemma OnlyCapturedAt(before: seq<string>, a: string, b: string, after: seq<string>)
    requires a != b && WellFormed(before + [a] + after) && WellFormed(before + [b] + after)
    ensures Content(Join(before + [a] + after)) == Content(Join(before + [b] + after)) <==>
      IsCapturedAt(a) && IsCapturedAt(b)
  {
    hide WellFormed, Join, Lines, IsCapturedAt, Kept;
    LinesOfJoin(before + [a] + after);
    LinesOfJoin(before + [b] + after);
    KeptConcat(before + [a], after);
    KeptConcat(before, [a]);
    KeptConcat(before + [b], after);
    KeptConcat(before, [b]);
    KeptOne(a);
    KeptOne(b);
    Cancels(Kept(before), Kept([a]), Kept([b]), Kept(after));
  }

  lemma Cancels(x: seq<string>, a: seq<string>, b: seq<string>, y: seq<string>)
    ensures x + a + y == x + b + y <==> a == b
  {
    if x + a + y == x + b + y {
      assert |a| == |b|;
      assert a == (x + a + y)[|x|..|x| + |a|] && b == (x + b + y)[|x|..|x| + |b|];
    }
  }
}
