/** One tracker's baseline as its readings arrive: a pair of counters read together,
    what of their rises is emitted, and what the process knows of them
    (internal/collector/usage.go, internal/collector/cadvisor.go). The CPU counter and
    its PSI total, the memory PSI total alone, and the two throttling counters are
    such pairs. */
module Trackers {
  import opened Basics

  datatype Base = Base(time: int, one: nat, two: nat)

  const UNSET: Base := Base(0, 0, 0)

  /** Which counter of the pair. */
  datatype Side = One | Two

  /** What happens to one tracker: a reading - with the container's start, whether it lies
      after a known start, and whether its key is resumed - or being forgotten by a sweep.
      An absent counter is read as zero. */
  datatype Feed = Feed(at: int, one: nat, two: nat, start: int, started: bool, resumed: bool) | Forgot

  function Level(d: Side, b: Base): nat { if d.One? then b.one else b.two }

  function Shown(d: Side, f: Feed): nat
    requires f.Feed?
  {
    if d.One? then f.one else f.two
  }

  /** Re-served or stale: not after the baseline. */
  predicate Stale(b: Base, f: Feed)
    requires f.Feed?
  {
    b.time != 0 && f.at <= b.time
  }

  /** Either counter is below its baseline. */
  predicate Below(b: Base, f: Feed)
    requires f.Feed?
  {
    f.one < b.one || f.two < b.two
  }

  function Standing(b: Base, f: Feed): Base {
    if f.Forgot? then UNSET else if Stale(b, f) then b else Base(f.at, f.one, f.two)
  }

  function Follow(b: Base, fs: seq<Feed>): Base {
    if fs == [] then b else Standing(Follow(b, fs[..|fs| - 1]), Last(fs))
  }

  function Capped(n: int): int { Min(n, MAX_INT64) }

  // ---- where a rise goes ----

  /** What a feed does to a counter: some of a rise is emitted, over an interval that is
      then covered, the rest is unattributed; the counter falls, or is forgotten where it
      stands. */
  datatype Part = Moved | Covering | Unattributed | Fallen | Forgotten

  /** The parts a guard decides. */
  predicate Judged(q: Part) { q.Unattributed? || q.Fallen? || q.Forgotten? }

  /** A reading whose rise is emitted. */
  predicate Attributes(b: Base, f: Feed) {
    f.Feed? && if b.time == 0 then f.started && !f.resumed else !Stale(b, f) && !Below(b, f)
  }

  /** Where the interval of a reading begins: at the fresh reading before it, or at the
      container's start. */
  function Origin(b: Base, f: Feed): int
    requires f.Feed?
  {
    if b.time == 0 then f.start else b.time
  }

  function Move(d: Side, b: Base, f: Feed): int {
    if f.Forgot? then 0
    else if b.time == 0 then if f.started && !f.resumed then Capped(Shown(d, f)) else 0
    else if Stale(b, f) || Below(b, f) then 0
    else Capped(Shown(d, f) - Level(d, b))
  }

  function Amount(q: Part, d: Side, b: Base, f: Feed): int {
    match q
    case Moved => Move(d, b, f)
    case Covering => if Attributes(b, f) then Capped(f.at - Origin(b, f)) else 0
    case Unattributed =>
      if f.Forgot? || Stale(b, f) then 0 else Max(0, Shown(d, f) - Level(d, b)) - Move(d, b, f)
    case Fallen => if f.Forgot? || Stale(b, f) then 0 else Max(0, Level(d, b) - Shown(d, f))
    case Forgotten => if f.Forgot? then Level(d, b) else 0
  }

  function Tally(q: Part, d: Side, b: Base, fs: seq<Feed>): int {
    if fs == [] then 0
    else Tally(q, d, b, fs[..|fs| - 1]) + Amount(q, d, Follow(b, fs[..|fs| - 1]), Last(fs))
  }

  // ---- the guards that decide it ----

  /** A reading the rules leave a rise out of: a first sight under a resumed key or one
      not after a known container start, a later rise seen while the other counter is
      below its baseline, and a rise past int64. */
  predicate Skips(d: Side, b: Base, f: Feed) {
    f.Feed? &&
    var rise := Shown(d, f) - Level(d, b);
    rise > 0 &&
    if b.time == 0 then !f.started || f.resumed || rise > MAX_INT64
    else f.at > b.time && (Below(b, f) || rise > MAX_INT64)
  }

  /** A fresh reading below its baseline, which an absent counter is. */
  predicate Falls(d: Side, b: Base, f: Feed) {
    f.Feed? && b.time != 0 && f.at > b.time && Shown(d, f) < Level(d, b)
  }

  /** A sweep that forgets the tracker while its counter stands above zero. */
  predicate Loses(d: Side, b: Base, f: Feed) { f.Forgot? && Level(d, b) > 0 }

  predicate Shows(q: Part, d: Side, b: Base, f: Feed)
    requires Judged(q)
  {
    match q
    case Unattributed => Skips(d, b, f)
    case Fallen => Falls(d, b, f)
    case Forgotten => Loses(d, b, f)
  }

  /** No feed of the run is such a one. */
  predicate Never(q: Part, d: Side, b: Base, fs: seq<Feed>)
    requires Judged(q)
  {
    forall n :: 0 <= n < |fs| ==> !Shows(q, d, Follow(b, fs[..n]), fs[n])
  }

  /** A baseline is unset exactly while nothing was read. */
  predicate Settled(b: Base) { b.time == 0 ==> b.one == 0 && b.two == 0 }

  /** Readings carry a timestamp. */
  predicate Stamped(fs: seq<Feed>) { forall f :: f in fs && f.Feed? ==> f.at != 0 }

  /** The guards are exact. */
  lemma ShowsIff(q: Part, d: Side, b: Base, f: Feed)
    requires Settled(b) && Judged(q)
    ensures Amount(q, d, b, f) >= 0
    ensures Shows(q, d, b, f) <==> Amount(q, d, b, f) > 0
  {
  }

  lemma {:induction false} FollowSettled(b: Base, fs: seq<Feed>)
    requires Settled(b) && Stamped(fs)
    ensures Settled(Follow(b, fs))
  {
    if fs != [] {
      FollowSettled(b, fs[..|fs| - 1]);
      assert Last(fs) in fs;
    }
  }

  lemma {:induction false} NeverIff(q: Part, d: Side, b: Base, fs: seq<Feed>)
    requires Settled(b) && Stamped(fs) && Judged(q)
    ensures Tally(q, d, b, fs) >= 0
    ensures Never(q, d, b, fs) <==> Tally(q, d, b, fs) == 0
  {
    hide Follow, Shows, Amount, Settled;
    if fs != [] {
      var init := fs[..|fs| - 1];
      NeverIff(q, d, b, init);
      FollowSettled(b, init);
      ShowsIff(q, d, Follow(b, init), Last(fs));
      assert forall n :: 0 <= n < |init| ==> init[..n] == fs[..n] && init[n] == fs[n];
      assert fs[..|fs| - 1] == init && fs[|fs| - 1] == Last(fs);
    }
  }

  lemma StandingMoves(d: Side, b: Base, f: Feed)
    requires Settled(b)
    ensures Amount(Moved, d, b, f) + Amount(Unattributed, d, b, f) - Amount(Fallen, d, b, f)
         == Level(d, Standing(b, f)) - Level(d, b) + Amount(Forgotten, d, b, f)
  {
  }

  lemma FollowStep(d: Side, b: Base, fs: seq<Feed>, f: Feed)
    ensures Follow(b, fs + [f]) == Standing(Follow(b, fs), f)
    ensures forall q :: Tally(q, d, b, fs + [f]) == Tally(q, d, b, fs) + Amount(q, d, Follow(b, fs), f)
  {
    assert (fs + [f])[..|fs + [f]| - 1] == fs;
  }

  /** The identity behind telescoping, for any mix of fresh, re-served and reset
      readings and sweeps: emitted plus unattributed, minus what fell and what was
      forgotten, is how far the counter moved. */
  lemma {:induction false} Telescope(d: Side, b: Base, fs: seq<Feed>)
    requires Settled(b) && Stamped(fs)
    ensures Tally(Moved, d, b, fs) + Tally(Unattributed, d, b, fs) - Tally(Fallen, d, b, fs)
         == Level(d, Follow(b, fs)) - Level(d, b) + Tally(Forgotten, d, b, fs)
  {
    hide Amount, Level, Standing, Settled;
    if fs != [] {
      Telescope(d, b, fs[..|fs| - 1]);
      FollowSettled(b, fs[..|fs| - 1]);
      StandingMoves(d, Follow(b, fs[..|fs| - 1]), Last(fs));
    }
  }

  /** On a rising run of a tracker that is not forgotten, what was emitted since first
      sight is where the counter stands exactly when no reading's rise is skipped. */
  lemma TelescopeFromStart(d: Side, fs: seq<Feed>)
    requires Stamped(fs) && Never(Fallen, d, UNSET, fs) && Never(Forgotten, d, UNSET, fs)
    ensures var emitted, stands := Tally(Moved, d, UNSET, fs), Level(d, Follow(UNSET, fs));
      emitted <= stands && (emitted == stands <==> Never(Unattributed, d, UNSET, fs))
  {
    hide Never, Tally, Follow;
    Telescope(d, UNSET, fs);
    NeverIff(Unattributed, d, UNSET, fs);
    NeverIff(Fallen, d, UNSET, fs);
    NeverIff(Forgotten, d, UNSET, fs);
  }

  /** On a run whose every rise is attributed, what was emitted is where the counter
      stands plus every fall plus every forgotten value; so it is where the counter
      stands exactly when no fresh reading is below its baseline and no sweep forgets
      the tracker above zero. */
  lemma TelescopeExact(d: Side, fs: seq<Feed>)
    requires Stamped(fs) && Never(Unattributed, d, UNSET, fs)
    ensures var emitted, stands := Tally(Moved, d, UNSET, fs), Level(d, Follow(UNSET, fs));
      && emitted == stands + Tally(Fallen, d, UNSET, fs) + Tally(Forgotten, d, UNSET, fs)
      && emitted >= stands
      && (emitted == stands <==> Never(Fallen, d, UNSET, fs) && Never(Forgotten, d, UNSET, fs))
  {
    hide Never, Tally, Follow;
    Telescope(d, UNSET, fs);
    NeverIff(Unattributed, d, UNSET, fs);
    NeverIff(Fallen, d, UNSET, fs);
    NeverIff(Forgotten, d, UNSET, fs);
  }

  // ---- covered time ----

  /** Every reading follows the one before it on the same container: none is below its
      baseline, none is forgotten, and the first is attributed from the start. */
  predicate Unbroken(fs: seq<Feed>) {
    && (forall n :: 0 <= n < |fs| ==> fs[n].Feed? && (n > 0 ==> !Below(Follow(UNSET, fs[..n]), fs[n])))
    && (fs != [] ==> fs[0].started && !fs[0].resumed)
  }

  /** No interval is longer than an int64 of nanoseconds. */
  predicate Short(fs: seq<Feed>) {
    forall n :: 0 <= n < |fs| && fs[n].Feed? ==> fs[n].at - Origin(Follow(UNSET, fs[..n]), fs[n]) <= MAX_INT64
  }

  lemma CoverStep(d: Side, b: Base, f: Feed)
    requires f.Feed? && f.at != 0 && f.at - Origin(b, f) <= MAX_INT64
    requires if b.time == 0 then f.started && !f.resumed else !Below(b, f)
    ensures Amount(Covering, d, b, f) == Standing(b, f).time - Origin(b, f) && Standing(b, f).time != 0
  {
  }

  /** Covered time telescopes: on an unbroken run it is the time from the container's start
      to the latest reading. */
  lemma {:induction false} CoveredTelescopes(d: Side, fs: seq<Feed>)
    requires Stamped(fs) && Unbroken(fs) && Short(fs)
    ensures Tally(Covering, d, UNSET, fs) == if fs == [] then 0 else Follow(UNSET, fs).time - fs[0].start
    ensures fs != [] ==> Follow(UNSET, fs).time != 0
  {
    hide Amount, Standing, Below;
    if fs != [] {
      var init, n := fs[..|fs| - 1], |fs| - 1;
      assert forall k :: 0 <= k < |init| ==> init[..k] == fs[..k] && init[k] == fs[k];
      CoveredTelescopes(d, init);
      assert fs[..n] == init && fs[n] == Last(fs) && fs[n] in fs;
      CoverStep(d, Follow(UNSET, init), fs[n]);
    }
  }

  // ---- what was last read, sweeps or not ----

  /** The last value read, kept through being forgotten. */
  function Known(d: Side, b: Base, fs: seq<Feed>): nat {
    if fs == [] then Level(d, b) else
    var init, f := fs[..|fs| - 1], Last(fs);
    if f.Forgot? || Stale(Follow(b, init), f) then Known(d, b, init) else Shown(d, f)
  }

  /** A reading that finds the tracker forgotten after a value above zero was read. */
  predicate Rediscovers(d: Side, b: Base, fs: seq<Feed>, n: nat)
    requires n < |fs|
  {
    fs[n].Feed? && Follow(b, fs[..n]).time == 0 && Known(d, b, fs[..n]) > 0
  }

  /** What such readings attribute from the container's start over again. */
  function Recounted(d: Side, b: Base, fs: seq<Feed>): nat {
    if fs == [] then 0 else
    var init, f := fs[..|fs| - 1], Last(fs);
    Recounted(d, b, init) + if f.Feed? && Follow(b, init).time == 0 then Known(d, b, init) else 0
  }

  lemma {:induction false} RecountedIff(d: Side, b: Base, fs: seq<Feed>)
    ensures Recounted(d, b, fs) == 0 <==> forall n :: 0 <= n < |fs| ==> !Rediscovers(d, b, fs, n)
  {
    hide Follow, Known;
    if fs != [] {
      var init := fs[..|fs| - 1];
      RecountedIff(d, b, init);
      forall n | 0 <= n < |init|
        ensures Rediscovers(d, b, fs, n) <==> Rediscovers(d, b, init, n)
      {
        assert init[..n] == fs[..n] && init[n] == fs[n];
      }
      assert fs[..|init|] == init && fs[|init|] == Last(fs);
      assert Rediscovers(d, b, fs, |init|) <==> Last(fs).Feed? && Follow(b, init).time == 0 && Known(d, b, init) > 0;
    }
  }

  lemma KnownStep(d: Side, b: Base, fs: seq<Feed>)
    requires fs != []
    ensures var init, f := fs[..|fs| - 1], Last(fs);
      var stand := Follow(b, init);
      && Known(d, b, fs) == (if f.Forgot? || Stale(stand, f) then Known(d, b, init) else Shown(d, f))
      && Recounted(d, b, fs) == Recounted(d, b, init) + (if f.Feed? && stand.time == 0 then Known(d, b, init) else 0)
  {
  }

  lemma MovesFromKnown(d: Side, b: Base, f: Feed, known: nat)
    requires Settled(b) && (f.Feed? ==> f.at != 0) && (b.time != 0 ==> known == Level(d, b))
    ensures var next := if f.Forgot? || Stale(b, f) then known else Shown(d, f);
      && Amount(Moved, d, b, f) + Amount(Unattributed, d, b, f) - Amount(Fallen, d, b, f)
         == next - known + (if f.Feed? && b.time == 0 then known else 0)
      && (Standing(b, f).time != 0 ==> next == Level(d, Standing(b, f)))
  {
  }

  /** The same identity against what was last read: emitted plus unattributed minus
      fallen is the last value read plus what was counted again. */
  lemma {:induction false} TelescopeKnown(d: Side, b: Base, fs: seq<Feed>)
    requires Settled(b) && Stamped(fs)
    ensures Tally(Moved, d, b, fs) + Tally(Unattributed, d, b, fs) - Tally(Fallen, d, b, fs)
         == Known(d, b, fs) - Level(d, b) + Recounted(d, b, fs)
    ensures Follow(b, fs).time != 0 ==> Known(d, b, fs) == Level(d, Follow(b, fs))
  {
    hide Amount, Level, Standing, Settled, Known, Recounted;
    if fs == [] {
      KnownNone(d, b);
    } else {
      var init := fs[..|fs| - 1];
      TelescopeKnown(d, b, init);
      FollowSettled(b, init);
      assert Last(fs) in fs;
      KnownStep(d, b, fs);
      MovesFromKnown(d, Follow(b, init), Last(fs), Known(d, b, init));
    }
  }

  lemma KnownNone(d: Side, b: Base)
    ensures Known(d, b, []) == Level(d, b) && Recounted(d, b, []) == 0
  {
  }

  /** Nothing is attributed twice, exactly: on a rising run whose every rise is
      attributed, what was emitted is the last value read plus what was counted again,
      and so the last value read if and only if no reading finds the tracker forgotten
      after a value above zero was read. */
  lemma OnceIff(d: Side, fs: seq<Feed>)
    requires Stamped(fs) && Never(Unattributed, d, UNSET, fs) && Never(Fallen, d, UNSET, fs)
    ensures var emitted, known := Tally(Moved, d, UNSET, fs), Known(d, UNSET, fs);
      && emitted == known + Recounted(d, UNSET, fs)
      && (emitted == known <==> forall n :: 0 <= n < |fs| ==> !Rediscovers(d, UNSET, fs, n))
  {
    hide Never, Tally, Known, Recounted, Rediscovers;
    TelescopeKnown(d, UNSET, fs);
    NeverIff(Unattributed, d, UNSET, fs);
    NeverIff(Fallen, d, UNSET, fs);
    RecountedIff(d, UNSET, fs);
  }

  // ---- two processes ----

  /** What the counter showed when a process first read it. */
  function FirstShown(d: Side, fs: seq<Feed>): nat {
    if fs == [] || fs[0].Forgot? then 0 else Shown(d, fs[0])
  }

  /** The first sight fell while the key was resumed. */
  predicate SeenResumed(fs: seq<Feed>) { fs != [] && fs[0].Feed? ==> fs[0].resumed }

  lemma {:induction false} FirstGapStays(d: Side, fs: seq<Feed>)
    requires Stamped(fs) && SeenResumed(fs)
    ensures Tally(Unattributed, d, UNSET, fs) >= FirstShown(d, fs)
  {
    if |fs| == 1 {
      assert fs[..0] == [];
    } else if fs != [] {
      var init := fs[..|fs| - 1];
      FirstGapStays(d, init);
      FollowSettled(UNSET, init);
      ShowsIff(Unattributed, d, Follow(UNSET, init), Last(fs));
    }
  }

  /** Every rise is attributed but the one a resumed first sight shows. */
  predicate AttributedSince(d: Side, fs: seq<Feed>) {
    forall n :: 0 <= n < |fs| && Skips(d, Follow(UNSET, fs[..n]), fs[n]) ==> n == 0 && fs[0].resumed
  }

  lemma {:induction false} FirstGapOnly(d: Side, fs: seq<Feed>)
    requires Stamped(fs) && AttributedSince(d, fs) && fs != [] && fs[0].Feed?
    ensures Tally(Unattributed, d, UNSET, fs) == if fs[0].resumed then FirstShown(d, fs) else 0
  {
    hide Skips;
    var init := fs[..|fs| - 1];
    FollowSettled(UNSET, init);
    ShowsIff(Unattributed, d, Follow(UNSET, init), Last(fs));
    assert fs[..|fs| - 1] == init && fs[|fs| - 1] == Last(fs);
    if |fs| == 1 {
      FirstGap(d, fs[0]);
      assert Tally(Unattributed, d, UNSET, []) == 0;
    } else {
      assert forall n :: 0 <= n < |init| ==> init[..n] == fs[..n] && init[n] == fs[n];
      FirstGapOnly(d, init);
    }
  }

  lemma FirstGap(d: Side, f: Feed)
    requires f.Feed?
    ensures f.resumed ==> Amount(Unattributed, d, UNSET, f) == Shown(d, f)
  {
  }

  /** A rising counter of a tracker that is not forgotten stays above its first value. */
  lemma {:induction false} RisesAbove(d: Side, fs: seq<Feed>)
    requires Stamped(fs) && Never(Fallen, d, UNSET, fs) && Never(Forgotten, d, UNSET, fs)
    ensures FirstShown(d, fs) <= Level(d, Follow(UNSET, fs))
  {
    if |fs| == 1 {
      assert fs[..0] == [];
    } else if fs != [] {
      var init := fs[..|fs| - 1];
      assert forall n :: 0 <= n < |init| ==> init[..n] == fs[..n] && init[n] == fs[n];
      RisesAbove(d, init);
      FollowSettled(UNSET, init);
      assert !Shows(Fallen, d, Follow(UNSET, fs[..|init|]), fs[|init|]);
      assert !Shows(Forgotten, d, Follow(UNSET, fs[..|init|]), fs[|init|]);
      assert Last(fs) in fs;
    }
  }

  /** A process that reads a rising counter and never forgets it. */
  predicate Rising(d: Side, fs: seq<Feed>) {
    Stamped(fs) && Never(Fallen, d, UNSET, fs) && Never(Forgotten, d, UNSET, fs)
  }

  /** A counter only rises from one process to the next. */
  predicate RisesAcross(d: Side, before: seq<Feed>, after: seq<Feed>) {
    after != [] ==> Level(d, Follow(UNSET, before)) <= FirstShown(d, after)
  }

  /** A tracker is read before it can be forgotten. */
  predicate ReadFirst(fs: seq<Feed>) { fs != [] ==> fs[0].Feed? }

  /** What two processes emit. */
  function Filed(d: Side, before: seq<Feed>, after: seq<Feed>): int {
    Tally(Moved, d, UNSET, before) + Tally(Moved, d, UNSET, after)
  }

  /** The highest the counter was seen at, by either process. */
  function Seen(d: Side, before: seq<Feed>, after: seq<Feed>): int {
    Max(Level(d, Follow(UNSET, before)), Level(d, Follow(UNSET, after)))
  }

  /** What an unresumed first sight attributes a second time: where the counter stood
      when the first process died. */
  function Twice(d: Side, before: seq<Feed>, after: seq<Feed>): int {
    if after != [] && after[0].Feed? && !after[0].resumed then Level(d, Follow(UNSET, before)) else 0
  }

  /** What a resumed first sight leaves out: the rise between the two processes. */
  function Missed(d: Side, before: seq<Feed>, after: seq<Feed>): int {
    if after != [] && after[0].Feed? && after[0].resumed
    then FirstShown(d, after) - Level(d, Follow(UNSET, before)) else 0
  }

  /** Two processes never file more than was seen, plus what an unresumed first sight
      attributes twice. */
  lemma FiledAtMost(d: Side, before: seq<Feed>, after: seq<Feed>)
    requires Rising(d, before) && Rising(d, after) && RisesAcross(d, before, after) && ReadFirst(after)
    ensures Filed(d, before, after) <= Seen(d, before, after) + Twice(d, before, after)
  {
    hide Never, Tally, Stamped;
    TelescopeFromStart(d, before);
    TelescopeFromStart(d, after);
    Telescope(d, UNSET, after);
    NeverIff(Unattributed, d, UNSET, after);
    NeverIff(Fallen, d, UNSET, after);
    NeverIff(Forgotten, d, UNSET, after);
    RisesAbove(d, after);
    if SeenResumed(after) {
      FirstGapStays(d, after);
    }
  }

  /** The exact account of two processes: what they file is what was seen, less the
      rise a resumed first sight leaves out, plus where the counter stood when an
      unresumed one attributes it again. So nothing is filed twice if and only if the
      counter is not seen again, is first seen resumed, or stood at zero. */
  lemma FiledExactly(d: Side, before: seq<Feed>, after: seq<Feed>)
    requires Rising(d, before) && Rising(d, after) && RisesAcross(d, before, after) && ReadFirst(after)
    requires Never(Unattributed, d, UNSET, before) && AttributedSince(d, after)
    ensures Filed(d, before, after)
         == Seen(d, before, after) - Missed(d, before, after) + Twice(d, before, after)
    ensures Filed(d, before, after) <= Seen(d, before, after) <==>
      (SeenResumed(after) || Level(d, Follow(UNSET, before)) == 0)
  {
    hide Never, Tally, Stamped, AttributedSince;
    TelescopeFromStart(d, before);
    Telescope(d, UNSET, after);
    NeverIff(Fallen, d, UNSET, after);
    NeverIff(Forgotten, d, UNSET, after);
    RisesAbove(d, after);
    if after != [] {
      FirstGapOnly(d, after);
    } else {
      NothingMoves(d);
    }
  }

  lemma NothingMoves(d: Side)
    ensures Tally(Moved, d, UNSET, []) == 0
  {
  }
}
