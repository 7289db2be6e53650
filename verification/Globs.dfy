/** The namespace filter's wildcard matcher (internal/collector/filter.go). */
module Globs {

  /** What a pattern means: each star takes some run of characters, possibly
      empty, and every other character stands for itself. */
  ghost predicate Matches(p: string, s: string) {
    if p == [] then s == []
    else if p[0] == '*' then exists k :: 0 <= k <= |s| && Matches(p[1..], s[k..])
    else s != [] && s[0] == p[0] && Matches(p[1..], s[1..])
  }

  /** The pieces between the stars. */
  function SplitStar(p: string): (parts: seq<string>)
    ensures parts != []
  {
    if p == [] then [[]] else
    var rest := SplitStar(p[1..]);
    if p[0] == '*' then [[]] + rest else [[p[0]] + rest[0]] + rest[1..]
  }

  /** Leftmost place a piece occurs at, or -1. */
  function IndexOf(s: string, part: string): int {
    if part <= s then 0
    else if s == [] then -1
    else var i := IndexOf(s[1..], part); if i < 0 then -1 else i + 1
  }

  predicate HasSuffix(s: string, part: string) {
    |part| <= |s| && s[|s| - |part|..] == part
  }

  // ---- the meaning, piece by piece ----

  /** Pieces in order, the first at the front, the last at the end, anything between. */
  ghost predicate MatchPieces(parts: seq<string>, s: string)
    requires parts != []
    decreases |parts|
  {
    if |parts| == 1 then s == parts[0]
    else parts[0] <= s && exists k :: |parts[0]| <= k <= |s| && MatchPieces(parts[1..], s[k..])
  }

  /** The pieces match some suffix. */
  ghost predicate Anywhere(parts: seq<string>, s: string)
    requires parts != []
  {
    exists k :: 0 <= k <= |s| && MatchPieces(parts, s[k..])
  }

  lemma {:induction false} PiecesMeaning(p: string, s: string)
    ensures Matches(p, s) <==> MatchPieces(SplitStar(p), s)
    decreases |p|
  {
    if p != [] {
      var rest := SplitStar(p[1..]);
      if p[0] == '*' {
        forall k | 0 <= k <= |s|
          ensures Matches(p[1..], s[k..]) <==> MatchPieces(rest, s[k..])
        {
          PiecesMeaning(p[1..], s[k..]);
        }
        assert SplitStar(p)[1..] == rest;
      } else {
        PieceGrows(p[0], rest, s);
        if s != [] {
          PiecesMeaning(p[1..], s[1..]);
        }
      }
    }
  }

  /** One more literal character at the front of the first piece. */
  lemma PieceGrows(c: char, rest: seq<string>, s: string)
    requires rest != []
    ensures MatchPieces([[c] + rest[0]] + rest[1..], s) <==> s != [] && s[0] == c && MatchPieces(rest, s[1..])
  {
    var parts := [[c] + rest[0]] + rest[1..];
    if |rest| > 1 {
      assert parts[1..] == rest[1..];
      if MatchPieces(parts, s) {
        var k :| |parts[0]| <= k <= |s| && MatchPieces(parts[1..], s[k..]);
        assert s[1..][k - 1..] == s[k..];
        assert rest[0] <= s[1..];
      }
      if s != [] && s[0] == c && MatchPieces(rest, s[1..]) {
        var k :| |rest[0]| <= k <= |s[1..]| && MatchPieces(rest[1..], s[1..][k..]);
        assert s[1..][k..] == s[k + 1..];
        assert [c] + rest[0] <= s;
      }
    } else {
      assert s != [] ==> s == [s[0]] + s[1..];
    }
  }

  // ---- leftmost is enough ----

  lemma {:induction false} IndexOfLeftmost(s: string, part: string)
    ensures var i := IndexOf(s, part);
      && (i >= 0 ==> i + |part| <= |s| && part <= s[i..])
      && (forall k :: 0 <= k <= |s| && part <= s[k..] ==> 0 <= i <= k)
  {
    if !(part <= s) && s != [] {
      IndexOfLeftmost(s[1..], part);
      var i := IndexOf(s[1..], part);
      if i >= 0 {
        assert s[1..][i..] == s[i + 1..];
      }
      forall k | 0 <= k <= |s| && part <= s[k..]
        ensures i >= 0 && i + 1 <= k
      {
        assert s[0..] == s;
        assert s[1..][k - 1..] == s[k..];
      }
    } else {
      assert s[0..] == s;
    }
  }

  lemma LeftmostSuffices(parts: seq<string>, s: string, i: int, k: int)
    requires |parts| >= 2 && 0 <= i <= k <= |s| && i + |parts[0]| <= |s|
    requires MatchPieces(parts, s[k..])
    ensures Anywhere(parts[1..], s[i + |parts[0]|..])
  {
    var j :| |parts[0]| <= j <= |s[k..]| && MatchPieces(parts[1..], s[k..][j..]);
    var from := i + |parts[0]|;
    hide MatchPieces;
    assert s[k..][j..] == s[k + j..];
    assert s[from..][k + j - from..] == s[k + j..];
  }

  lemma LeftmostWorks(parts: seq<string>, s: string, i: int)
    requires |parts| >= 2 && 0 <= i && i + |parts[0]| <= |s| && parts[0] <= s[i..]
    requires Anywhere(parts[1..], s[i + |parts[0]|..])
    ensures Anywhere(parts, s)
  {
    var from := i + |parts[0]|;
    var k :| 0 <= k <= |s[from..]| && MatchPieces(parts[1..], s[from..][k..]);
    assert s[from..][k..] == s[i..][|parts[0]| + k..];
    assert MatchPieces(parts, s[i..]);
  }

  /** The exchange argument: if the pieces match anywhere, they match after the
      leftmost occurrence of the first one. */
  lemma GreedyStep(parts: seq<string>, s: string)
    requires |parts| >= 2
    ensures var i := IndexOf(s, parts[0]);
      && (i >= 0 ==> i + |parts[0]| <= |s|)
      && (Anywhere(parts, s) <==> i >= 0 && Anywhere(parts[1..], s[i + |parts[0]|..]))
  {
    hide IndexOf, MatchPieces;
    var i := IndexOf(s, parts[0]);
    IndexOfLeftmost(s, parts[0]);
    if Anywhere(parts, s) {
      var k :| 0 <= k <= |s| && MatchPieces(parts, s[k..]);
      StartsWith(parts, s[k..]);
      LeftmostSuffices(parts, s, i, k);
    }
    if i >= 0 && Anywhere(parts[1..], s[i + |parts[0]|..]) {
      LeftmostWorks(parts, s, i);
    }
  }

  lemma StartsWith(parts: seq<string>, s: string)
    requires parts != [] && MatchPieces(parts, s)
    ensures parts[0] <= s
  {
  }

  lemma LastPiece(last: string, s: string)
    ensures Anywhere([last], s) <==> HasSuffix(s, last)
  {
    if Anywhere([last], s) {
      var k :| 0 <= k <= |s| && MatchPieces([last], s[k..]);
      assert k == |s| - |last|;
    }
    if HasSuffix(s, last) {
      assert MatchPieces([last], s[|s| - |last|..]);
    }
  }

  lemma FirstPiece(parts: seq<string>, s: string)
    requires |parts| >= 2
    ensures MatchPieces(parts, s) <==> parts[0] <= s && Anywhere(parts[1..], s[|parts[0]|..])
  {
    var n := |parts[0]|;
    if MatchPieces(parts, s) {
      var k :| n <= k <= |s| && MatchPieces(parts[1..], s[k..]);
      assert s[n..][k - n..] == s[k..];
    }
    if parts[0] <= s && Anywhere(parts[1..], s[n..]) {
      var k :| 0 <= k <= |s[n..]| && MatchPieces(parts[1..], s[n..][k..]);
      assert s[n..][k..] == s[n + k..];
    }
  }

  lemma NoStar(p: string)
    requires |SplitStar(p)| == 1
    ensures SplitStar(p) == [p]
  {
    if p != [] {
      NoStar(p[1..]);
      assert [p[0]] + p[1..] == p;
    }
  }

  /** The greedy matcher: leftmost middle pieces, then the suffix. It decides
      exactly the pattern's meaning. */
  method MatchGlob(pattern: string, s: string) returns (b: bool)
    ensures b == Matches(pattern, s)
  {
    hide Matches, MatchPieces, Anywhere, IndexOf, SplitStar;
    var parts := SplitStar(pattern);
    PiecesMeaning(pattern, s);
    if |parts| == 1 {
      NoStar(pattern);
      OnePiece(pattern, s);
      return pattern == s;
    }
    FirstPiece(parts, s);
    if !(parts[0] <= s) {
      return false;
    }
    var rest := s[|parts[0]|..];
    var last := parts[|parts| - 1];
    var n := 1;
    while n < |parts| - 1
      invariant 1 <= n <= |parts| - 1
      invariant Matches(pattern, s) <==> Anywhere(parts[n..], rest)
    {
      var part := parts[n];
      GreedyStep(parts[n..], rest);
      assert parts[n..][0] == part && parts[n..][1..] == parts[n + 1..];
      var idx := IndexOf(rest, part);
      if idx < 0 {
        return false;
      }
      rest := rest[idx + |part|..];
      n := n + 1;
    }
    assert parts[n..] == [last];
    LastPiece(last, rest);
    b := HasSuffix(rest, last);
  }

  lemma OnePiece(p: string, s: string)
    ensures MatchPieces([p], s) <==> p == s
  {
  }

  ghost predicate MatchesAny(patterns: seq<string>, s: string) {
    exists i :: 0 <= i < |patterns| && Matches(patterns[i], s)
  }

  method MatchAny(patterns: seq<string>, s: string) returns (b: bool)
    ensures b == MatchesAny(patterns, s)
  {
    hide Matches;
    for i := 0 to |patterns|
      invariant forall j :: 0 <= j < i ==> !Matches(patterns[j], s)
    {
      var m := MatchGlob(patterns[i], s);
      if m {
        return true;
      }
    }
    return false;
  }

  /** Deny wins over allow, and an empty allow list admits everything. */
  method NamespaceAllowed(allow: seq<string>, deny: seq<string>, namespace: string) returns (b: bool)
    ensures b <==> (allow == [] || MatchesAny(allow, namespace)) && !MatchesAny(deny, namespace)
  {
    hide MatchesAny;
    if |allow| > 0 {
      var allowed := MatchAny(allow, namespace);
      if !allowed {
        return false;
      }
    }
    var denied := MatchAny(deny, namespace);
    b := !denied;
  }
}
