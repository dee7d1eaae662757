/**
  `*` globs: the matcher's leftmost search over the fixed segments finds a
  match exactly when some way of filling in the stars gives the value.
 */
module Glob {
  import opened Records

  // ---------------------------------------------------------------------
  // What a pattern means
  // ---------------------------------------------------------------------

  function Stars(pattern: string): nat {
    if pattern == "" then 0 else (if pattern[0] == '*' then 1 else 0) + Stars(pattern[1..])
  }

  /** The pattern with its stars replaced, in order, by `fills`. */
  function Expand(pattern: string, fills: seq<string>): string
    requires |fills| == Stars(pattern)
  {
    if pattern == "" then ""
    else if pattern[0] == '*' then fills[0] + Expand(pattern[1..], fills[1..])
    else [pattern[0]] + Expand(pattern[1..], fills)
  }

  /** Some replacement of each star gives `value`. */
  ghost predicate Matches(pattern: string, value: string) {
    exists fills :: |fills| == Stars(pattern) && Expand(pattern, fills) == value
  }

  // ---------------------------------------------------------------------
  // Segments
  // ---------------------------------------------------------------------

  /** The stretches between the stars; always one more than there are stars. */
  function Split(pattern: string): (segments: seq<string>)
    ensures |segments| == Stars(pattern) + 1
  {
    if pattern == "" then [""]
    else
      var rest := Split(pattern[1..]);
      if pattern[0] == '*' then [""] + rest else [[pattern[0]] + rest[0]] + rest[1..]
  }

  /** Segments, each with a filling before it. */
  function Weave(segments: seq<string>, fills: seq<string>): string
    requires |fills| == |segments|
  {
    if segments == [] then "" else fills[0] + segments[0] + Weave(segments[1..], fills[1..])
  }

  lemma {:induction false} ExpandIsWeave(pattern: string, fills: seq<string>)
    requires |fills| == Stars(pattern)
    ensures Expand(pattern, fills) == Split(pattern)[0] + Weave(Split(pattern)[1..], fills)
  {
    if pattern != "" {
      var rest := Split(pattern[1..]);
      if pattern[0] == '*' {
        ExpandIsWeave(pattern[1..], fills[1..]);
        assert Split(pattern)[1..] == rest;
        assert fills[0] + (rest[0] + Weave(rest[1..], fills[1..])) == fills[0] + rest[0] + Weave(rest[1..], fills[1..]);
      } else {
        ExpandIsWeave(pattern[1..], fills);
        assert Split(pattern)[1..] == rest[1..];
        assert [pattern[0]] + (rest[0] + Weave(rest[1..], fills)) == [pattern[0]] + rest[0] + Weave(rest[1..], fills);
      }
    }
  }

  predicate At(s: string, i: nat, part: string) {
    i + |part| <= |s| && s[i..i + |part|] == part
  }

  predicate EndsWith(s: string, part: string) {
    |part| <= |s| && s[|s| - |part|..] == part
  }

  /** The segments appear in order, the last one at the very end. */
  ghost predicate Fits(segments: seq<string>, s: string)
    requires segments != []
  {
    if |segments| == 1 then EndsWith(s, segments[0])
    else exists i: nat :: At(s, i, segments[0]) && Fits(segments[1..], s[i + |segments[0]|..])
  }

  /** Fitting into the end of a string is fitting into the string. */
  lemma {:induction false} FitsLonger(segments: seq<string>, s: string, k: nat)
    requires segments != [] && k <= |s| && Fits(segments, s[k..])
    ensures Fits(segments, s)
  {
    if |segments| == 1 {
      assert s[k..][|s| - k - |segments[0]|..] == s[|s| - |segments[0]|..];
    } else {
      var i: nat :| At(s[k..], i, segments[0]) && Fits(segments[1..], s[k..][i + |segments[0]|..]);
      assert s[k..][i..i + |segments[0]|] == s[k + i..k + i + |segments[0]|];
      assert s[k..][i + |segments[0]|..] == s[k + i + |segments[0]|..];
      assert At(s, k + i, segments[0]);
    }
  }

  /** Fitting is being woven with some fillings. */
  lemma {:induction false} WeaveFits(segments: seq<string>, fills: seq<string>)
    requires segments != [] && |fills| == |segments|
    ensures Fits(segments, Weave(segments, fills))
  {
    var s := Weave(segments, fills);
    var rest := Weave(segments[1..], fills[1..]);
    assert s == fills[0] + segments[0] + rest;
    if |segments| == 1 {
      assert s == fills[0] + segments[0];
      assert s[|s| - |segments[0]|..] == segments[0];
    } else {
      WeaveFits(segments[1..], fills[1..]);
      assert At(s, |fills[0]|, segments[0]);
      assert s[|fills[0]| + |segments[0]|..] == rest;
    }
  }

  lemma {:induction false} FitsWeaves(segments: seq<string>, s: string) returns (fills: seq<string>)
    requires segments != [] && Fits(segments, s)
    ensures |fills| == |segments| && Weave(segments, fills) == s
  {
    if |segments| == 1 {
      fills := [s[..|s| - |segments[0]|]];
      assert Weave(segments[1..], fills[1..]) == "";
      assert s == s[..|s| - |segments[0]|] + s[|s| - |segments[0]|..];
    } else {
      var i: nat :| At(s, i, segments[0]) && Fits(segments[1..], s[i + |segments[0]|..]);
      var rest := FitsWeaves(segments[1..], s[i + |segments[0]|..]);
      fills := [s[..i]] + rest;
      assert fills[1..] == rest;
      assert s == s[..i] + s[i..i + |segments[0]|] + s[i + |segments[0]|..];
    }
  }

  /** A pattern with stars: its first segment in front, the others fitting behind. */
  lemma MatchesBySegments(pattern: string, value: string)
    requires Stars(pattern) > 0
    ensures var segments := Split(pattern);
            Matches(pattern, value) <==>
              At(value, 0, segments[0]) && Fits(segments[1..], value[|segments[0]|..])
  {
    var segments := Split(pattern);
    if Matches(pattern, value) {
      var fills :| |fills| == Stars(pattern) && Expand(pattern, fills) == value;
      ExpandIsWeave(pattern, fills);
      WeaveFits(segments[1..], fills);
      assert value[|segments[0]|..] == Weave(segments[1..], fills);
    }
    if At(value, 0, segments[0]) && Fits(segments[1..], value[|segments[0]|..]) {
      var fills := FitsWeaves(segments[1..], value[|segments[0]|..]);
      ExpandIsWeave(pattern, fills);
      assert value == value[0..|segments[0]|] + value[|segments[0]|..];
    }
  }

  lemma {:induction false} NoStars(pattern: string)
    requires Stars(pattern) == 0
    ensures Expand(pattern, []) == pattern && Split(pattern) == [pattern]
  {
    if pattern != "" {
      NoStars(pattern[1..]);
      assert pattern == [pattern[0]] + pattern[1..];
    }
  }

  lemma LiteralMatches(pattern: string, value: string)
    requires Stars(pattern) == 0
    ensures Split(pattern) == [pattern]
    ensures Matches(pattern, value) <==> pattern == value
  {
    NoStars(pattern);
    if Matches(pattern, value) {
      var fills :| |fills| == Stars(pattern) && Expand(pattern, fills) == value;
      assert fills == [];
    }
  }

  // ---------------------------------------------------------------------
  // The matcher
  // ---------------------------------------------------------------------

  /** The leftmost place `part` appears. */
  function Find(s: string, part: string): (r: Option<nat>)
    ensures r.Some? ==> At(s, r.value, part) && forall i: nat :: At(s, i, part) ==> r.value <= i
    ensures r.None? ==> forall i: nat :: !At(s, i, part)
  {
    FindFrom(s, part, 0)
  }

  function FindFrom(s: string, part: string, from: nat): (r: Option<nat>)
    requires forall i: nat :: i < from ==> !At(s, i, part)
    ensures r.Some? ==> At(s, r.value, part) && forall i: nat :: At(s, i, part) ==> r.value <= i
    ensures r.None? ==> forall i: nat :: !At(s, i, part)
    decreases |s| - from
  {
    if from > |s| then None
    else if At(s, from, part) then Some(from)
    else if from == |s| then None
    else FindFrom(s, part, from + 1)
  }

  /** Taking the leftmost place of a segment loses no match. */
  lemma LeftmostIsEnough(segments: seq<string>, s: string)
    requires |segments| > 1
    ensures var place := Find(s, segments[0]);
            Fits(segments, s) <==> place.Some? && Fits(segments[1..], s[place.value + |segments[0]|..])
  {
    var place := Find(s, segments[0]);
    if Fits(segments, s) {
      var i: nat :| At(s, i, segments[0]) && Fits(segments[1..], s[i + |segments[0]|..]);
      var from := place.value + |segments[0]|;
      assert s[from..][i - place.value..] == s[i + |segments[0]|..];
      FitsLonger(segments[1..], s[from..], i - place.value);
    }
  }

  lemma EmptyIsFirst(s: string)
    ensures Find(s, "") == Some(0)
  {
    assert At(s, 0, "");
  }

  /** The segments behind the first, searched leftmost one after the other. */
  method FitSegments(tail: seq<string>, value: string) returns (fits: bool)
    requires tail != []
    ensures fits <==> Fits(tail, value)
  {
    var last, middles := tail[|tail| - 1], tail[..|tail| - 1];
    var rest := value;
    for i := 0 to |middles|
      invariant Fits(tail, value) <==> Fits(tail[i..], rest)
    {
      var middle := middles[i];
      assert tail[i..][1..] == tail[i + 1..] && tail[i..][0] == middle;
      LeftmostIsEnough(tail[i..], rest);
      if middle == "" {
        EmptyIsFirst(rest);
        assert rest[0..] == rest;
        continue;
      }
      var index := Find(rest, middle);
      if index.None? {
        return false;
      }
      rest := rest[index.value + |middle|..];
    }
    assert tail[|middles|..] == [last];
    return EndsWith(rest, last);
  }

  /** The matcher says yes exactly when the stars can be filled in. */
  method GlobMatch(pattern: string, value: string) returns (matched: bool)
    ensures matched <==> Matches(pattern, value)
  {
    var segments := Split(pattern);
    var first, tail := segments[0], segments[1..];
    if tail == [] {
      LiteralMatches(pattern, value);
      return first == value;
    }
    MatchesBySegments(pattern, value);
    if !At(value, 0, first) {
      return false;
    }
    matched := FitSegments(tail, value[|first|..]);
  }
}
