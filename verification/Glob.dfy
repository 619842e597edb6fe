/** The operator's globs over repository paths: `**` is any number of segments, and any other segment is matched within
    one (internal/glob/glob.go). How one segment matches is given, as path.Match decides it. */
module Glob {
  import opened Base

  type Segment = string
  type Within = (Segment, Segment) -> bool     // a pattern's segment matches a name's, and is well formed

  const ANY: Segment := "**"

  // ---- What a pattern means ----

  /** Whether one segment of a pattern covers a stretch of a name. */
  predicate Covers(segment: Segment, stretch: seq<Segment>, within: Within) {
    segment == ANY || (|stretch| == 1 && within(segment, stretch[0]))
  }

  /** The `k`th stretch of a name cut at `cuts`, covered by the pattern's segment. */
  ghost predicate Fits(pattern: seq<Segment>, name: seq<Segment>, cuts: seq<nat>, within: Within, k: nat)
    requires |cuts| == |pattern| + 1 && k < |pattern|
  {
    cuts[k] <= cuts[k + 1] <= |name| && Covers(pattern[k], name[cuts[k]..cuts[k + 1]], within)
  }

  /** The name cut into one stretch for each segment of the pattern. */
  ghost predicate Aligns(pattern: seq<Segment>, name: seq<Segment>, cuts: seq<nat>, within: Within) {
    && |cuts| == |pattern| + 1
    && cuts[0] == 0 && cuts[|pattern|] == |name|
    && forall k :: 0 <= k < |pattern| ==> Fits(pattern, name, cuts, within, k)
  }

  ghost predicate Denotes(pattern: seq<Segment>, name: seq<Segment>, within: Within) {
    exists cuts :: Aligns(pattern, name, cuts, within)
  }

  // ---- Step by step ----

  lemma NothingLeft(name: seq<Segment>, within: Within)
    ensures Denotes([], name, within) <==> name == []
  {
    if name == [] {
      assert Aligns([], name, [0], within);
    }
  }

  function Shifted(cuts: seq<nat>, n: nat): seq<nat> {
    seq(|cuts|, k requires 0 <= k < |cuts| => cuts[k] + n)
  }

  /** The first stretch, then what the rest of the pattern makes of the rest of the name. */
  lemma FirstStretch(pattern: seq<Segment>, name: seq<Segment>, i: nat, within: Within)
    requires pattern != [] && i <= |name| && Covers(pattern[0], name[..i], within) && Denotes(pattern[1..], name[i..], within)
    ensures Denotes(pattern, name, within)
  {
    var rest :| Aligns(pattern[1..], name[i..], rest, within);
    var cuts := [0] + Shifted(rest, i);
    forall k | 0 <= k < |pattern| ensures Fits(pattern, name, cuts, within, k) {
      if k == 0 {
        assert name[cuts[0]..cuts[1]] == name[..i];
      } else {
        assert Fits(pattern[1..], name[i..], rest, within, k - 1);
        assert name[i..][rest[k - 1]..rest[k]] == name[cuts[k]..cuts[k + 1]];
      }
    }
    assert Aligns(pattern, name, cuts, within);
  }

  lemma StretchesFirst(pattern: seq<Segment>, name: seq<Segment>, within: Within) returns (i: nat)
    requires pattern != [] && Denotes(pattern, name, within)
    ensures i <= |name| && Covers(pattern[0], name[..i], within) && Denotes(pattern[1..], name[i..], within)
  {
    var cuts :| Aligns(pattern, name, cuts, within);
    assert Fits(pattern, name, cuts, within, 0);
    i := cuts[1];
    assert name[cuts[0]..cuts[1]] == name[..i];
    forall k | 1 <= k <= |pattern| ensures i <= cuts[k] {
      CutsRise(pattern, name, cuts, within, k);
    }
    var rest: seq<nat> := seq(|pattern|, k requires 0 <= k < |pattern| => cuts[k + 1] - i);
    forall k | 0 <= k < |pattern[1..]| ensures Fits(pattern[1..], name[i..], rest, within, k) {
      assert Fits(pattern, name, cuts, within, k + 1);
      assert name[i..][rest[k]..rest[k + 1]] == name[cuts[k + 1]..cuts[k + 2]];
    }
    assert Aligns(pattern[1..], name[i..], rest, within);
  }

  lemma {:induction false} CutsRise(pattern: seq<Segment>, name: seq<Segment>, cuts: seq<nat>, within: Within, k: nat)
    requires Aligns(pattern, name, cuts, within) && 1 <= k <= |pattern|
    ensures cuts[1] <= cuts[k]
    decreases k
  {
    if k > 1 {
      assert Fits(pattern, name, cuts, within, k - 1);
      CutsRise(pattern, name, cuts, within, k - 1);
    }
  }

  /** The rest of the pattern is tried on every rest of the name, and a segment on just the next. */
  method MatchSegments(pattern: seq<Segment>, name: seq<Segment>, within: Within) returns (ok: bool)
    ensures ok <==> Denotes(pattern, name, within)
    decreases |pattern|
  {
    var p, n := pattern, name;
    while p != []
      invariant |p| <= |pattern|
      invariant Denotes(pattern, name, within) <==> Denotes(p, n, within)
      decreases |p|
    {
      if p[0] == ANY {
        var rest := p[1..];
        for i := 0 to |n| + 1
          invariant forall k :: 0 <= k < i ==> !Denotes(rest, n[k..], within)
        {
          var there := MatchSegments(rest, n[i..], within);
          if there {
            FirstStretch(p, n, i, within);
            return true;
          }
        }
        if Denotes(p, n, within) {
          var i := StretchesFirst(p, n, within);
          assert false;
        }
        return false;
      }
      if n == [] || !within(p[0], n[0]) {
        if Denotes(p, n, within) {
          var i := StretchesFirst(p, n, within);
          assert false;
        }
        return false;
      }
      NextSegment(p, n, within);
      p, n := p[1..], n[1..];
    }
    NothingLeft(n, within);
    ok := n == [];
  }

  lemma NextSegment(pattern: seq<Segment>, name: seq<Segment>, within: Within)
    requires pattern != [] && name != [] && pattern[0] != ANY && within(pattern[0], name[0])
    ensures Denotes(pattern, name, within) <==> Denotes(pattern[1..], name[1..], within)
  {
    if Denotes(pattern, name, within) {
      var i := StretchesFirst(pattern, name, within);
      assert i == 1;
    }
    if Denotes(pattern[1..], name[1..], within) {
      FirstStretch(pattern, name, 1, within);
    }
  }

  // ---- Adjacent `**` ----

  lemma AnyFirst(rest: seq<Segment>, name: seq<Segment>, within: Within)
    ensures Denotes([ANY] + rest, name, within) <==> exists i :: 0 <= i <= |name| && Denotes(rest, name[i..], within)
  {
    assert ([ANY] + rest)[1..] == rest;
    if Denotes([ANY] + rest, name, within) {
      var i := StretchesFirst([ANY] + rest, name, within);
    }
    if i :| 0 <= i <= |name| && Denotes(rest, name[i..], within) {
      FirstStretch([ANY] + rest, name, i, within);
    }
  }

  /** Two of them next to each other, anywhere in a pattern, are one. */
  lemma {:induction false} AnyTwiceIsAny(before: seq<Segment>, rest: seq<Segment>, name: seq<Segment>, within: Within)
    ensures Denotes(before + [ANY, ANY] + rest, name, within) <==> Denotes(before + [ANY] + rest, name, within)
    decreases |before|
  {
    var twice, once := before + [ANY, ANY] + rest, before + [ANY] + rest;
    if before == [] {
      assert twice == [ANY] + ([ANY] + rest) && once == [ANY] + rest;
      AnyFirst([ANY] + rest, name, within);
      AnyFirst(rest, name, within);
      if Denotes(twice, name, within) {
        var i :| 0 <= i <= |name| && Denotes([ANY] + rest, name[i..], within);
        AnyFirst(rest, name[i..], within);
        var j :| 0 <= j <= |name[i..]| && Denotes(rest, name[i..][j..], within);
        assert name[i..][j..] == name[i + j..];
      }
      if Denotes(once, name, within) {
        assert name[0..] == name;
      }
    } else {
      assert twice[1..] == before[1..] + [ANY, ANY] + rest && once[1..] == before[1..] + [ANY] + rest;
      if Denotes(twice, name, within) {
        var i := StretchesFirst(twice, name, within);
        AnyTwiceIsAny(before[1..], rest, name[i..], within);
        FirstStretch(once, name, i, within);
      }
      if Denotes(once, name, within) {
        var i := StretchesFirst(once, name, within);
        AnyTwiceIsAny(before[1..], rest, name[i..], within);
        FirstStretch(twice, name, i, within);
      }
    }
  }

  // ---- Paths ----

  /** A path's segments, between its slashes. */
  function Segments(path: string): (s: seq<Segment>)
    ensures s != []
  {
    if path == "" then [""]
    else
      var rest := Segments(path[1..]);
      if path[0] == '/' then [""] + rest else [[path[0]] + rest[0]] + rest[1..]
  }

  function Joined(segments: seq<Segment>): string {
    if segments == [] then ""
    else if |segments| == 1 then segments[0]
    else segments[0] + "/" + Joined(segments[1..])
  }

  /** The segments are the path's, and nothing but its slashes is between them. */
  lemma {:induction false} SegmentsJoin(path: string)
    ensures Joined(Segments(path)) == path
    ensures forall k :: 0 <= k < |Segments(path)| ==> '/' !in Segments(path)[k]
    decreases |path|
  {
    if path != "" {
      SegmentsJoin(path[1..]);
      var rest := Segments(path[1..]);
      var s := Segments(path);
      if path[0] == '/' {
        assert s[1..] == rest;
      } else {
        assert s[1..] == rest[1..];
        assert Joined(s) == [path[0]] + Joined(rest);
      }
      assert path == [path[0]] + path[1..];
    }
  }

  ghost predicate Matches(pattern: string, path: string, within: Within) {
    Denotes(Segments(pattern), Segments(path), within)
  }

  ghost predicate SomeMatches(patterns: seq<string>, path: string, within: Within) {
    exists k :: 0 <= k < |patterns| && Matches(patterns[k], path, within)
  }

  /** Some of the patterns match a path: the first that does is enough. */
  method MatchesSome(patterns: seq<string>, path: string, within: Within) returns (matched: bool)
    ensures matched <==> SomeMatches(patterns, path, within)
  {
    for j := 0 to |patterns|
      invariant forall k :: 0 <= k < j ==> !Matches(patterns[k], path, within)
    {
      var there := MatchSegments(Segments(patterns[j]), Segments(path), within);
      if there {
        assert Matches(patterns[j], path, within);
        return true;
      }
    }
    matched := false;
  }

  /** Where the paths in `out` are first named: in order. */
  ghost predicate FirstNamed(out: seq<string>, at: seq<nat>, paths: seq<string>) {
    && |at| == |out|
    && (forall k :: 0 <= k < |out| ==> at[k] < |paths| && paths[at[k]] == out[k] && out[k] !in paths[..at[k]])
    && (forall j, k :: 0 <= j < k < |at| ==> at[j] < at[k])
  }

  lemma FirstNamedOneMore(out: seq<string>, at: seq<nat>, paths: seq<string>, i: nat)
    requires i < |paths| && FirstNamed(out, at, paths[..i])
    ensures FirstNamed(out, at, paths[..i + 1])
    ensures paths[i] !in paths[..i] ==> FirstNamed(out + [paths[i]], at + [i], paths[..i + 1])
  {
    assert paths[..i + 1] == paths[..i] + [paths[i]];
    forall k | 0 <= k < |out|
      ensures at[k] < |paths[..i + 1]| && paths[..i + 1][at[k]] == out[k] && out[k] !in paths[..i + 1][..at[k]]
    {
      assert paths[..i + 1][..at[k]] == paths[..i][..at[k]];
    }
    assert paths[..i + 1][..i] == paths[..i];
  }

  lemma FirstNamedIsOnce(out: seq<string>, at: seq<nat>, paths: seq<string>)
    requires FirstNamed(out, at, paths)
    ensures Distinct(out)
  {
    forall j, k | 0 <= j < k < |out| ensures out[j] != out[k] {
      assert paths[..at[k]][at[j]] == out[j];
    }
  }

  /** The paths some pattern matches, once each, where `paths` first names them. `at` is where. */
  method Matching(patterns: seq<string>, paths: seq<string>, within: Within) returns (out: seq<string>, ghost at: seq<nat>)
    ensures forall p :: p in out <==> p in paths && p != "" && SomeMatches(patterns, p, within)
    ensures Distinct(out)
    ensures FirstNamed(out, at, paths)
  {
    hide FirstNamed, SomeMatches, Distinct;
    out, at := [], [];
    assert FirstNamed(out, at, paths[..0]) by { NothingNamed(paths); }
    var seen: set<string> := {};
    for i := 0 to |paths|
      invariant forall p :: p in out <==> p in paths[..i] && p != "" && SomeMatches(patterns, p, within)
      invariant forall p :: p in seen <==> p in out
      invariant FirstNamed(out, at, paths[..i])
    {
      var p := paths[i];
      assert paths[..i + 1] == paths[..i] + [p];
      FirstNamedOneMore(out, at, paths, i);
      if p == "" || p in seen {
        continue;
      }
      var matched := MatchesSome(patterns, p, within);
      if matched {
        seen, out, at := seen + {p}, out + [p], at + [i];
      }
    }
    assert paths[..|paths|] == paths;
    FirstNamedIsOnce(out, at, paths);
  }

  lemma NothingNamed(paths: seq<string>)
    ensures FirstNamed([], [], paths[..0])
  {
  }
}
