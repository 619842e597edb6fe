/** Searching, trimming and splitting text, as the strings package does. */
module Text {
  import opened Base

  /** `p` stands in `s` at `k`. */
  predicate At(s: string, p: string, k: int) {
    0 <= k && k + |p| <= |s| && s[k..k + |p|] == p
  }

  /** Where `p` first stands in `s`. */
  function Index(s: string, p: string): (r: Option<nat>)
    ensures r.Some? ==> At(s, p, r.value) && forall k :: 0 <= k < r.value ==> !At(s, p, k)
    ensures r.None? ==> forall k :: !At(s, p, k)
  {
    FirstFrom(s, p, 0)
  }

  function FirstFrom(s: string, p: string, from: nat): (r: Option<nat>)
    ensures r.Some? ==> from <= r.value && At(s, p, r.value) && forall k :: from <= k < r.value ==> !At(s, p, k)
    ensures r.None? ==> forall k :: from <= k ==> !At(s, p, k)
    decreases |s| - from
  {
    if from + |p| > |s| then None
    else if At(s, p, from) then Some(from)
    else FirstFrom(s, p, from + 1)
  }

  /** Where it last does. */
  function LastIndex(s: string, p: string): (r: Option<nat>)
    ensures r.Some? ==> At(s, p, r.value) && forall k :: r.value < k ==> !At(s, p, k)
    ensures r.None? ==> forall k :: !At(s, p, k)
  {
    LastUpTo(s, p, |s|)
  }

  function LastUpTo(s: string, p: string, to: nat): (r: Option<nat>)
    requires to <= |s|
    ensures r.Some? ==> At(s, p, r.value) && forall k :: r.value < k <= to ==> !At(s, p, k)
    ensures r.None? ==> forall k :: k <= to ==> !At(s, p, k)
  {
    if At(s, p, to) then Some(to) else if to == 0 then None else LastUpTo(s, p, to - 1)
  }

  /** Between two texts, what stands in the second stands in both together. */
  lemma AtInTail(a: string, b: string, p: string, k: int)
    requires |a| <= k
    ensures At(a + b, p, k) <==> At(b, p, k - |a|)
  {
    if k + |p| <= |a + b| {
      assert (a + b)[k..k + |p|] == b[k - |a|..k - |a| + |p|];
    }
  }

  lemma AtInHead(a: string, b: string, p: string, k: int)
    requires k + |p| <= |a|
    ensures At(a + b, p, k) <==> At(a, p, k)
  {
    if 0 <= k {
      assert (a + b)[k..k + |p|] == a[k..k + |p|];
    }
  }

  lemma AtEach(s: string, p: string, k: int, j: nat)
    requires At(s, p, k) && j < |p|
    ensures s[k + j] == p[j]
  {
    assert s[k..k + |p|][j] == s[k + j];
  }

  /** One character that differs, or has no room, is enough. */
  lemma Differs(s: string, p: string, k: int, j: nat)
    requires j < |p| && (0 <= k && k + j < |s| ==> s[k + j] != p[j])
    ensures !At(s, p, k)
  {
    assert 0 <= k && k + |p| <= |s| ==> s[k..k + |p|][j] == s[k + j];
  }

  lemma NotStarted(s: string, p: string, q: string, k: int)
    requires q <= p && !At(s, q, k)
    ensures !At(s, p, k)
  {
    assert 0 <= k && k + |p| <= |s| ==> s[k..k + |q|] == s[k..k + |p|][..|q|];
  }

  lemma AtIs(s: string, p: string, k: nat)
    requires k + |p| <= |s| && forall j :: 0 <= j < |p| ==> s[k + j] == p[j]
    ensures At(s, p, k)
  {
    assert s[k..k + |p|] == p;
  }

  lemma LastIs(s: string, p: string, k: nat)
    requires At(s, p, k) && forall j :: k < j ==> !At(s, p, j)
    ensures LastIndex(s, p) == Some(k)
  {
  }

  lemma FirstIs(s: string, p: string, k: nat)
    requires At(s, p, k) && forall j :: 0 <= j < k ==> !At(s, p, j)
    ensures Index(s, p) == Some(k)
  {
  }

  // ---- Lines ----

  /** Text split at its newlines: at least one line. */
  function Lines(s: string): (ls: seq<string>)
    ensures ls != []
  {
    if s == "" then [""]
    else
      var rest := Lines(s[1..]);
      if s[0] == '\n' then [""] + rest else [[s[0]] + rest[0]] + rest[1..]
  }

  function Unlines(ls: seq<string>): string {
    if ls == [] then ""
    else if |ls| == 1 then ls[0]
    else ls[0] + "\n" + Unlines(ls[1..])
  }

  ghost predicate AreLines(ls: seq<string>) {
    forall k :: 0 <= k < |ls| ==> '\n' !in ls[k]
  }

  lemma LinesOneMore(c: char, rest: seq<string>)
    requires rest != [] && AreLines(rest)
    ensures var ls := if c == '\n' then [""] + rest else [[c] + rest[0]] + rest[1..];
            Unlines(ls) == [c] + Unlines(rest) && AreLines(ls)
  {
    if c == '\n' {
      assert ([""] + rest)[1..] == rest;
    } else {
      assert ([[c] + rest[0]] + rest[1..])[1..] == rest[1..];
    }
  }

  lemma {:induction false} LinesJoin(s: string)
    ensures Unlines(Lines(s)) == s && AreLines(Lines(s))
    decreases |s|
  {
    if s != "" {
      LinesJoin(s[1..]);
      LinesOneMore(s[0], Lines(s[1..]));
      assert s == [s[0]] + s[1..];
    }
  }

  lemma {:induction false} LineFirst(l: string, rest: string)
    requires '\n' !in l
    ensures Lines(l + "\n" + rest) == [l] + Lines(rest)
    decreases |l|
  {
    if l == "" {
      assert l + "\n" + rest == "\n" + rest;
      assert ("\n" + rest)[1..] == rest;
    } else {
      assert (l + "\n" + rest)[1..] == l[1..] + "\n" + rest;
      LineFirst(l[1..], rest);
      assert [l[0]] + l[1..] == l;
    }
  }

  lemma {:induction false} OneLine(l: string)
    requires '\n' !in l
    ensures Lines(l) == [l]
    decreases |l|
  {
    if l != "" {
      OneLine(l[1..]);
      assert [l[0]] + l[1..] == l;
    }
  }

  lemma {:induction false} LinesOfUnlines(ls: seq<string>)
    requires ls != [] && AreLines(ls)
    ensures Lines(Unlines(ls)) == ls
    decreases |ls|
  {
    if |ls| == 1 {
      OneLine(ls[0]);
    } else {
      assert AreLines(ls[1..]);
      LinesOfUnlines(ls[1..]);
      LineFirst(ls[0], Unlines(ls[1..]));
    }
  }

  lemma {:induction false} UnlinesBoth(xs: seq<string>, ys: seq<string>)
    requires xs != [] && ys != []
    ensures Unlines(xs + ys) == Unlines(xs) + "\n" + Unlines(ys)
    decreases |xs|
  {
    assert (xs + ys)[1..] == xs[1..] + ys;
    if |xs| > 1 {
      UnlinesBoth(xs[1..], ys);
    }
  }

  // ---- Trimming ----

  /** Without the newlines at its end. */
  function TrimRight(s: string): (r: string)
    ensures r <= s && (r == "" || r[|r| - 1] != '\n') && forall k :: |r| <= k < |s| ==> s[k] == '\n'
  {
    if s == "" || s[|s| - 1] != '\n' then s else TrimRight(s[..|s| - 1])
  }

  /** Without the empty lines at their end, but for a first. */
  function TrimLines(ls: seq<string>): (r: seq<string>)
    ensures r <= ls && (ls != [] ==> r != [])
    ensures |r| > 1 ==> r[|r| - 1] != ""
  {
    if |ls| > 1 && ls[|ls| - 1] == "" then TrimLines(ls[..|ls| - 1]) else ls
  }

  lemma TrimNewline(s: string)
    ensures TrimRight(s + "\n") == TrimRight(s)
  {
    assert (s + "\n")[..|s|] == s;
  }

  /** What stays of a trimmed text is no more than is trimmed again. */
  lemma TrimTail(a: string, b: string)
    requires TrimRight(b) != ""
    ensures TrimRight(a + b) == a + TrimRight(b)
    decreases |b|
  {
    if b[|b| - 1] == '\n' {
      assert (a + b)[..|a + b| - 1] == a + b[..|b| - 1];
      TrimTail(a, b[..|b| - 1]);
    }
  }

  lemma {:induction false} TrimUnlines(ls: seq<string>)
    requires ls != [] && AreLines(ls)
    ensures TrimRight(Unlines(ls)) == Unlines(TrimLines(ls))
    decreases |ls|
  {
    var last := |ls| - 1;
    if |ls| > 1 {
      assert ls[..last] + [ls[last]] == ls;
      UnlinesBoth(ls[..last], [ls[last]]);
      assert AreLines(ls[..last]);
      if ls[last] == "" {
        TrimUnlines(ls[..last]);
        TrimNewline(Unlines(ls[..last]));
        assert Unlines(ls) == Unlines(ls[..last]) + "\n";
      }
    }
  }

  // ---- Lines that start a certain way ----

  /** A newline does not stand within a line. */
  lemma NotWithinALine(l: string, rest: string, p: string, k: int)
    requires '\n' !in l && 0 <= k < |l|
    ensures !At(l + rest, "\n" + p, k)
  {
    assert (l + rest)[k] == l[k] && l[k] in l;
    Differs(l + rest, "\n" + p, k, 0);
  }

  lemma {:induction false} LineThenAt(ls: seq<string>, p: string, j: nat)
    requires AreLines(ls) && 1 <= j < |ls| && p <= ls[j]
    ensures exists k :: At(Unlines(ls), "\n" + p, k)
    decreases |ls|
  {
    var rest := Unlines(ls[1..]);
    var n := |ls[0]|;
    var s := ls[0] + "\n" + rest;
    assert Unlines(ls) == s;
    if j == 1 {
      StartsFirstLineIf(ls[1..], p);
      AtIs(s, "\n" + p, n);
      assert At(Unlines(ls), "\n" + p, n);
    } else {
      LineThenAt(ls[1..], p, j - 1);
      var k :| At(rest, "\n" + p, k);
      AtInTail(ls[0] + "\n", rest, "\n" + p, k + n + 1);
      assert At(Unlines(ls), "\n" + p, k + n + 1);
    }
  }

  lemma StartsFirstLineIf(ls: seq<string>, p: string)
    requires ls != [] && p <= ls[0]
    ensures p <= Unlines(ls)
  {
  }

  lemma AtFirstBreak(l: string, rest: string, p: string)
    requires At(l + "\n" + rest, "\n" + p, |l|)
    ensures p <= rest
  {
    var s := l + "\n" + rest;
    assert s[|l| + 1..] == rest;
    assert s[|l|..|l| + 1 + |p|][1..] == s[|l| + 1..|l| + 1 + |p|] == rest[..|p|];
    assert ("\n" + p)[1..] == p;
  }

  lemma {:induction false} AtThenLine(ls: seq<string>, p: string, k: int)
    requires ls != [] && AreLines(ls) && '\n' !in p && At(Unlines(ls), "\n" + p, k)
    ensures exists j :: 1 <= j < |ls| && p <= ls[j]
    decreases |ls|
  {
    if |ls| == 1 {
      assert ls[0] + "" == Unlines(ls);
      NotWithinALine(ls[0], "", p, k);
    } else {
      var rest := Unlines(ls[1..]);
      var n := |ls[0]|;
      assert Unlines(ls) == ls[0] + "\n" + rest == ls[0] + ("\n" + rest) == (ls[0] + "\n") + rest;
      if k < n {
        NotWithinALine(ls[0], "\n" + rest, p, k);
      } else if k == n {
        AtFirstBreak(ls[0], rest, p);
        StartsFirstLine(ls[1..], p);
        assert p <= ls[1];
      } else {
        AtInTail(ls[0] + "\n", rest, "\n" + p, k);
        AtThenLine(ls[1..], p, k - n - 1);
        var j :| 1 <= j < |ls[1..]| && p <= ls[1..][j];
        assert p <= ls[j + 1];
      }
    }
  }

  /** A text without newlines stands after one exactly where a line but the first starts with it. */
  lemma AfterNewline(ls: seq<string>, p: string)
    requires ls != [] && AreLines(ls) && '\n' !in p
    ensures (exists k :: At(Unlines(ls), "\n" + p, k)) <==> exists j :: 1 <= j < |ls| && p <= ls[j]
  {
    if k :| At(Unlines(ls), "\n" + p, k) {
      AtThenLine(ls, p, k);
    }
    if j :| 1 <= j < |ls| && p <= ls[j] {
      LineThenAt(ls, p, j);
    }
  }

  lemma StartsFirstLine(ls: seq<string>, p: string)
    requires ls != [] && '\n' !in p
    ensures p <= Unlines(ls) <==> p <= ls[0]
  {
    assert |p| > |ls[0]| ==> p[|ls[0]|] in p;
    if |ls| > 1 {
      assert Unlines(ls)[|ls[0]|] == '\n';
    }
  }

  // ---- Line ends, spaces and case ----

  /** Line ends as the agent writes them: each is a newline. */
  function Normal(s: string): string {
    if s == "" then ""
    else if |s| >= 2 && s[0] == '\r' && s[1] == '\n' then "\n" + Normal(s[2..])
    else [s[0]] + Normal(s[1..])
  }

  lemma {:induction false} NormalAlready(s: string)
    requires '\r' !in s
    ensures Normal(s) == s
    decreases |s|
  {
    if s != "" {
      assert s[0] in s;
      NormalAlready(s[1..]);
      assert s == [s[0]] + s[1..];
    }
  }

  predicate IsSpace(c: char) {
    c == ' ' || '\t' <= c <= '\r' || c == '\U{85}' || c == '\U{A0}'
  }

  function TrimLeft(s: string): string {
    if s != "" && IsSpace(s[0]) then TrimLeft(s[1..]) else s
  }

  function TrimEnd(s: string): string {
    if s != "" && IsSpace(s[|s| - 1]) then TrimEnd(s[..|s| - 1]) else s
  }

  function Trim(s: string): string {
    TrimEnd(TrimLeft(s))
  }

  function Lower(c: char): char {
    if 'A' <= c <= 'Z' then c - 'A' + 'a' else c
  }

  predicate SameFolded(a: string, b: string) {
    |a| == |b| && forall k :: 0 <= k < |a| ==> Lower(a[k]) == Lower(b[k])
  }
}
