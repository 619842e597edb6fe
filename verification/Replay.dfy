/** The work's own commits put on top of someone else's push (internal/work/replay.go). What git is asked - a merge base,
    the commits from it, one merged tree - is given by what git promises of it. */
module Replay {
  import opened Base
  import opened Git

  /** A best common ancestor: no other common ancestor is after it. */
  ghost predicate IsMergeBase(base: Commit, a: Commit, b: Commit) {
    && Ancestor(base, a) && Ancestor(base, b)
    && forall c :: Ancestor(base, c) && Ancestor(c, a) && Ancestor(c, b) ==> c == base
  }

  /** The commits of `tip` that `base` does not have, each once, and none before a parent of its. */
  ghost predicate IsRevList(cs: seq<Commit>, base: Commit, tip: Commit) {
    && Distinct(cs)
    && (forall c :: c in cs <==> Ancestor(c, tip) && !Ancestor(c, base))
    && (forall i, j :: 0 <= i <= j < |cs| ==> cs[j] !in cs[i].parents)
  }

  datatype Outcome = On(head: Commit) | Stopped(commit: Commit)

  /** A three-way merge: of a commit's change from its parent onto a head, the tree, or none for a conflict. */
  type Merge = (Commit, Commit, Commit) -> Option<string>

  /** Each of `cs` merged onto the last, from `onto`: the head that makes, or the commit that stopped it. */
  function Replayed(cs: seq<Commit>, onto: Commit, merge: Merge): Outcome {
    if cs == [] then On(onto)
    else if |cs[0].parents| != 1 then Stopped(cs[0])
    else
      match merge(cs[0].parents[0], onto, cs[0])
      case None => Stopped(cs[0])
      case Some(tree) => Replayed(cs[1..], Commit([onto], tree, cs[0].message), merge)
  }

  class Checkout {
    var head: Commit

    constructor (head: Commit)
      ensures this.head == head
    {
      this.head := head;
    }

    /** Nothing of the workspace changes unless every commit went onto the new head. */
    method Replay(onto: Commit, base: Commit, list: seq<Commit>, merge: Merge) returns (out: Outcome)
      requires IsMergeBase(base, onto, head) && IsRevList(list, base, head)
      modifies this
      ensures out == if base == onto then On(old(head)) else Replayed(list, onto, merge)
      ensures head == if out.On? then out.head else old(head)
    {
      if base == onto {
        return On(head);
      }
      var onTop := onto;
      for i := 0 to |list|
        invariant head == old(head)
        invariant Replayed(list, onto, merge) == Replayed(list[i..], onTop, merge)
      {
        var commit := list[i];
        if |commit.parents| != 1 {
          return Stopped(commit);
        }
        var tree := merge(commit.parents[0], onTop, commit);
        if tree.None? {
          return Stopped(commit);
        }
        onTop := Commit([onTop], tree.value, commit.message);
      }
      head := onTop;
      out := On(onTop);
    }
  }

  // ---- What the commits are ----

  /** What the `k`th of a line of commits from `from` is on. */
  function Under(from: Commit, cs: seq<Commit>, k: nat): Commit
    requires k <= |cs|
  {
    if k == 0 then from else cs[k - 1]
  }

  /** A line of commits, the first on `from`, and each other on the one before it. */
  ghost predicate Line(from: Commit, cs: seq<Commit>) {
    forall k :: 0 <= k < |cs| ==> cs[k].parents == [Under(from, cs, k)]
  }

  function Tip(from: Commit, cs: seq<Commit>): Commit {
    if cs == [] then from else cs[|cs| - 1]
  }

  ghost predicate Single(cs: seq<Commit>) {
    forall c :: c in cs ==> |c.parents| == 1
  }

  lemma IndexOf(cs: seq<Commit>, c: Commit) returns (k: nat)
    requires c in cs
    ensures k < |cs| && cs[k] == c
  {
    k :| k < |cs| && cs[k] == c;
  }

  lemma AncestorOfOnlyParent(a: Commit, c: Commit, p: Commit)
    requires c.parents == [p]
    ensures Ancestor(a, c) <==> a == c || Ancestor(a, p)
    ensures !Ancestor(c, p)
  {
    assert p in c.parents;
    if Ancestor(c, p) {
      AncestorIsLighter(c, p);
      AncestorIsLighter(p, c);
    }
  }

  /** Without its tip, the list is the list of the tip's only parent. */
  lemma WithoutTip(cs: seq<Commit>, base: Commit, tip: Commit, k: nat, rest: seq<Commit>)
    requires IsRevList(cs, base, tip) && k < |cs| && cs[k] == tip && |tip.parents| == 1
    requires rest == cs[..k] + cs[k + 1..]
    ensures IsRevList(rest, base, tip.parents[0])
  {
    var p := tip.parents[0];
    forall c ensures c in rest <==> Ancestor(c, p) && !Ancestor(c, base) {
      AncestorOfOnlyParent(c, tip, p);
      assert c in rest <==> c in cs && c != tip;
    }
    forall i, j | 0 <= i <= j < |rest| ensures rest[j] !in rest[i].parents {
      assert rest[i] == cs[if i < k then i else i + 1];
      assert rest[j] == cs[if j < k then j else j + 1];
    }
  }

  lemma LineGrows(base: Commit, rest: seq<Commit>, tip: Commit)
    requires Line(base, rest) && tip.parents == [Tip(base, rest)]
    ensures Line(base, rest + [tip]) && Tip(base, rest + [tip]) == tip
  {
    var cs := rest + [tip];
    forall k | 0 <= k < |cs| ensures cs[k].parents == [Under(base, cs, k)] {
      assert k < |rest| ==> cs[k] == rest[k] && Under(base, cs, k) == Under(base, rest, k);
    }
  }

  /** A line's tip is last in its list: its parent, the rest's tip, stands before it. */
  lemma TipIsLast(cs: seq<Commit>, base: Commit, k: nat)
    requires k < |cs| && (forall i, j :: 0 <= i <= j < |cs| ==> cs[j] !in cs[i].parents)
    requires cs[k].parents == [Tip(base, cs[..k] + cs[k + 1..])]
    ensures k == |cs| - 1
  {
    var last := cs[|cs| - 1];
    assert Tip(base, cs[..k] + cs[k + 1..]) == if k == |cs| - 1 then Tip(base, cs[..k]) else last;
  }

  lemma FirstIsIn(cs: seq<Commit>)
    ensures cs != [] ==> cs[0] in cs
  {
  }

  lemma ListOfNothing(cs: seq<Commit>, base: Commit)
    requires IsRevList(cs, base, base)
    ensures cs == []
  {
    FirstIsIn(cs);
  }

  /** Where no commit is a merge or a root, the list is a line from the base to the tip. */
  lemma {:induction false} ListIsALine(cs: seq<Commit>, base: Commit, tip: Commit)
    requires IsRevList(cs, base, tip) && Single(cs) && Ancestor(base, tip)
    ensures Line(base, cs) && Tip(base, cs) == tip
    decreases |cs|
  {
    if Ancestor(tip, base) {
      AncestorIsAntisymmetric(tip, base);
      ListOfNothing(cs, base);
      return;
    }
    assert tip in cs;
    var k := IndexOf(cs, tip);
    var p := tip.parents[0];
    AncestorOfOnlyParent(base, tip, p);
    var rest := cs[..k] + cs[k + 1..];
    WithoutTip(cs, base, tip, k, rest);
    assert Single(rest);
    hide IsRevList, Ancestor, Line, Single, Distinct;
    ListIsALine(rest, base, p);
    TipIsLast(cs, base, k) by { InOrder(cs, base, tip); }
    LineGrows(base, rest, tip);
    assert cs == rest + [tip];
  }

  lemma InOrder(cs: seq<Commit>, base: Commit, tip: Commit)
    requires IsRevList(cs, base, tip)
    ensures forall i, j :: 0 <= i <= j < |cs| ==> cs[j] !in cs[i].parents
  {
  }

  lemma {:induction false} LineHasFrom(from: Commit, cs: seq<Commit>, k: nat)
    requires Line(from, cs) && k < |cs|
    ensures Ancestor(from, cs[k]) && from != cs[k]
    decreases k
  {
    AncestorOfOnlyParent(from, cs[k], Under(from, cs, k));
    if k > 0 {
      LineHasFrom(from, cs, k - 1);
      AncestorIsLighter(from, cs[k - 1]);
      AncestorIsLighter(cs[k - 1], cs[k]);
    }
  }

  /** What is replayed is exactly the work's own: the commits on its branch that `onto` does not have. */
  lemma ListIsTheWorksOwn(cs: seq<Commit>, base: Commit, onto: Commit, tip: Commit)
    requires IsMergeBase(base, onto, tip) && IsRevList(cs, base, tip) && Single(cs)
    ensures forall c :: c in cs <==> Ancestor(c, tip) && !Ancestor(c, onto)
  {
    ListIsALine(cs, base, tip);
    forall c ensures c in cs <==> Ancestor(c, tip) && !Ancestor(c, onto) {
      if c in cs && Ancestor(c, onto) {
        var k := IndexOf(cs, c);
        LineHasFrom(base, cs, k);
        assert false;
      }
      if Ancestor(c, base) {
        AncestorIsTransitive(c, base, onto);
      }
    }
  }

  // ---- What a replay makes ----

  /** The same commits again, each changed as it was, on another head. */
  ghost predicate Copies(cs: seq<Commit>, made: seq<Commit>, onto: Commit, merge: Merge) {
    && |made| == |cs|
    && Line(onto, made)
    && forall k :: 0 <= k < |cs| ==>
         && |cs[k].parents| == 1
         && made[k].message == cs[k].message
         && merge(cs[k].parents[0], Under(onto, made, k), cs[k]) == Some(made[k].tree)
  }

  /** A replay that succeeds is a line of copies of every commit, in order, from the new head. */
  lemma {:induction false} ReplayedCopies(cs: seq<Commit>, onto: Commit, merge: Merge) returns (made: seq<Commit>)
    requires Replayed(cs, onto, merge).On?
    ensures Copies(cs, made, onto, merge) && Tip(onto, made) == Replayed(cs, onto, merge).head
    decreases |cs|
  {
    if cs == [] {
      return [];
    }
    var head := Commit([onto], merge(cs[0].parents[0], onto, cs[0]).value, cs[0].message);
    var rest := ReplayedCopies(cs[1..], head, merge);
    made := [head] + rest;
    forall k | 0 <= k < |cs|
      ensures |cs[k].parents| == 1 && made[k].message == cs[k].message
      ensures merge(cs[k].parents[0], Under(onto, made, k), cs[k]) == Some(made[k].tree)
      ensures made[k].parents == [Under(onto, made, k)]
    {
      if k > 0 {
        assert made[k] == rest[k - 1] && cs[k] == cs[1..][k - 1];
        assert Under(onto, made, k) == Under(head, rest, k - 1);
      }
    }
  }

  /** And only those are copies: what the replay made is determined by what was replayed. */
  lemma {:induction false} CopiesAreTheReplay(cs: seq<Commit>, made: seq<Commit>, onto: Commit, merge: Merge)
    requires Copies(cs, made, onto, merge)
    ensures Replayed(cs, onto, merge) == On(Tip(onto, made))
    decreases |cs|
  {
    if cs != [] {
      assert made[0].parents == [Under(onto, made, 0)];
      assert made[0] == Commit([onto], made[0].tree, cs[0].message);
      forall k | 0 <= k < |cs[1..]|
        ensures made[1..][k].parents == [Under(made[0], made[1..], k)]
        ensures merge(cs[1..][k].parents[0], Under(made[0], made[1..], k), cs[1..][k]) == Some(made[1..][k].tree)
      {
        assert made[1..][k] == made[k + 1] && cs[1..][k] == cs[k + 1];
        assert Under(made[0], made[1..], k) == Under(onto, made, k + 1);
      }
      assert |cs[0].parents| == 1 && merge(cs[0].parents[0], Under(onto, made, 0), cs[0]) == Some(made[0].tree);
      CopiesAreTheReplay(cs[1..], made[1..], made[0], merge);
    }
  }

  lemma IsItsOwn(c: Commit)
    ensures Ancestor(c, c)
  {
  }

  /** Everything the new head has stays: it is in the history of what the replay makes. */
  lemma ReplayIsOnTop(cs: seq<Commit>, onto: Commit, merge: Merge)
    requires Replayed(cs, onto, merge).On?
    ensures Ancestor(onto, Replayed(cs, onto, merge).head)
  {
    hide Replayed, Ancestor;
    var made := ReplayedCopies(cs, onto, merge);
    assert Ancestor(onto, onto) by { IsItsOwn(onto); }
    if made != [] {
      LineHasFrom(onto, made, |made| - 1);
    }
  }

  /** A merge or a root among the commits stops every replay. */
  lemma {:induction false} MergesStopIt(cs: seq<Commit>, onto: Commit, merge: Merge, c: Commit)
    requires c in cs && |c.parents| != 1
    ensures Replayed(cs, onto, merge).Stopped?
    decreases |cs|
  {
    if |cs[0].parents| == 1 && merge(cs[0].parents[0], onto, cs[0]).Some? {
      assert c in cs[1..];
      MergesStopIt(cs[1..], Commit([onto], merge(cs[0].parents[0], onto, cs[0]).value, cs[0].message), merge, c);
    }
  }

  /** Asked again for its own result - the move that followed it lost - a replay onto the same head finds that head is the
      merge base, and leaves the work as it is. */
  lemma ASecondReplayChangesNothing(cs: seq<Commit>, onto: Commit, merge: Merge, base: Commit)
    requires Replayed(cs, onto, merge).On? && IsMergeBase(base, onto, Replayed(cs, onto, merge).head)
    ensures base == onto
  {
    ReplayIsOnTop(cs, onto, merge);
    assert Ancestor(onto, onto);
  }
}
