/** Commits and the one remote branch a delivery pushes to. A commit is its content, as its name is: two commits with
    the same parents, tree and message are one. */
module Git {
  import opened Base

  datatype Commit = Commit(parents: seq<Commit>, tree: string, message: string)

  /** `a` is an ancestor of `c`, or `c` itself. */
  ghost predicate Ancestor(a: Commit, c: Commit) {
    a == c || exists p :: p in c.parents && Ancestor(a, p)
  }

  lemma {:induction false} AncestorIsTransitive(a: Commit, b: Commit, c: Commit)
    requires Ancestor(a, b) && Ancestor(b, c)
    ensures Ancestor(a, c)
    decreases c
  {
    if b != c {
      var p :| p in c.parents && Ancestor(b, p);
      AncestorIsTransitive(a, b, p);
    }
  }

  function Weight(c: Commit): (w: nat)
    ensures w > 0
  {
    1 + Heaviest(c.parents)
  }

  function Heaviest(cs: seq<Commit>): (w: nat)
    ensures forall c :: c in cs ==> Weight(c) <= w
  {
    if cs == [] then 0 else var rest := Heaviest(cs[1..]); if Weight(cs[0]) > rest then Weight(cs[0]) else rest
  }

  /** History has no cycles: only a commit is both before and after it. */
  lemma {:induction false} AncestorIsLighter(a: Commit, c: Commit)
    requires Ancestor(a, c)
    ensures a == c || Weight(a) < Weight(c)
    decreases c
  {
    if a != c {
      var p :| p in c.parents && Ancestor(a, p);
      AncestorIsLighter(a, p);
    }
  }

  lemma AncestorIsAntisymmetric(a: Commit, b: Commit)
    requires Ancestor(a, b) && Ancestor(b, a)
    ensures a == b
  {
    AncestorIsLighter(a, b);
    AncestorIsLighter(b, a);
  }

  /** A leased push: the branch moves to `head` only from `lease`, the commit it was last seen at, or none for a branch
      that must not exist. */
  function Pushed(remote: Option<Commit>, head: Commit, lease: Option<Commit>): Option<Commit> {
    if remote == lease then Some(head) else remote
  }
}
