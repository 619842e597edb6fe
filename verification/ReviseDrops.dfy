/** What the checks of a revision's push do not cover: the head the operator read is kept, the push it was replayed onto
    need not be. A session that runs after a replay may rewrite its work without their commits, and the lease, pinned to
    their head, lets that work replace it. */
module ReviseDrops {
  import opened Base
  import Git
  import opened Work
  import opened Revise

  function Met(left: Checkout, dirty: bool): Input {
    Input(finished := true, left := left, base := left.head, dirty := dirty, passes := true, from := 0, denied := false,
          roundsLeft := true, now := 0, unfinished := false, replay := None, onward := Wait)
  }

  /** Work replayed onto `theirs`, which the branch is at, waiting for the gate. */
  ghost predicate JustReplayed(w: World, theirs: Commit) {
    && w.state.Gating? && w.effect.None? && w.remote == Some(theirs)
    && w.p.Some? && w.ws.Some? && w.p.value.read == w.read
    && var p := w.p.value;
       && p.work.pushed == Some(theirs) && p.work.correction.None?
       && !w.ws.value.switched && Git.Ancestor(w.read, w.ws.value.head) && !Git.Ancestor(w.ws.value.head, theirs)
  }

  /** The gate fails, and the work goes back to its session. */
  lemma GateFails(b: Bounds, w: World, theirs: Commit, i: Input)
    requires JustReplayed(w, theirs) && i.dirty && w.p.value.work.attempts + 1 < b.gate
    ensures Enabled(b, w, Transition(i))
    ensures var v := Revise.Next(b, w, Transition(i));
            && v.read == w.read && v.state.Revising? && v.effect.None? && v.remote == w.remote && v.ws == w.ws
            && v.p == Some(w.p.value.(work := w.p.value.work.(attempts := w.p.value.work.attempts + 1, failing := true)))
  {
    WrittenOne(w, Save(w.p.value.(work := w.p.value.work.(attempts := w.p.value.work.attempts + 1, failing := true))));
  }

  lemma SessionRewrites(b: Bounds, w: World, i: Input)
    requires w.state.Revising? && w.effect.None? && Usable(w) && w.p.value.work.correction.None? && i.finished
    ensures Enabled(b, w, Transition(i))
    ensures var v := Revise.Next(b, w, Transition(i));
            v.read == w.read && v.state.Gating? && v.effect.None? && v.remote == w.remote && v.ws == Some(i.left) && v.p == w.p
  {
    var writes := [Leave(i.left), Save(w.p.value)];
    assert Decide(b, w, i).writes == writes;
    assert writes[1..] == [Save(w.p.value)];
    WrittenOne(Wrote(w, Leave(i.left)), Save(w.p.value));
  }

  lemma GatePasses(b: Bounds, w: World, i: Input)
    requires w.state.Gating? && w.effect.None? && Usable(w) && w.p.value.work.correction.None? && w.p.value.work.pushed.Some?
    requires w.p.value.read == w.read && Git.Ancestor(w.read, w.ws.value.head) && !Git.Ancestor(w.ws.value.head, w.p.value.work.pushed.value)
    requires !i.dirty && i.passes
    ensures Enabled(b, w, Transition(i))
    ensures var v := Revise.Next(b, w, Transition(i));
            && v.read == w.read && v.state.Pushing? && v.effect.None? && v.remote == w.remote && v.ws == w.ws
            && v.p == Some(w.p.value.(work := w.p.value.work.(failing := false)))
  {
    WrittenOne(w, Save(w.p.value.(work := w.p.value.work.(failing := false))));
  }

  lemma PushLands(b: Bounds, w: World, i: Input)
    requires w.state.Pushing? && w.effect.None? && Usable(w) && w.p.value.work.correction.None? && w.remote == w.p.value.work.pushed
    requires w.p.value.read == w.read && Git.Ancestor(w.read, w.ws.value.head) && !i.denied && i.roundsLeft
    ensures Enabled(b, w, Transition(i))
    ensures var v := Revise.Next(b, w, Transition(i));
            && Enabled(b, v, Perform)
            && var u := Revise.Next(b, v, Perform);
               && u.read == w.read && u.state.Pushed? && u.effect.None? && u.remote == Some(w.ws.value.head) && u.ws == w.ws
               && u.p == Some(w.p.value.(work := w.p.value.work.(head := Some(w.ws.value.head))))
  {
    WrittenOne(w, Save(w.p.value.(work := w.p.value.work.(head := Some(w.ws.value.head)))));
  }

  lemma Before(b: Bounds, w: World, s: Event, rest: seq<Event>)
    requires Enabled(b, w, s) && Runs(b, Revise.Next(b, w, s), rest)
    ensures Runs(b, w, [s] + rest)
    ensures After(b, w, [s] + rest) == After(b, Revise.Next(b, w, s), rest)
  {
    assert ([s] + rest)[0] == s && ([s] + rest)[1..] == rest;
  }

  /** From every such world, and for every rewriting of the work on top of the head that was read, a run of the agent's
      alone leaves the branch at it: without the commits it was replayed onto, if they are not in it. */
  lemma TheirsMayBeDropped(b: Bounds, w: World, theirs: Commit, other: Commit) returns (steps: seq<Event>)
    requires JustReplayed(w, theirs) && w.p.value.work.attempts + 1 < b.gate
    requires Git.Ancestor(w.read, other) && !Git.Ancestor(other, theirs) && !Git.Ancestor(theirs, other)
    ensures forall s :: s in steps ==> s.Transition? || s.Perform?
    ensures Runs(b, w, steps)
    ensures After(b, w, steps).remote == Some(other)
  {
    var fail, pass := Met(Checkout(false, other), true), Met(Checkout(false, other), false);
    GateFails(b, w, theirs, fail);
    var w1 := Revise.Next(b, w, Transition(fail));
    SessionRewrites(b, w1, pass);
    var w2 := Revise.Next(b, w1, Transition(pass));
    GatePasses(b, w2, pass);
    var w3 := Revise.Next(b, w2, Transition(pass));
    PushLands(b, w3, pass);
    var w4 := Revise.Next(b, w3, Transition(pass));
    hide Enabled, Revise.Next;
    assert Runs(b, Revise.Next(b, w4, Perform), []);
    Before(b, w4, Perform, []);
    Before(b, w3, Transition(pass), [Perform]);
    Before(b, w2, Transition(pass), [Transition(pass)] + [Perform]);
    Before(b, w1, Transition(pass), [Transition(pass)] + ([Transition(pass)] + [Perform]));
    Before(b, w, Transition(fail), [Transition(pass)] + ([Transition(pass)] + ([Transition(pass)] + [Perform])));
    assert [Perform] + [] == [Perform];
    steps := [Transition(fail)] + ([Transition(pass)] + ([Transition(pass)] + ([Transition(pass)] + [Perform])));
  }

  // ---- And where the gate may not fail ----

  lemma ReadsBack(b: Bounds, w: World, i: Input)
    requires w.state.Pushed? && w.effect.None? && w.p.Some? && w.remote == w.p.value.work.head && w.p.value.work.pushed != w.remote && !i.unfinished
    ensures Enabled(b, w, Transition(i))
    ensures var v := Revise.Next(b, w, Transition(i));
            && v.read == w.read && v.state.Delivered? && v.effect.None? && v.remote == w.remote && v.ws == w.ws
            && v.p == Some(w.p.value.(work := w.p.value.work.(pushed := w.remote, pushedAt := i.now)))
  {
    WrittenOne(w, Save(w.p.value.(work := w.p.value.work.(pushed := w.remote, pushedAt := i.now))));
  }

  lemma CIIsRed(b: Bounds, w: World, i: Input)
    requires w.state.Delivered? && w.effect.None? && w.p.Some? && w.p.value.work.correction.None? && i.onward.Red?
    ensures Enabled(b, w, Transition(i))
    ensures var v := Revise.Next(b, w, Transition(i));
            && v.read == w.read && v.state.Revising? && v.effect.None? && v.remote == w.remote && v.ws == w.ws
            && v.p == Some(w.p.value.(work := w.p.value.work.(attempts := 0, failing := true)))
  {
    WrittenOne(w, Save(w.p.value.(work := w.p.value.work.(attempts := 0, failing := true))));
  }

  /** However few attempts the gate has, the work may be pushed on top of theirs, found red, and rewritten without them:
      the lease is the agent's own push by then, and only the head that was read is kept. */
  lemma TheirsMayBeDroppedLater(b: Bounds, w: World, theirs: Commit, other: Commit) returns (steps: seq<Event>)
    requires JustReplayed(w, theirs) && Git.Ancestor(w.read, other)
    requires !Git.Ancestor(other, w.ws.value.head)
    ensures forall s :: s in steps ==> s.Transition? || s.Perform?
    ensures Runs(b, w, steps)
    ensures After(b, w, steps).remote == Some(other)
  {
    var pass := Met(Checkout(false, other), false);
    var red := pass.(onward := Onward.Red);
    var go := Transition(pass);
    GatePasses(b, w, pass);
    var w1 := Revise.Next(b, w, go);
    PushLands(b, w1, pass);
    var w2 := Revise.Next(b, w1, go);
    var w3 := Revise.Next(b, w2, Perform);
    ReadsBack(b, w3, pass);
    var w4 := Revise.Next(b, w3, go);
    CIIsRed(b, w4, red);
    var w5 := Revise.Next(b, w4, Transition(red));
    SessionRewrites(b, w5, pass);
    var w6 := Revise.Next(b, w5, go);
    GatePasses(b, w6, pass);
    var w7 := Revise.Next(b, w6, go);
    PushLands(b, w7, pass);
    var w8 := Revise.Next(b, w7, go);
    hide Enabled, Revise.Next;
    assert Runs(b, Revise.Next(b, w8, Perform), []);
    assert [Perform] + [] == [Perform];
    Before(b, w8, Perform, []);
    Before(b, w7, go, [Perform]);
    Before(b, w6, go, [go] + [Perform]);
    Before(b, w5, go, [go] + ([go] + [Perform]));
    Before(b, w4, Transition(red), [go] + ([go] + ([go] + [Perform])));
    Before(b, w3, go, [Transition(red)] + ([go] + ([go] + ([go] + [Perform]))));
    Before(b, w2, Perform, [go] + ([Transition(red)] + ([go] + ([go] + ([go] + [Perform])))));
    Before(b, w1, go, [Perform] + ([go] + ([Transition(red)] + ([go] + ([go] + ([go] + [Perform]))))));
    Before(b, w, go, [go] + ([Perform] + ([go] + ([Transition(red)] + ([go] + ([go] + ([go] + [Perform])))))));
    steps := [go] + ([go] + ([Perform] + ([go] + ([Transition(red)] + ([go] + ([go] + ([go] + [Perform])))))));
  }

  // ---- How work comes to be replayed ----

  function On(parent: Commit, message: string): Commit {
    Git.Commit([parent], "", message)
  }

  lemma OnIsNew(parent: Commit, message: string)
    ensures Git.Ancestor(parent, On(parent, message)) && !Git.Ancestor(On(parent, message), parent)
    ensures forall c :: Git.Ancestor(c, On(parent, message)) <==> c == On(parent, message) || Git.Ancestor(c, parent)
  {
    var child := On(parent, message);
    assert parent in child.parents;
    if Git.Ancestor(child, parent) {
      Git.AncestorIsLighter(child, parent);
      Git.AncestorIsLighter(parent, child);
    }
  }

  /** Two pieces of work on one head are neither in the other's history. */
  lemma Siblings(parent: Commit, one: string, two: string)
    requires one != two
    ensures !Git.Ancestor(On(parent, one), On(parent, two))
  {
    OnIsNew(parent, one);
    OnIsNew(parent, two);
  }

  lemma Claimed(b: Bounds, w: World, i: Input)
    requires Init(w)
    ensures Enabled(b, w, Transition(i))
    ensures var v := Revise.Next(b, w, Transition(i));
            v.read == w.read && v.state.Revising? && v.effect.None? && v.remote == w.remote && v.p.None?
  {
    WrittenOne(w, Clear);
  }

  lemma WrittenFirst(w: World, a: Write, rest: seq<Write>)
    ensures Written(w, [a] + rest) == Written(Wrote(w, a), rest)
  {
    assert ([a] + rest)[1..] == rest;
  }

  lemma SessionBegins(b: Bounds, w: World, i: Input)
    requires w.state.Revising? && w.effect.None? && w.p.None? && w.remote == Some(w.read) && i.finished && i.left.head == i.base
    ensures Enabled(b, w, Transition(i))
    ensures var v := Revise.Next(b, w, Transition(i));
            && v.read == w.read && v.state.Gating? && v.effect.None? && v.remote == w.remote && v.ws == Some(i.left)
            && v.p == Some(NewRevision(w.read, i.base))
  {
    var p := NewRevision(w.read, i.base);
    var writes := [Clear] + [Fresh(w.read), Save(p), Leave(i.left), Save(p)];
    assert Git.Ancestor(w.read, w.read);
    assert [Clear, Fresh(w.read), Save(p)] + [Leave(i.left), Save(p)] == writes;
    assert Decide(b, w, i) == Decision(writes, Gating, None);
    WrittenFirst(w, Clear, [Fresh(w.read), Save(p), Leave(i.left), Save(p)]);
    var w1 := Wrote(w, Clear);
    WrittenFirst(w1, Fresh(w.read), [Save(p), Leave(i.left), Save(p)]);
    var w2 := Wrote(w1, Fresh(w.read));
    WrittenFirst(w2, Save(p), [Leave(i.left), Save(p)]);
    var w3 := Wrote(w2, Save(p));
    WrittenFirst(w3, Leave(i.left), [Save(p)]);
    WrittenOne(Wrote(w3, Leave(i.left)), Save(p));
  }

  /** The push decided, someone else pushes first, and the lease refuses it. */
  lemma PushIsRefused(b: Bounds, w: World, i: Input, theirs: Commit)
    requires w.state.Pushing? && w.effect.None? && Usable(w) && w.p.value.work.correction.None?
    requires w.p.value.read == w.read && Git.Ancestor(w.read, w.ws.value.head) && !i.denied && i.roundsLeft
    requires w.p.value.work.pushed != Some(theirs)
    ensures Enabled(b, w, Transition(i))
    ensures var v := Revise.Next(b, w, Transition(i));
            && Enabled(b, v, Foreign(Some(theirs)))
            && var f := Revise.Next(b, v, Foreign(Some(theirs)));
               && Enabled(b, f, Perform)
               && var u := Revise.Next(b, f, Perform);
                  && u.read == w.read && u.state.Pushed? && u.effect.None? && u.remote == Some(theirs) && u.ws == w.ws
                  && u.p == Some(w.p.value.(work := w.p.value.work.(head := Some(w.ws.value.head))))
  {
    WrittenOne(w, Save(w.p.value.(work := w.p.value.work.(head := Some(w.ws.value.head)))));
  }

  lemma FoundElsewhere(b: Bounds, w: World, i: Input)
    requires w.state.Pushed? && w.effect.None? && w.p.Some? && w.remote.Some? && w.p.value.work.correction.None?
    requires w.p.value.work.pushed != w.p.value.work.head && w.remote != w.p.value.work.head && w.remote != w.p.value.work.pushed
    ensures Enabled(b, w, Transition(i))
    ensures Revise.Next(b, w, Transition(i)) == w.(state := Replaying)
  {
  }

  lemma Replays(b: Bounds, w: World, i: Input, theirs: Commit, head: Commit)
    requires w.state.Replaying? && w.effect.None? && Usable(w) && w.remote == Some(theirs) && w.p.value.read == w.read
    requires w.p.value.work.correction.None? && w.p.value.work.head.Some? && !Git.Ancestor(w.p.value.work.head.value, theirs)
    requires w.p.value.work.pushed == Some(w.read) && w.read != theirs && Git.Ancestor(w.read, theirs) && w.p.value.replays < b.replays
    requires i.replay == Some(head) && Git.Ancestor(theirs, head) && !Git.Ancestor(head, theirs)
    ensures Enabled(b, w, Transition(i))
    ensures var v := Revise.Next(b, w, Transition(i)); JustReplayed(v, theirs) && v.read == w.read && v.ws.value.head == head
                                                       && v.p.value.work.attempts == w.p.value.work.attempts
  {
    var p := w.p.value;
    var q := p.(work := p.work.(pushed := Some(theirs)), replays := p.replays + 1);
    assert Decide(b, w, i) == Decision([Save(q)] + [OnTop(head)], Gating, None);
    assert ([Save(q)] + [OnTop(head)])[1..] == [OnTop(head)];
    WrittenOne(Wrote(w, Save(q)), OnTop(head));
    Git.AncestorIsTransitive(w.read, theirs, head);
  }

  /** From a job nobody has claimed, with someone else pushing while the revision runs, to work just replayed onto their
      push. */
  lemma WorkIsReplayed(b: Bounds, w: World) returns (steps: seq<Event>, theirs: Commit)
    requires Init(w) && w.remote == Some(w.read) && b.replays >= 1
    ensures theirs == On(w.read, "theirs") && Foreign(Some(theirs)) in steps
    ensures Runs(b, w, steps)
    ensures var v := After(b, w, steps);
            JustReplayed(v, theirs) && v.read == w.read && v.ws.value.head == On(theirs, "work") && v.p.value.work.attempts == 0
  {
    theirs := On(w.read, "theirs");
    var work := On(w.read, "work");
    OnIsNew(w.read, "theirs");
    OnIsNew(w.read, "work");
    OnIsNew(theirs, "work");
    Siblings(w.read, "work", "theirs");
    var pass := Met(Checkout(false, work), false);
    var replay := pass.(replay := Some(On(theirs, "work")));
    var go, foreign, last := Transition(pass), Foreign(Some(theirs)), Transition(replay);
    Claimed(b, w, pass);
    var w1 := Revise.Next(b, w, go);
    SessionBegins(b, w1, pass);
    var w2 := Revise.Next(b, w1, go);
    GatePasses(b, w2, pass);
    var w3 := Revise.Next(b, w2, go);
    PushIsRefused(b, w3, pass, theirs);
    var w4 := Revise.Next(b, w3, go);
    var w5 := Revise.Next(b, w4, foreign);
    var w6 := Revise.Next(b, w5, Perform);
    FoundElsewhere(b, w6, pass);
    var w7 := Revise.Next(b, w6, go);
    Replays(b, w7, replay, theirs, On(theirs, "work"));
    hide Enabled, Revise.Next, Git.Ancestor;
    assert Runs(b, Revise.Next(b, w7, last), []);
    assert [last] + [] == [last];
    Before(b, w7, last, []);
    Before(b, w6, go, [last]);
    Before(b, w5, Perform, [go] + [last]);
    Before(b, w4, foreign, [Perform] + ([go] + [last]));
    Before(b, w3, go, [foreign] + ([Perform] + ([go] + [last])));
    Before(b, w2, go, [go] + ([foreign] + ([Perform] + ([go] + [last]))));
    Before(b, w1, go, [go] + ([go] + ([foreign] + ([Perform] + ([go] + [last])))));
    Before(b, w, go, [go] + ([go] + ([go] + ([foreign] + ([Perform] + ([go] + [last]))))));
    steps := [go] + ([go] + ([go] + ([go] + ([foreign] + ([Perform] + ([go] + [last]))))));
    assert foreign in steps;
  }

  /** Whatever the bounds that allow a replay at all, there is such a delivery: someone pushes while the revision runs, the
      work is replayed onto their push, and the agent alone, with nobody pushing again, leaves the branch without it. */
  lemma TheAgentMayDropThem(b: Bounds, w: World) returns (front: seq<Event>, back: seq<Event>, theirs: Commit)
    requires Init(w) && w.remote == Some(w.read) && b.replays >= 1
    ensures Runs(b, w, front) && Foreign(Some(theirs)) in front && After(b, w, front).remote == Some(theirs)
    ensures forall s :: s in back ==> s.Transition? || s.Perform?
    ensures Runs(b, After(b, w, front), back)
    ensures var v := After(b, After(b, w, front), back); v.remote.Some? && !Git.Ancestor(theirs, v.remote.value)
  {
    front, theirs := WorkIsReplayed(b, w);
    var v := After(b, w, front);
    var other := On(w.read, "other");
    OnIsNew(w.read, "other");
    OnIsNew(w.read, "theirs");
    OnIsNew(theirs, "work");
    Siblings(w.read, "theirs", "other");
    Siblings(w.read, "other", "theirs");
    assert other != On(theirs, "work");
    back := TheirsMayBeDroppedLater(b, v, theirs, other);
  }
}
