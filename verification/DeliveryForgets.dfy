/** A correction's failure forgotten, from the job's claim on: its second push is denied, one kill falls between the
    workspace put back and the failure saved, and the job ends up at its session again with the correction running. */
module DeliveryForgets {
  import opened Base
  import Git
  import opened Correcting
  import opened Work
  import opened Delivery
  import opened DeliverySafety
  import DeliveryKills

  const START := Git.Commit([], "", "")
  const WORK := Git.Commit([START], "", "")
  const FIX := Git.Commit([WORK], "", "")

  const OPENS := DeliveryKills.Met(Checkout(false, WORK)).(prOpen := false, base := START)
  const GOES := DeliveryKills.Met(Checkout(false, WORK)).(review := Found(true))
  const FIXES := DeliveryKills.Met(Checkout(false, FIX))
  const DENIED := FIXES.(denied := true)

  const NEW := NewProgress(START)
  const SENT := NEW.(head := Some(WORK))
  const PUSHED := SENT.(pushed := Some(WORK), pushedAt := 0)
  const CORRECTING := Begin(PUSHED)
  const GIVEN := Given(CORRECTING)

  predicate Stands(w: World, state: State, p: Progress, head: Commit, remote: Option<Commit>) {
    w.state == state && w.effect.None? && w.p == Some(p) && w.ws == Some(Checkout(false, head)) && w.remote == remote
  }

  lemma Lineage()
    ensures Git.Ancestor(WORK, FIX) && !Git.Ancestor(FIX, WORK) && !Git.Ancestor(WORK, START)
  {
    assert WORK in FIX.parents;
    assert Git.Ancestor(WORK, WORK);
    if Git.Ancestor(FIX, WORK) {
      Git.AncestorIsLighter(FIX, WORK);
    }
    if Git.Ancestor(WORK, START) {
      Git.AncestorIsLighter(WORK, START);
    }
  }

  // ---- Each step ----

  lemma Claims(b: Bounds, w: World)
    requires Init(w)
    ensures Enabled(b, w, Transition(OPENS))
    ensures var v := Delivery.Next(b, w, Transition(OPENS)); v.state.Implementing? && v.effect.None? && v.p.None? && v.ws.None?
  {
    WrittenTwo(w, DropWorkspace, DropProgress);
  }

  lemma SessionBegins(b: Bounds, w: World)
    requires w.state.Implementing? && w.effect.None? && w.p.None? && w.ws.None?
    ensures Enabled(b, w, Transition(OPENS)) && Stands(Delivery.Next(b, w, Transition(OPENS)), Gating, NEW, WORK, None)
  {
    var front, start, rest := [DropWorkspace, DropProgress], [Fresh(START), Save(NEW)], [Leave(Checkout(false, WORK)), Save(NEW)];
    assert Given(NEW) == NEW;
    assert [DropWorkspace, DropProgress, Fresh(START), Save(NEW)] == front + start;
    assert Decide(b, w, OPENS) == Decision(front + start + rest, Gating, None, []);
    WrittenBoth(w, front + start, rest);
    WrittenBoth(w, front, start);
    WrittenTwo(w, DropWorkspace, DropProgress);
    WrittenTwo(Written(w, front), Fresh(START), Save(NEW));
    WrittenTwo(Written(w, front + start), rest[0], rest[1]);
  }

  lemma GatePasses(b: Bounds, w: World, p: Progress, head: Commit, remote: Option<Commit>, i: Input)
    requires Stands(w, Gating, p, head, remote) && !i.dirty && i.passes && !HasFailed(p.correction)
    requires !Git.Ancestor(head, Since(p)) && (Running(p.correction) ==> Git.Ancestor(p.correction.value.reviewed, head))
    ensures Enabled(b, w, Transition(i))
    ensures Stands(Delivery.Next(b, w, Transition(i)), Pushing, p.(failing := false), head, remote)
  {
    var q := p.(failing := false);
    assert Checked(p, w.ws.value, false, true, b.gate) == (Passed, q);
    assert Decide(b, w, i) == Decision([Save(q)], Pushing, None, [GateChecked]);
    SawOne(w, GateChecked);
    WrittenOne(Saw(w, GateChecked), Save(q));
  }

  lemma PushIsMade(b: Bounds, w: World)
    requires Stands(w, Pushing, NEW, WORK, None)
    ensures Enabled(b, w, Transition(OPENS))
    ensures var v := Delivery.Next(b, w, Transition(OPENS));
            Enabled(b, v, Perform) && Stands(Delivery.Next(b, v, Perform), Opening, SENT, WORK, Some(WORK))
  {
    assert Decide(b, w, OPENS) == Decision([Save(SENT)], Opening, Some(Push(WORK, None)), []);
    WrittenOne(w, Save(SENT));
  }

  lemma PullRequestIsOpened(b: Bounds, w: World)
    requires Stands(w, Opening, SENT, WORK, Some(WORK))
    ensures Enabled(b, w, Transition(OPENS))
    ensures var v := Delivery.Next(b, w, Transition(OPENS));
            Enabled(b, v, Perform) && Stands(Delivery.Next(b, v, Perform), Opening, PUSHED, WORK, Some(WORK))
  {
    assert Decide(b, w, OPENS) == Decision([Save(PUSHED)], Opening, Some(Other), []);
    WrittenOne(w, Save(PUSHED));
  }

  lemma PullRequestIsSeen(b: Bounds, w: World)
    requires Stands(w, Opening, PUSHED, WORK, Some(WORK))
    ensures Enabled(b, w, Transition(GOES)) && Stands(Delivery.Next(b, w, Transition(GOES)), Watching, PUSHED, WORK, Some(WORK))
  {
    assert Decide(b, w, GOES) == Decision([Save(PUSHED)], Watching, None, []);
    WrittenOne(w, Save(PUSHED));
  }

  lemma CIIsGreen(b: Bounds, w: World)
    requires Stands(w, Watching, PUSHED, WORK, Some(WORK))
    ensures Enabled(b, w, Transition(GOES)) && Stands(Delivery.Next(b, w, Transition(GOES)), Reviewing, PUSHED, WORK, Some(WORK))
  {
    assert DeliveryKills.GREEN[0] in DeliveryKills.GREEN && AllGreen(DeliveryKills.GREEN, []);
    assert Decide(b, w, GOES) == To(Reviewing).(facts := [Fact.Green(PUSHED.pushed)]);
    SawOne(w, Fact.Green(PUSHED.pushed));
  }

  lemma ReviewFinds(b: Bounds, w: World)
    requires Stands(w, Reviewing, PUSHED, WORK, Some(WORK))
    ensures Enabled(b, w, Transition(GOES)) && Stands(Delivery.Next(b, w, Transition(GOES)), Implementing, CORRECTING, WORK, Some(WORK))
  {
    var d := Decide(b, w, GOES);
    assert d == Decision([Save(CORRECTING)], Implementing, None, [Kept(w.remote), Reviewed(PUSHED.pushed)]);
    SawTwo(w, Kept(w.remote), Reviewed(PUSHED.pushed));
    WrittenOne(SawAll(w, d.facts), Save(CORRECTING));
  }

  lemma SessionCorrects(b: Bounds, w: World)
    requires Stands(w, Implementing, CORRECTING, WORK, Some(WORK))
    ensures Enabled(b, w, Transition(FIXES)) && Stands(Delivery.Next(b, w, Transition(FIXES)), Gating, GIVEN, FIX, Some(WORK))
  {
    var writes := [Leave(Checkout(false, FIX)), Save(GIVEN)];
    assert [] + writes == writes;
    assert Decide(b, w, FIXES) == Decision(writes, Gating, None, []);
    WrittenTwo(w, writes[0], writes[1]);
  }

  // ---- The run ----

  /** Nobody is killed, nothing is lost, and nobody else touches the branch. */
  predicate Undisturbed(steps: seq<Event>) {
    forall s :: s in steps ==> s.Transition? || s.Perform?
  }

  lemma {:induction false} Then(b: Bounds, w: World, steps: seq<Event>, s: Event)
    requires Runs(b, w, steps) && Enabled(b, After(b, w, steps), s)
    ensures Runs(b, w, steps + [s]) && After(b, w, steps + [s]) == Delivery.Next(b, After(b, w, steps), s)
    ensures Undisturbed(steps) && (s.Transition? || s.Perform?) ==> Undisturbed(steps + [s])
    decreases |steps|
  {
    if steps == [] {
      assert [s][1..] == [] && [] + [s] == [s];
    } else {
      assert (steps + [s])[1..] == steps[1..] + [s];
      Then(b, Delivery.Next(b, w, steps[0]), steps[1..], s);
    }
  }

  lemma WorkIsPushed(b: Bounds, w: World) returns (steps: seq<Event>)
    requires Init(w)
    ensures Undisturbed(steps) && Runs(b, w, steps) && Stands(After(b, w, steps), Opening, SENT, WORK, Some(WORK))
  {
    Lineage();
    assert NEW.(failing := false) == NEW && Undisturbed([]) && Runs(b, w, []) && After(b, w, []) == w;
    hide Enabled, Delivery.Next, Git.Ancestor, Runs, After, Undisturbed, Stands;
    var opens := Transition(OPENS);
    Claims(b, w);
    Then(b, w, [], opens);
    steps := [] + [opens];
    SessionBegins(b, After(b, w, steps));
    Then(b, w, steps, opens);
    steps := steps + [opens];
    GatePasses(b, After(b, w, steps), NEW, WORK, None, OPENS);
    Then(b, w, steps, opens);
    steps := steps + [opens];
    PushIsMade(b, After(b, w, steps));
    Then(b, w, steps, opens);
    steps := steps + [opens];
    Then(b, w, steps, Perform);
    steps := steps + [Perform];
  }

  lemma CorrectionIsBegun(b: Bounds, w: World) returns (steps: seq<Event>)
    requires Init(w)
    ensures Undisturbed(steps) && Runs(b, w, steps) && Stands(After(b, w, steps), Implementing, CORRECTING, WORK, Some(WORK))
  {
    steps := WorkIsPushed(b, w);
    hide Enabled, Delivery.Next, Git.Ancestor, Runs, After, Undisturbed, Stands;
    var opens, goes := Transition(OPENS), Transition(GOES);
    PullRequestIsOpened(b, After(b, w, steps));
    Then(b, w, steps, opens);
    steps := steps + [opens];
    Then(b, w, steps, Perform);
    steps := steps + [Perform];
    PullRequestIsSeen(b, After(b, w, steps));
    Then(b, w, steps, goes);
    steps := steps + [goes];
    CIIsGreen(b, After(b, w, steps));
    Then(b, w, steps, goes);
    steps := steps + [goes];
    ReviewFinds(b, After(b, w, steps));
    Then(b, w, steps, goes);
    steps := steps + [goes];
  }

  /** From a job nobody has claimed, with nobody else pushing, to a correction's push about to be denied. */
  lemma ACorrectionIsStopped(b: Bounds, w: World) returns (steps: seq<Event>)
    requires Init(w)
    ensures Undisturbed(steps) && Runs(b, w, steps)
    ensures var v := After(b, w, steps); Stands(v, Pushing, GIVEN, FIX, Some(WORK)) && DeliveryKills.PutsBack(Decide(b, v, DENIED))
  {
    Lineage();
    steps := CorrectionIsBegun(b, w);
    assert GIVEN.(failing := false) == GIVEN;
    hide Enabled, Delivery.Next, Git.Ancestor, Runs, After, Undisturbed, Stands;
    var fixes := Transition(FIXES);
    SessionCorrects(b, After(b, w, steps));
    Then(b, w, steps, fixes);
    steps := steps + [fixes];
    GatePasses(b, After(b, w, steps), GIVEN, FIX, Some(WORK), FIXES);
    Then(b, w, steps, fixes);
    steps := steps + [fixes];
    DeniedPutsBack(b, After(b, w, steps));
  }

  lemma DeniedPutsBack(b: Bounds, v: World)
    requires Stands(v, Pushing, GIVEN, FIX, Some(WORK))
    ensures DeliveryKills.PutsBack(Decide(b, v, DENIED))
  {
    Lineage();
    hide Git.Ancestor;
  }

  /** Whatever the bounds, from a job nobody has claimed and with one kill: the correction's push is denied, the kill falls
      between the workspace put back and the failure saved, and the job goes on, by itself, to its session again, the
      correction still running and the branch at the head it was made of. It was given to a session already, so the next
      one is not given it again. */
  lemma AFailureMayBeForgotten(b: Bounds, w: World) returns (front: seq<Event>, i: Input, back: seq<Event>)
    requires Init(w)
    ensures Undisturbed(front) && Undisturbed(back)
    ensures Runs(b, w, front) && DeliveryKills.PutsBack(Decide(b, After(b, w, front), i)) && Enabled(b, After(b, w, front), Killed(i, 1))
    ensures var u := Delivery.Next(b, After(b, w, front), Killed(i, 1));
            && Runs(b, u, back)
            && u.p.Some? && u.p.value.correction.Some?
            && var c := u.p.value.correction.value;
               && c.given && DeliveryKills.Underway(After(b, u, back), Implementing, c, c.reviewed)
  {
    front := ACorrectionIsStopped(b, w);
    i := DENIED;
    var v := After(b, w, front);
    DeliveryKills.AKillWithinAFailure(b, w, front, i, i);
    var u := Delivery.Next(b, v, Killed(i, 1));
    RunKeepsInv(b, w, front);
    StepKeepsInv(b, v, Killed(i, 1));
    DeliveryKills.PutBackIs(b, v, i);
    back := DeliveryKills.AKilledFailureMayStartAgain(b, u);
  }
}
