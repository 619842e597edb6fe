/** Why each stray counts: the next session begins the workspace afresh, its counts with it, and nothing counts how often.
    A run of strays checks its gate any number of times, whatever the bounds, through a gate that fails or through a cut. */
module GateUnbounded {
  import opened Base
  import Git
  import opened Work
  import opened Delivery
  import opened GateBound
  import opened GateClaims

  const START := Git.Commit([], "", "")
  const WORK := Git.Commit([START], "", "")

  /** The next session begins a workspace afresh, as Run has it. */
  predicate BeginsAfresh(d: Decision, base: Commit) {
    |d.writes| > 4 && d.writes[..4] == [DropWorkspace, DropProgress, Fresh(base), Save(NewProgress(base))]
  }

  lemma Session(b: Bounds, w: World, i: Input)
    requires w.state.Implementing? && Afresh(w) && !i.session.NoCandidate? && (w.p.None? ==> !i.prOpen)
    ensures BeginsAfresh(Decide(b, w, i), i.base)
  {
    assert Run(w, i).writes[..4] == [DropWorkspace, DropProgress, Fresh(i.base), Save(NewProgress(i.base))];
  }

  lemma StrayLeaves(b: Bounds, w: World, i: Input)
    requires IsStray(w, i) && w.effect.None?
    ensures Enabled(b, w, Transition(i))
    ensures var v := Delivery.Next(b, w, Transition(i));
            && Afresh(v) && v.effect.None? && v.killed == w.killed && v.checks == w.checks && v.p.Some?
            && (v.state.Implementing? || v.state.Deferred?)
  {
    var start := if Usable(w) then [] else [DropWorkspace, DropProgress, Fresh(i.base), Save(NewProgress(i.base))];
    var p := if Usable(w) then w.p.value else NewProgress(i.base);
    var w1 := Written(w, start);
    if !Usable(w) {
      StartBegins(w, i.base);
      WrittenKeepsEffect(w, start);
      WrittenKeepsKilled(w, start);
    }
    WrittenBoth(w, start, [Leave(i.left), Save(p)]);
    WrittenTwo(w1, Leave(i.left), Save(p));
    var to := if i.session.defers then Deferred else Implementing;
    assert Decide(b, w, i) == Decision(start + [Leave(i.left), Save(p)], to, None, []);
  }

  lemma {:induction false} WrittenKeepsEffect(w: World, writes: seq<Write>)
    ensures Written(w, writes).effect == w.effect
    decreases |writes|
  {
    if writes != [] {
      WrittenKeepsEffect(Wrote(w, writes[0]), writes[1..]);
    }
  }

  /** Every stray is one workspace more: whatever the next session is, once the wait it may be put off for is over, it
      begins one afresh. */
  lemma AStrayBeginsAfresh(b: Bounds, w: World, i: Input, wait: Input, next: Input)
    requires IsStray(w, i) && w.effect.None? && !next.session.NoCandidate?
    ensures Enabled(b, w, Transition(i))
    ensures var v := Delivery.Next(b, w, Transition(i));
            && (v.state.Implementing? ==> BeginsAfresh(Decide(b, v, next), next.base))
            && (v.state.Deferred? ==> Enabled(b, v, Transition(wait))
                                      && BeginsAfresh(Decide(b, Delivery.Next(b, v, Transition(wait)), next), next.base))
  {
    StrayLeaves(b, w, i);
    var v := Delivery.Next(b, w, Transition(i));
    if v.state.Implementing? {
      Session(b, v, next);
    } else {
      Resumes(b, v, wait);
      Session(b, Delivery.Next(b, v, Transition(wait)), next);
    }
  }

  lemma Resumes(b: Bounds, w: World, i: Input)
    requires w.state.Deferred? && Afresh(w) && w.effect.None?
    ensures Enabled(b, w, Transition(i))
    ensures var v := Delivery.Next(b, w, Transition(i));
            v == w.(state := Implementing) && Afresh(v)
  {
  }

  // ---- A run of strays ----

  function Met(session: SessionEnd, left: Checkout, passes: bool, oversize: bool): Input {
    Input(prOpen := false, now := 0, session := session, left := left, base := START, dirty := !passes, passes := passes, gaps := false,
          from := 0, denied := false, oversize := oversize, keep := Whole, roundsLeft := true, unfinished := false, tooBig := false,
          runs := [], required := [], late := false, review := Waiting, labelled := false, settled := false)
  }

  const WORKS := Transition(Met(Finished, Checkout(false, WORK), false, false))
  const FAILS := WORKS
  const PASSES := Transition(Met(Finished, Checkout(false, WORK), true, false))
  const CUTS := Transition(Met(Finished, Checkout(false, WORK), true, true))
  const KEEPS := Transition(CUTS.i.(keep := WholeAgain))
  const STRAYS := Transition(Met(Transient(false), Checkout(true, START), false, false))

  /** Nothing is killed or lost, nothing deferred, and nobody else touches the branch; and work is too large only for a
      `cut`. */
  predicate Undisturbed(s: Event, cut: bool) {
    s.Perform? || (s.Transition? && !s.i.session.NoCandidate? && s.i.session != Transient(true) && (s.i.oversize ==> cut))
  }

  /** Ready to begin afresh, and undisturbed so far. */
  predicate Ready(w: World) {
    w.state.Implementing? && w.effect.None? && !w.killed && Afresh(w)
  }

  predicate Begun(w: World, state: State) {
    w.state == state && w.effect.None? && !w.killed && w.ws == Some(Checkout(false, WORK)) && w.p.Some? && w.p.value.pushed.None?
  }

  lemma SessionBegins(b: Bounds, w: World)
    requires Ready(w)
    ensures Enabled(b, w, WORKS)
    ensures var v := Delivery.Next(b, w, WORKS); Begun(v, Gating) && v.checks == w.checks && v.p == Some(NewProgress(START))
  {
    var start := [DropWorkspace, DropProgress, Fresh(START), Save(NewProgress(START))];
    var rest := [Leave(Checkout(false, WORK)), Save(Given(NewProgress(START)))];
    StartBegins(w, START);
    WrittenBoth(w, start, rest);
    WrittenTwo(Written(w, start), rest[0], rest[1]);
    WrittenKeepsKilled(w, start);
    assert Decide(b, w, WORKS.i) == Decision(start + rest, Gating, None, []);
  }

  lemma WorkIsNew()
    ensures Work.Made(NewProgress(START), Checkout(false, WORK))
  {
    if Git.Ancestor(WORK, START) {
      Git.AncestorIsLighter(WORK, START);
    }
  }

  lemma GateFails(b: Bounds, w: World)
    requires b.gate >= 2 && Begun(w, Gating) && w.p == Some(NewProgress(START))
    ensures Enabled(b, w, FAILS)
    ensures var v := Delivery.Next(b, w, FAILS); Begun(v, Implementing) && v.checks == w.checks + 1
  {
    var q := NewProgress(START).(attempts := 1, failing := true);
    WorkIsNew();
    assert Checked(NewProgress(START), w.ws.value, true, false, b.gate) == (Failing, q);
    assert Decide(b, w, FAILS.i) == Decision([Save(q)], Implementing, None, [GateChecked]);
    SawOne(w, GateChecked);
    WrittenOne(Saw(w, GateChecked), Save(q));
  }

  lemma GatePasses(b: Bounds, w: World)
    requires Begun(w, Gating) && w.p == Some(NewProgress(START))
    ensures Enabled(b, w, PASSES)
    ensures var v := Delivery.Next(b, w, PASSES); Begun(v, Pushing) && v.checks == w.checks + 1 && v.p == w.p
  {
    var q := NewProgress(START);
    WorkIsNew();
    assert Checked(q, w.ws.value, false, true, b.gate) == (Passed, q);
    assert Decide(b, w, PASSES.i) == Decision([Save(q)], Pushing, None, [GateChecked]);
    SawOne(w, GateChecked);
    WrittenOne(Saw(w, GateChecked), Save(q));
  }

  /** Work over the signal is pushed whole to a branch of its own, which the remote does not have yet. */
  lemma WholeIsPushed(b: Bounds, w: World)
    requires Begun(w, Pushing) && w.p == Some(NewProgress(START))
    ensures Enabled(b, w, KEEPS)
    ensures var v := Delivery.Next(b, w, KEEPS);
            Enabled(b, v, Perform) && Delivery.Next(b, v, Perform) == w
  {
    assert Decide(b, w, KEEPS.i) == Decision([], Pushing, Some(Other), []);
  }

  /** And seen there, it is cut. */
  lemma WorkIsCut(b: Bounds, w: World)
    requires Begun(w, Pushing) && w.p == Some(NewProgress(START))
    ensures Enabled(b, w, CUTS)
    ensures var v := Delivery.Next(b, w, CUTS); Begun(v, Implementing) && v.checks == w.checks
  {
    var q := NewProgress(START).(cut := true, cutting := true, attempts := 0);
    assert Decide(b, w, CUTS.i) == Decision([Save(q)], Implementing, None, []);
    WrittenOne(w, Save(q));
  }

  lemma SessionStrays(b: Bounds, w: World)
    requires Begun(w, Implementing)
    ensures Enabled(b, w, STRAYS)
    ensures var v := Delivery.Next(b, w, STRAYS); Ready(v) && v.checks == w.checks
  {
    StrayLeaves(b, w, STRAYS.i);
    assert Decide(b, w, STRAYS.i).to == Implementing;
  }

  lemma Before(b: Bounds, w: World, s: Event, rest: seq<Event>)
    requires Enabled(b, w, s) && Runs(b, Delivery.Next(b, w, s), rest)
    ensures Runs(b, w, [s] + rest)
    ensures After(b, w, [s] + rest) == After(b, Delivery.Next(b, w, s), rest)
  {
    assert ([s] + rest)[0] == s && ([s] + rest)[1..] == rest;
  }

  /** Once more, through a gate that fails, or through a cut where there is only one attempt to fail, or none. */
  lemma {:induction false} ChecksAgain(b: Bounds, w: World, n: nat, cut: bool) returns (steps: seq<Event>)
    requires Ready(w) && (cut || b.gate >= 2)
    ensures forall s :: s in steps ==> Undisturbed(s, cut)
    ensures Runs(b, w, steps)
    ensures !After(b, w, steps).killed && After(b, w, steps).checks == w.checks + n
    decreases n
  {
    if n == 0 {
      return [];
    }
    SessionBegins(b, w);
    var w1 := Delivery.Next(b, w, WORKS);
    var w2, check := ChecksOnce(b, w1, cut);
    SessionStrays(b, w2);
    var rest := ChecksAgain(b, Delivery.Next(b, w2, STRAYS), n - 1, cut);
    hide Delivery.Next, Enabled, Ready, Begun;
    Before(b, w2, STRAYS, rest);
    InTurn(b, w1, check, [STRAYS] + rest);
    Before(b, w, WORKS, check + ([STRAYS] + rest));
    steps := [WORKS] + (check + ([STRAYS] + rest));
  }

  lemma {:induction false} InTurn(b: Bounds, w: World, steps: seq<Event>, more: seq<Event>)
    requires Runs(b, w, steps) && Runs(b, After(b, w, steps), more)
    ensures Runs(b, w, steps + more) && After(b, w, steps + more) == After(b, After(b, w, steps), more)
    decreases |steps|
  {
    if steps == [] {
      assert steps + more == more;
    } else {
      assert (steps + more)[1..] == steps[1..] + more;
      InTurn(b, Delivery.Next(b, w, steps[0]), steps[1..], more);
    }
  }

  /** From the gate back to a session, with one check. */
  lemma ChecksOnce(b: Bounds, w: World, cut: bool) returns (v: World, steps: seq<Event>)
    requires Begun(w, Gating) && w.p == Some(NewProgress(START)) && (cut || b.gate >= 2)
    ensures forall s :: s in steps ==> Undisturbed(s, cut)
    ensures Runs(b, w, steps) && v == After(b, w, steps)
    ensures Begun(v, Implementing) && v.checks == w.checks + 1
  {
    if !cut {
      GateFails(b, w);
      v := Delivery.Next(b, w, FAILS);
      assert Runs(b, v, []);
      Before(b, w, FAILS, []);
      return v, [FAILS] + [];
    }
    GatePasses(b, w);
    var w1 := Delivery.Next(b, w, PASSES);
    WholeIsPushed(b, w1);
    var w2 := Delivery.Next(b, w1, KEEPS);
    WorkIsCut(b, w1);
    v := Delivery.Next(b, w1, CUTS);
    assert Delivery.Next(b, w2, Perform) == w1;
    hide Delivery.Next, Enabled, Begun;
    assert Runs(b, v, []);
    Before(b, w1, CUTS, []);
    Before(b, w2, Perform, [CUTS] + []);
    Before(b, w1, KEEPS, [Perform] + ([CUTS] + []));
    Before(b, w, PASSES, [KEEPS] + ([Perform] + ([CUTS] + [])));
    steps := [PASSES] + ([KEEPS] + ([Perform] + ([CUTS] + [])));
  }

  /** With no kill and no deferral there is a delivery, whatever the bounds, that checks its gate any number of times; and
      where the gate may fail more than once, one that is never cut. */
  lemma ChecksAreUnbounded(b: Bounds, w: World, n: nat, cut: bool) returns (steps: seq<Event>)
    requires Init(w) && (cut || b.gate >= 2)
    ensures forall s :: s in steps ==> Undisturbed(s, cut)
    ensures Runs(b, w, steps)
    ensures !After(b, w, steps).killed && After(b, w, steps).checks == n
  {
    var v := Delivery.Next(b, w, WORKS);
    WrittenTwo(w, DropWorkspace, DropProgress);
    assert Ready(v) && v.checks == 0;
    var rest := ChecksAgain(b, v, n, cut);
    Before(b, w, WORKS, rest);
    steps := [WORKS] + rest;
  }

  /** And a single stray is enough to lose the bound: from wherever it happens, the delivery may go on to check its gate
      any number of times more. */
  lemma AStrayUnbounds(b: Bounds, w: World, i: Input, n: nat) returns (steps: seq<Event>)
    requires IsStray(w, i) && w.effect.None? && !w.killed
    ensures Enabled(b, w, Transition(i)) && Runs(b, Delivery.Next(b, w, Transition(i)), steps)
    ensures var v := After(b, Delivery.Next(b, w, Transition(i)), steps); !v.killed && v.checks == w.checks + n
  {
    StrayLeaves(b, w, i);
    var v := Delivery.Next(b, w, Transition(i));
    if v.state.Implementing? {
      steps := ChecksAgain(b, v, n, true);
    } else {
      Resumes(b, v, i);
      var u := Delivery.Next(b, v, Transition(i));
      var rest := ChecksAgain(b, u, n, true);
      Before(b, v, Transition(i), rest);
      steps := [Transition(i)] + rest;
    }
  }
}
