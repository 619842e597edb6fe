/** A correction that fails puts the workspace back before it is saved as failed. What a kill between the two leaves, and
    where the delivery goes from there. */
module DeliveryKills {
  import opened Base
  import Git
  import opened Correcting
  import opened Work
  import opened Delivery
  import opened DeliverySafety

  /** The decision fails correction `c`: the workspace back at the reviewed head, and then the failure saved. */
  predicate FailsIt(d: Decision, c: Correction) {
    && |d.writes| == 2 && d.writes[0] == Restore(c.reviewed)
    && d.writes[1].Save? && HasFailed(d.writes[1].p.correction) && d.writes[1].p.correction.value.reviewed == c.reviewed
  }

  /** Killed after the workspace was put back and before the failure was saved. */
  predicate HalfFailed(w: World) {
    && w.effect.None? && w.p.Some? && Running(w.p.value.correction)
    && w.ws == Some(Checkout(false, w.p.value.correction.value.reviewed))
  }

  predicate PutsBack(d: Decision) {
    |d.writes| > 0 && d.writes[0].Restore?
  }

  lemma FailurePutsBack(w: World, q: Progress, i: Input)
    requires Running(q.correction)
    ensures PutsBack(FailCorrection(w, q, i)) ==> w.ws.Some? && FailsIt(FailCorrection(w, q, i), q.correction.value)
    ensures !PutsBack(HandBackIssue()) && !PutsBack(HandBackPR()) && !PutsBack(HandBack(q, i)) && !PutsBack(Lost(i))
  {
  }

  lemma StopPutsBack(w: World, q: Progress, i: Input)
    ensures PutsBack(Stop(w, q, i)) ==> Running(q.correction) && w.ws.Some? && FailsIt(Stop(w, q, i), q.correction.value)
    ensures !PutsBack(HandBackIssue())
  {
    if Running(q.correction) {
      FailurePutsBack(w, q, i);
    }
  }

  lemma CheckedIsCorrecting(p: Progress, ws: Checkout, dirty: bool, passes: bool, bound: nat)
    ensures Checked(p, ws, dirty, passes, bound).1.correction == p.correction
  {
  }

  lemma GatePutsBack(b: Bounds, w: World, i: Input)
    requires PutsBack(RunGate(b, w, i))
    ensures w.p.Some? && w.ws.Some? && Running(w.p.value.correction) && FailsIt(RunGate(b, w, i), w.p.value.correction.value)
  {
    hide Stop, Checked, HandBackIssue, FailsIt;
    var p, ws := w.p.value, w.ws.value;
    var q := Checked(p, ws, i.dirty, i.passes, b.gate).1;
    StopPutsBack(w, p, i);
    StopPutsBack(w, q, i);
    CheckedIsCorrecting(p, ws, i.dirty, i.passes, b.gate);
    if RunGate(b, w, i).writes == Stop(w, q, i).writes {
      SameWrites(RunGate(b, w, i), Stop(w, q, i), p.correction);
    }
  }

  lemma SameWrites(d: Decision, e: Decision, c: Option<Correction>)
    requires d.writes == e.writes
    ensures PutsBack(d) <==> PutsBack(e)
    ensures c.Some? ==> (FailsIt(d, c.value) <==> FailsIt(e, c.value))
  {
  }

  lemma PushPutsBack(w: World, i: Input)
    requires PutsBack(RunPush(w, i))
    ensures w.p.Some? && w.ws.Some? && Running(w.p.value.correction) && FailsIt(RunPush(w, i), w.p.value.correction.value)
  {
    hide Stop, FailsIt;
    StopPutsBack(w, w.p.value, i);
  }

  lemma WatchPutsBack(b: Bounds, w: World, i: Input)
    requires PutsBack(RunWatch(b, w, i))
    ensures w.p.Some? && w.ws.Some? && Running(w.p.value.correction) && FailsIt(RunWatch(b, w, i), w.p.value.correction.value)
  {
    var p := w.p.value;
    var q := Watched(p, w.remote, i.runs, i.required, i.late, b.fixes).1;
    assert q.correction == p.correction;
    hide Watched, FailCorrection, FailsIt;
    if Running(p.correction) {
      FailurePutsBack(w, q, i);
    }
  }

  lemma OthersPutNothingBack(b: Bounds, w: World, i: Input)
    requires !w.state.Gating? && !w.state.Pushing? && !w.state.Watching?
    ensures !PutsBack(Decide(b, w, i))
  {
  }

  /** A decision puts a workspace back only to fail the correction under way, from the gate, the push or the watch. */
  lemma OnlyAFailurePutsBack(b: Bounds, w: World, i: Input)
    requires PutsBack(Decide(b, w, i))
    ensures w.state.Gating? || w.state.Pushing? || w.state.Watching?
    ensures w.p.Some? && w.ws.Some? && Running(w.p.value.correction)
    ensures FailsIt(Decide(b, w, i), w.p.value.correction.value)
  {
    hide RunGate, RunPush, RunWatch, FailsIt, PutsBack;
    if w.state.Gating? {
      GatePutsBack(b, w, i);
    } else if w.state.Pushing? {
      PushPutsBack(w, i);
    } else if w.state.Watching? {
      WatchPutsBack(b, w, i);
    } else {
      OthersPutNothingBack(b, w, i);
    }
  }

  lemma PutBackIs(b: Bounds, w: World, i: Input)
    requires w.effect.None? && PutsBack(Decide(b, w, i))
    ensures Enabled(b, w, Killed(i, 1)) && w.p.Some?
    ensures var u := Delivery.Next(b, w, Killed(i, 1)); HalfFailed(u) && u.p == w.p && u.state == w.state && u.remote == w.remote
  {
    OnlyAFailurePutsBack(b, w, i);
    var d := Decide(b, w, i);
    assert d.writes[..1] == [d.writes[0]];
    WrittenOne(SawAll(w, d.facts), d.writes[0]);
    SeenKeepsWork(w, d.facts);
    hide Decide;
  }

  lemma {:induction false} SeenKeepsWork(w: World, facts: seq<Fact>)
    ensures var v := SawAll(w, facts); v.p == w.p && v.state == w.state && v.remote == w.remote && v.effect == w.effect
    decreases |facts|
  {
    if facts != [] {
      SeenKeepsWork(Saw(w, facts[0]), facts[1..]);
    }
  }

  // ---- What each state makes of it ----

  /** At the gate the workspace has nothing the agent has not pushed, whatever is asked of it: it fails again. */
  lemma TheGateFailsAgain(b: Bounds, u: World, j: Input)
    requires Inv(u) && HalfFailed(u) && u.state.Gating?
    ensures FailsIt(Decide(b, u, j), u.p.value.correction.value)
  {
    assert Holds(u, u.p.value);
    var p, c := u.p.value, u.p.value.correction.value;
    assert Git.Ancestor(c.reviewed, c.reviewed);
    assert !Work.Made(p, u.ws.value);
    hide Git.Ancestor;
    assert Checked(p, u.ws.value, j.dirty, j.passes, b.gate) == (Empty, p);
    assert Decide(b, u, j) == FailCorrection(u, p, j).(facts := [GateChecked]);
  }

  /** The watch reads the remote, not the workspace: it goes on as it would have. */
  lemma TheWatchGoesOn(b: Bounds, u: World, ws: Option<Checkout>, j: Input)
    requires u.state.Watching? && u.ws.Some? && ws.Some?
    ensures Decide(b, u.(ws := ws), j) == Decide(b, u, j)
  {
    hide Watched;
  }

  /** And it fails the correction again exactly if CI still hands it back. */
  lemma TheWatchFailsAgainIf(b: Bounds, u: World, j: Input)
    requires HalfFailed(u) && u.state.Watching?
    ensures FailsIt(Decide(b, u, j), u.p.value.correction.value) <==>
              var ci := Watched(u.p.value, u.remote, j.runs, j.required, j.late, b.fixes).0;
              j.prOpen && (ci.Spent? || ci.Late? || ci.Approval?)
  {
    var p := u.p.value;
    var q := Watched(p, u.remote, j.runs, j.required, j.late, b.fixes).1;
    assert q.correction == p.correction;
    hide Watched;
  }

  /** The push sends what the workspace is at now: it fails the correction again exactly if the reviewed head itself may
      not be pushed or its rounds have run out, and otherwise pushes that head, with the correction still running. */
  lemma ThePushSendsTheReviewedHead(b: Bounds, u: World, j: Input)
    requires Inv(u) && HalfFailed(u) && u.state.Pushing?
    ensures var p, c := u.p.value, u.p.value.correction.value;
            var d := Decide(b, u, j);
            && p.pushed.Some?
            && (FailsIt(d, c) <==> j.denied || !j.roundsLeft)
            && (!FailsIt(d, c) ==> d == Decision([Save(p.(head := Some(c.reviewed)))], Opening, Some(Push(c.reviewed, p.pushed)), []))
  {
    assert Holds(u, u.p.value);
    var c := u.p.value.correction.value;
    assert Git.Ancestor(c.reviewed, c.reviewed);
    hide Git.Ancestor;
  }

  /** Over every run: a kill after a failing correction has put the workspace back, and before it is saved as failed, is met
      by the same state with the correction still running. The gate fails it again whatever it meets; the watch decides as
      if the workspace had not been touched; and the push sends the head the review read, unless it may not. */
  lemma AKillWithinAFailure(b: Bounds, w: World, steps: seq<Event>, i: Input, j: Input)
    requires Init(w) && Runs(b, w, steps)
    requires var v := After(b, w, steps); v.effect.None? && PutsBack(Decide(b, v, i))
    ensures var v := After(b, w, steps); Enabled(b, v, Killed(i, 1)) && v.p.Some?
    ensures var v := After(b, w, steps);
            var u := Delivery.Next(b, v, Killed(i, 1));
            && HalfFailed(u) && u.p == v.p && u.state == v.state && (u.state.Gating? || u.state.Pushing? || u.state.Watching?)
            && var p, c, d := u.p.value, u.p.value.correction.value, Decide(b, u, j);
               && (u.state.Gating? ==> FailsIt(d, c))
               && (u.state.Watching? ==>
                     && d == Decide(b, u.(ws := v.ws), j)
                     && (FailsIt(d, c) <==>
                           var ci := Watched(p, u.remote, j.runs, j.required, j.late, b.fixes).0;
                           j.prOpen && (ci.Spent? || ci.Late? || ci.Approval?)))
               && (u.state.Pushing? ==>
                     if j.denied || !j.roundsLeft then FailsIt(d, c)
                     else d == Decision([Save(p.(head := Some(c.reviewed)))], Opening, Some(Push(c.reviewed, p.pushed)), []))
  {
    RunKeepsInv(b, w, steps);
    var v := After(b, w, steps);
    OnlyAFailurePutsBack(b, v, i);
    PutBackIs(b, v, i);
    StepKeepsInv(b, v, Killed(i, 1));
    var u := Delivery.Next(b, v, Killed(i, 1));
    hide Decide, Inv, Runs, After, Delivery.Next, FailsIt, Watched;
    if u.state.Gating? {
      TheGateFailsAgain(b, u, j);
    } else if u.state.Watching? {
      TheWatchGoesOn(b, u, v.ws, j);
      TheWatchFailsAgainIf(b, u, j);
    } else {
      ThePushSendsTheReviewedHead(b, u, j);
    }
  }

  // ---- Where the push goes on to ----

  const GREEN := [CheckRun("", true, "success")]

  /** Everything goes through: nothing denied, rounds left, CI green. */
  function Met(ws: Checkout): Input {
    Input(prOpen := true, now := 0, session := Finished, left := ws, base := ws.head, dirty := false, passes := true, gaps := false,
          from := 0, denied := false, oversize := false, keep := CannotKeep, roundsLeft := true, unfinished := false, tooBig := false,
          runs := GREEN, required := [], late := false, review := Waiting, labelled := false, settled := false)
  }

  /** The correction under way is `c`, with the branch at `at`, where the agent left it. */
  predicate Underway(w: World, state: State, c: Correction, at: Commit) {
    && w.state == state && w.effect.None? && w.p.Some? && w.p.value.correction == Some(c) && !c.failed
    && w.remote == Some(at) && w.p.value.pushed == Some(at)
  }

  lemma PushLands(b: Bounds, u: World, i: Input)
    requires Inv(u) && HalfFailed(u) && u.state.Pushing? && u.remote == u.p.value.pushed && !i.denied && i.roundsLeft
    ensures Enabled(b, u, Transition(i))
    ensures var v := Delivery.Next(b, u, Transition(i)); var c := u.p.value.correction.value;
            && Enabled(b, v, Perform)
            && var l := Delivery.Next(b, v, Perform);
               && l.state.Opening? && l.effect.None? && l.remote == Some(c.reviewed)
               && l.p == Some(u.p.value.(head := Some(c.reviewed)))
  {
    ThePushSendsTheReviewedHead(b, u, i);
    WrittenOne(u, Save(u.p.value.(head := Some(u.p.value.correction.value.reviewed))));
    hide Decide, Inv, FailsIt;
  }

  lemma OpenMovesOn(b: Bounds, w: World, c: Correction, i: Input)
    requires w.state.Opening? && w.effect.None? && w.p.Some? && w.p.value.correction == Some(c) && !c.failed
    requires w.remote == Some(c.reviewed) == w.p.value.head && i.prOpen && !i.unfinished
    ensures Enabled(b, w, Transition(i)) && Underway(Delivery.Next(b, w, Transition(i)), Watching, c, c.reviewed)
  {
    var q := Land(w.p.value, w.remote, i.now).1;
    assert Decide(b, w, i) == Decision([Save(q)], Watching, None, []);
    WrittenOne(w, Save(q));
  }

  lemma WatchMovesOn(b: Bounds, w: World, c: Correction, i: Input)
    requires Underway(w, Watching, c, c.reviewed) && i.prOpen && i.runs == GREEN && i.required == []
    ensures Enabled(b, w, Transition(i)) && Underway(Delivery.Next(b, w, Transition(i)), Reviewing, c, c.reviewed)
  {
    assert GREEN[0] in GREEN && AllGreen(GREEN, []);
    assert Decide(b, w, i) == To(Reviewing).(facts := [Fact.Green(w.p.value.pushed)]);
    SawOne(w, Fact.Green(w.p.value.pushed));
  }

  lemma ReviewSendsBack(b: Bounds, w: World, c: Correction, i: Input)
    requires Underway(w, Reviewing, c, c.reviewed) && i.prOpen
    ensures Enabled(b, w, Transition(i)) && Underway(Delivery.Next(b, w, Transition(i)), Implementing, c, c.reviewed)
  {
    assert Decide(b, w, i) == To(Implementing);
  }

  lemma Before(b: Bounds, w: World, s: Event, rest: seq<Event>)
    requires Enabled(b, w, s) && Runs(b, Delivery.Next(b, w, s), rest)
    ensures Runs(b, w, [s] + rest)
    ensures After(b, w, [s] + rest) == After(b, Delivery.Next(b, w, s), rest)
  {
    assert ([s] + rest)[0] == s && ([s] + rest)[1..] == rest;
  }

  /** From there the failure may be forgotten: the reviewed head pushed, seen green and met with its correction still
      running, the job goes back to a session. If the correction had been given to one, as it has been wherever a session
      made what failed, the next is not given it: it is asked for the work anew. */
  lemma AKilledFailureMayStartAgain(b: Bounds, u: World) returns (steps: seq<Event>)
    requires Inv(u) && HalfFailed(u) && u.state.Pushing? && u.remote == u.p.value.pushed
    ensures forall s :: s in steps ==> s.Transition? || s.Perform?
    ensures Runs(b, u, steps)
    ensures var c := u.p.value.correction.value; Underway(After(b, u, steps), Implementing, c, c.reviewed)
  {
    var c, on := u.p.value.correction.value, Met(u.ws.value);
    var go := Transition(on);
    PushLands(b, u, on);
    var v := Delivery.Next(b, u, go);
    var l := Delivery.Next(b, v, Perform);
    OpenMovesOn(b, l, c, on);
    var m := Delivery.Next(b, l, go);
    WatchMovesOn(b, m, c, on);
    var r := Delivery.Next(b, m, go);
    ReviewSendsBack(b, r, c, on);
    hide Enabled, Delivery.Next, Inv, Underway, HalfFailed;
    assert Runs(b, Delivery.Next(b, r, go), []);
    assert [go] + [] == [go];
    Before(b, r, go, []);
    Before(b, m, go, [go]);
    Before(b, l, go, [go] + [go]);
    Before(b, v, Perform, [go] + ([go] + [go]));
    Before(b, u, go, [Perform] + ([go] + ([go] + [go])));
    steps := [go] + ([Perform] + ([go] + ([go] + [go])));
  }
}
