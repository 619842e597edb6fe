/** What every run of a delivery keeps, whatever the session, CI, the review job and other people do, and wherever it is
    killed: what the hand-off label rests on, where a correction leaves the branch, and what a push replaces. */
module DeliverySafety {
  import opened Base
  import Git
  import opened Correcting
  import opened Work
  import opened Delivery

  predicate HasFailed(c: Option<Correction>) {
    c.Some? && c.value.failed
  }

  // ---- The invariant ----

  /** What the progress says of the branch, in every state. */
  ghost predicate Recorded(w: World, p: Progress) {
    && (p.head.Some? ==> p.head.value in w.decided)
    && (p.pushed.Some? ==> p.pushed.value in w.decided)
    && (p.cutting ==> p.pushed.None?)
    && w.begun == (if p.correction.Some? then 1 else 0)
    && (!w.foreign ==> w.remote == p.pushed || ((w.state.Opening? || w.state.HandingBack?) && w.remote == p.head))
  }

  /** A correction was asked for by the review of a green head, and adds to it; a failed one has put the workspace back
      there. */
  ghost predicate Corrects(w: World, p: Progress, c: Correction) {
    && c.reviewed in w.green && c.reviewed in w.reviewed
    && p.pushed.Some? && Git.Ancestor(c.reviewed, p.pushed.value)
    && (c.failed ==> w.ws.Some? ==> w.ws.value == Checkout(false, c.reviewed))
  }

  /** What being in a state says. */
  ghost predicate Placed(w: World, p: Progress) {
    match w.state
    case Resting => false
    case Implementing => !HasFailed(p.correction)
    case Deferred => !HasFailed(p.correction)
    case Gating => true
    case Pushing => true
    case Opening =>
      && p.head.Some? && !p.cutting
      && (Running(p.correction) ==> Git.Ancestor(p.correction.value.reviewed, p.head.value))
      && (HasFailed(p.correction) ==> p.head.value == p.correction.value.reviewed)
    case Watching => p.pushed.Some?
    case Reviewing =>
      && p.pushed.Some?
      && (if HasFailed(p.correction) then p.pushed.value == p.correction.value.reviewed else p.pushed.value in w.green)
    case HandingOff => p.pushed.Some? && HandsOff(w, p)
    case HandingBack => true
  }

  /** What the hand-off rests on: CI green on the branch's last push, and its review seen; or, with a correction, the
      review of the head the correction was made of, which the branch is back at exactly if the correction failed and
      has strictly grown from if it did not. */
  ghost predicate HandsOff(w: World, p: Progress) {
    && p.pushed.Some? && p.pushed.value in w.green
    && w.kept == p.pushed
    && match p.correction {
       case None => p.pushed.value in w.reviewed
       case Some(c) =>
         && c.reviewed in w.green && c.reviewed in w.reviewed
         && Git.Ancestor(c.reviewed, p.pushed.value)
         && (c.failed <==> p.pushed.value == c.reviewed)
       }
  }

  /** An effect in flight is the one its state decided. */
  ghost predicate InFlight(w: World, e: Effect) {
    match e
    case Push(head, lease) => w.state.Opening? && w.p.Some? && w.p.value.head == Some(head) && lease == w.p.value.pushed
    case Label => w.state.HandingOff? && w.p.Some?
    case Other => true
  }

  ghost predicate Holds(w: World, p: Progress) {
    && Recorded(w, p)
    && (p.correction.Some? ==> Corrects(w, p, p.correction.value))
    && Placed(w, p)
  }

  ghost predicate Inv(w: World) {
    && (w.p.Some? ==> Holds(w, w.p.value))
    && (w.effect.Some? ==> InFlight(w, w.effect.value))
    && (w.p.None? ==> w.begun <= 1)
  }

  // ---- Prefixes of writes ----

  /** Every world on the way through the writes has the invariant. */
  ghost predicate Keeps(w: World, writes: seq<Write>)
    decreases |writes|
  {
    Inv(w) && (writes != [] ==> Keeps(Wrote(w, writes[0]), writes[1..]))
  }

  lemma {:induction false} PrefixKeeps(w: World, writes: seq<Write>, n: nat)
    requires Keeps(w, writes) && n <= |writes|
    ensures Inv(Written(w, writes[..n]))
    decreases n
  {
    if n > 0 {
      assert writes[..n][1..] == writes[1..][..n - 1];
      PrefixKeeps(Wrote(w, writes[0]), writes[1..], n - 1);
    }
  }

  lemma {:induction false} KeepsBoth(w: World, xs: seq<Write>, ys: seq<Write>)
    requires Keeps(w, xs) && Keeps(Written(w, xs), ys)
    ensures Keeps(w, xs + ys) && Written(w, xs + ys) == Written(Written(w, xs), ys)
    decreases |xs|
  {
    if xs == [] {
      assert xs + ys == ys;
    } else {
      assert (xs + ys)[1..] == xs[1..] + ys;
      KeepsBoth(Wrote(w, xs[0]), xs[1..], ys);
    }
  }

  lemma One(w: World, a: Write)
    requires Inv(w) && Inv(Wrote(w, a))
    ensures Keeps(w, [a]) && Written(w, [a]) == Wrote(w, a)
  {
    assert [a][1..] == [];
    assert Keeps(Wrote(w, a), []);
  }

  lemma Two(w: World, a: Write, b: Write)
    requires Inv(w) && Inv(Wrote(w, a)) && Inv(Wrote(Wrote(w, a), b))
    ensures Keeps(w, [a, b]) && Written(w, [a, b]) == Wrote(Wrote(w, a), b)
  {
    assert [a, b][1..] == [b];
    One(Wrote(w, a), b);
  }

  /** The decision keeps the invariant, made whole or cut short after any of its writes. */
  ghost predicate Good(w: World, d: Decision) {
    var seen := SawAll(w, d.facts);
    && Keeps(seen, d.writes)
    && Inv(Written(seen, d.writes).(state := d.to, effect := d.effect))
  }

  // ---- Each shape of decision ----

  lemma MoveIsGood(w: World, to: State, effect: Option<Effect>)
    requires Inv(w) && Inv(w.(state := to, effect := effect))
    ensures Good(w, Decision([], to, effect, []))
  {
  }

  lemma ClearedIsGood(w: World, to: State, effect: Option<Effect>)
    requires Inv(w) && w.effect.None? && (effect.None? || effect.value.Other?)
    ensures Good(w, Cleared(to, effect))
  {
    Two(w, DropWorkspace, DropProgress);
  }

  lemma SavingIsGood(w: World, p: Progress, to: State, effect: Option<Effect>)
    requires Inv(w) && w.effect.None? && Inv(Wrote(w, Save(p))) && Inv(Wrote(w, Save(p)).(state := to, effect := effect))
    ensures Good(w, Decision([Save(p)], to, effect, []))
  {
    One(w, Save(p));
  }

  lemma HandBackIsGood(w: World, i: Input)
    requires Inv(w) && w.effect.None? && w.p.Some?
    ensures Good(w, HandBackIssue()) && Good(w, HandBackPR()) && Good(w, Lost(i)) && Good(w, HandBack(w.p.value, i))
  {
    One(w, DropWorkspace);
    ClearedIsGood(w, HandingBack, Some(Other));
    ClearedIsGood(w, Resting, None);
  }

  /** Only the bookkeeping of the gate, CI and the session differs. */
  predicate SameWork(p: Progress, q: Progress) {
    && q.head == p.head && q.pushed == p.pushed
    && (q.cutting ==> p.cutting)
    && (q.correction == p.correction || (Running(p.correction) && q.correction == Some(p.correction.value.(given := true))))
  }

  lemma SameWorkKeeps(w: World, q: Progress)
    requires Inv(w) && w.effect.None? && w.p.Some? && SameWork(w.p.value, q)
    ensures Inv(Wrote(w, Save(q)))
  {
    var p := w.p.value;
    assert Holds(w, p);
    assert Wrote(w, Save(q)).begun == w.begun;
  }

  lemma FailureIsSaved(w: World, q: Progress, from: nat)
    requires Inv(w) && w.effect.None? && w.p.Some? && SameWork(w.p.value, q) && Running(q.correction)
    requires w.state.Gating? || w.state.Pushing? || w.state.Watching?
    ensures var w1 := Wrote(w, Restore(q.correction.value.reviewed));
            Inv(w1) && Inv(Wrote(w1, Save(AsFailed(q, from))))
  {
    assert Holds(w, w.p.value);
    var failed := AsFailed(q, from);
    var w2 := Wrote(Wrote(w, Restore(q.correction.value.reviewed)), Save(failed));
    assert Recorded(w2, failed);
    assert Corrects(w2, failed, failed.correction.value);
  }

  lemma FailureMovesOn(w: World)
    requires Inv(w) && w.effect.None? && w.p.Some? && HasFailed(w.p.value.correction)
    requires w.state.Gating? || w.state.Pushing? || w.state.Watching?
    ensures Inv(w.(state := StateOf(Over(w.p.value.correction, w.p.value.pushed))))
  {
    assert Holds(w, w.p.value);
  }

  /** `q` is the progress that failed, as the failing state left it in its hands. */
  lemma FailureIsGood(w: World, q: Progress, i: Input)
    requires Inv(w) && w.effect.None? && w.p.Some? && SameWork(w.p.value, q) && Running(q.correction)
    requires w.state.Gating? || w.state.Pushing? || w.state.Watching?
    ensures Good(w, FailCorrection(w, q, i))
  {
    hide Inv, SameWork, Keeps, Lost;
    HandBackIsGood(w, i);
    if w.ws.Some? {
      var reviewed := q.correction.value.reviewed;
      FailureIsSaved(w, q, i.from);
      FailureMovesOn(Wrote(Wrote(w, Restore(reviewed)), Save(AsFailed(q, i.from))));
      Two(w, Restore(reviewed), Save(AsFailed(q, i.from)));
    }
  }

  lemma StopIsGood(w: World, q: Progress, i: Input)
    requires Inv(w) && w.effect.None? && w.p.Some? && SameWork(w.p.value, q)
    requires w.state.Gating? || w.state.Pushing? || w.state.Watching?
    ensures Good(w, Stop(w, q, i))
  {
    if Running(q.correction) {
      FailureIsGood(w, q, i);
    } else {
      HandBackIsGood(w, i);
    }
  }

  // ---- Each transition ----

  lemma StartIsGood(w: World, i: Input)
    requires Inv(w) && w.effect.None? && w.state.Implementing?
    ensures var start := [DropWorkspace, DropProgress, Fresh(i.base), Save(NewProgress(i.base))];
            Keeps(w, start) && Written(w, start).p == Some(NewProgress(i.base)) && Written(w, start).state.Implementing? && Written(w, start).effect.None?
  {
    var w1 := Wrote(w, DropWorkspace);
    var w2 := Wrote(w1, DropProgress);
    var w3 := Wrote(w2, Fresh(i.base));
    Two(w, DropWorkspace, DropProgress);
    Two(w2, Fresh(i.base), Save(NewProgress(i.base)));
    KeepsBoth(w, [DropWorkspace, DropProgress], [Fresh(i.base), Save(NewProgress(i.base))]);
  }

  lemma SessionIsGood(w: World, i: Input, q: Progress, to: State)
    requires Inv(w) && w.effect.None? && w.p.Some? && w.state.Implementing? && SameWork(w.p.value, q)
    requires to.Implementing? || to.Deferred? || to.Gating?
    ensures Good(w, Decision([Leave(i.left), Save(q)], to, None, []))
  {
    var w1 := Wrote(w, Leave(i.left));
    assert Inv(w1);
    SameWorkKeeps(w1, q);
    Two(w, Leave(i.left), Save(q));
  }

  lemma GoodAfter(w: World, start: seq<Write>, rest: Decision)
    requires rest.facts == [] && Keeps(w, start) && Good(Written(w, start), rest)
    ensures Good(w, rest.(writes := start + rest.writes))
  {
    hide Inv;
    KeepsBoth(w, start, rest.writes);
  }

  lemma NoCandidateIsGood(w: World)
    requires Inv(w) && w.effect.None? && w.state.Implementing?
    ensures Good(w, To(Deferred))
  {
    MoveIsGood(w, Deferred, None);
  }

  lemma UsableKeeps(w: World)
    requires Inv(w)
    ensures Keeps(w, []) && Written(w, []) == w
  {
  }

  lemma InvAfter(w: World, start: seq<Write>)
    requires Keeps(w, start)
    ensures Inv(Written(w, start))
  {
    PrefixKeeps(w, start, |start|);
    assert start[..|start|] == start;
  }

  lemma GivenIsSameWork(p: Progress)
    ensures SameWork(p, Given(p)) && SameWork(p, p)
  {
  }

  lemma RunIsGood(w: World, i: Input)
    requires Inv(w) && w.effect.None? && w.state.Implementing?
    ensures Good(w, Run(w, i))
  {
    hide Inv, Good, Keeps, Written, Given, SameWork, Cleared, To;
    if i.session.NoCandidate? {
      NoCandidateIsGood(w);
    } else if !Usable(w) && (if w.p.Some? then w.p.value.pushed.Some? else i.prOpen) {
      ClearedIsGood(w, HandingBack, Some(Other));
      ClearedIsGood(w, Resting, None);
    } else {
      var start := if Usable(w) then [] else [DropWorkspace, DropProgress, Fresh(i.base), Save(NewProgress(i.base))];
      var p := if Usable(w) then w.p.value else NewProgress(i.base);
      if Usable(w) {
        UsableKeeps(w);
      } else {
        StartIsGood(w, i);
      }
      InvAfter(w, start);
      GivenIsSameWork(p);
      var q := if i.session.Transient? then p else Given(p);
      var to := if i.session.Finished? then Gating else if i.session.defers then Deferred else Implementing;
      SessionIsGood(Written(w, start), i, q, to);
      GoodAfter(w, start, Decision([Leave(i.left), Save(q)], to, None, []));
    }
  }

  /** A failed correction met again: nothing left to do but move on. */
  lemma OverIsGood(w: World)
    requires Inv(w) && w.effect.None? && w.p.Some? && HasFailed(w.p.value.correction)
    requires w.state.Gating? || w.state.Watching? || w.state.Reviewing? || (w.state.Pushing? && Over(w.p.value.correction, w.p.value.pushed).Edit?)
    ensures Good(w, To(StateOf(Over(w.p.value.correction, w.p.value.pushed))))
  {
    MoveIsGood(w, StateOf(Over(w.p.value.correction, w.p.value.pushed)), None);
  }

  lemma GatedIsGood(w: World, q: Progress, to: State)
    requires Inv(w) && w.effect.None? && w.p.Some? && SameWork(w.p.value, q) && w.state.Gating?
    requires to.Pushing? || (to.Implementing? && !HasFailed(q.correction))
    ensures Good(w, Saving(q, to))
  {
    SameWorkKeeps(w, q);
    SavingIsGood(w, q, to, None);
  }

  lemma CheckIsSeen(w: World, d: Decision)
    requires w.effect.None? && d.facts == [] && Good(w.(checks := w.checks + 1), d)
    ensures Good(w, d.(facts := [GateChecked]))
  {
    assert [GateChecked][1..] == [];
    assert SawAll(w, [GateChecked]) == w.(checks := w.checks + 1);
  }

  /** Whatever the gate says, what follows from it is good. */
  lemma GateSaidIsGood(w: World, q: Progress, i: Input, d: Decision)
    requires Inv(w) && w.effect.None? && w.p.Some? && SameWork(w.p.value, q) && w.state.Gating?
    requires d == Saving(q, Pushing) || (d == Saving(q, Implementing) && !HasFailed(q.correction)) || d == HandBackIssue() || d == Stop(w, q, i)
    ensures Good(w, d)
  {
    hide Good, Inv, Stop, SameWork;
    if d == Saving(q, Pushing) {
      GatedIsGood(w, q, Pushing);
    } else if d == HandBackIssue() {
      HandBackIsGood(w, i);
    } else if d == Stop(w, q, i) {
      StopIsGood(w, q, i);
    } else {
      GatedIsGood(w, q, Implementing);
    }
  }

  lemma CheckedIsSameWork(p: Progress, ws: Checkout, dirty: bool, passes: bool, bound: nat)
    ensures SameWork(p, Checked(p, ws, dirty, passes, bound).1)
    ensures HasFailed(p.correction) <==> HasFailed(Checked(p, ws, dirty, passes, bound).1.correction)
  {
  }

  lemma CountingKeeps(w: World)
    requires Inv(w)
    ensures Inv(w.(checks := w.checks + 1))
  {
  }

  lemma GateIsGood(b: Bounds, w: World, i: Input)
    requires Inv(w) && w.effect.None? && w.state.Gating?
    ensures Good(w, RunGate(b, w, i))
  {
    hide Good, Inv, Stop, Cleared, SameWork, Checked;
    if w.p.None? || w.ws.None? {
      ClearedIsGood(w, Implementing, None);
      return;
    }
    var p, ws := w.p.value, w.ws.value;
    if !Over(p.correction, p.pushed).Making? {
      OverIsGood(w);
    } else if Running(p.correction) && !ws.switched && !Git.Ancestor(p.correction.value.reviewed, ws.head) {
      SameIsSameWork(p);
      StopIsGood(w, p, i);
    } else {
      var (gate, q) := Checked(p, ws, i.dirty, i.passes, b.gate);
      CheckedIsSameWork(p, ws, i.dirty, i.passes, b.gate);
      CountingKeeps(w);
      var d := RunGate(b, w, i).(facts := []);
      StopIsStill(w, q, i);
      GateSaidIsGood(w.(checks := w.checks + 1), q, i, d);
      CheckIsSeen(w, d);
    }
  }

  lemma SameIsSameWork(p: Progress)
    ensures SameWork(p, p)
  {
  }

  /** What stopping decides does not depend on how often the gate ran. */
  lemma StopIsStill(w: World, q: Progress, i: Input)
    ensures Stop(w.(checks := w.checks + 1), q, i) == Stop(w, q, i) && Stop(w, q, i).facts == []
  {
  }

  lemma CutIsGood(w: World)
    requires Inv(w) && w.effect.None? && w.p.Some? && w.state.Pushing? && w.p.value.pushed.None?
    ensures Good(w, Saving(w.p.value.(cut := true, cutting := true, attempts := 0), Implementing))
    ensures Good(w, Decision([], Pushing, Some(Other), []))
  {
    assert Holds(w, w.p.value);
    SavingIsGood(w, w.p.value.(cut := true, cutting := true, attempts := 0), Implementing, None);
  }

  lemma SendIsGood(w: World)
    requires Inv(w) && w.effect.None? && w.p.Some? && w.ws.Some? && w.state.Pushing? && !w.p.value.cutting
    requires Running(w.p.value.correction) ==> Git.Ancestor(w.p.value.correction.value.reviewed, w.ws.value.head)
    ensures Good(w, Decision([Save(w.p.value.(head := Some(w.ws.value.head)))], Opening, Some(Push(w.ws.value.head, w.p.value.pushed)), []))
  {
    assert Holds(w, w.p.value);
    SavingIsGood(w, w.p.value.(head := Some(w.ws.value.head)), Opening, Some(Push(w.ws.value.head, w.p.value.pushed)));
  }

  lemma BackToTheCutIsGood(w: World)
    requires Inv(w) && w.effect.None? && w.p.Some? && w.state.Pushing? && w.p.value.cutting
    ensures Good(w, To(Implementing))
  {
    assert Holds(w, w.p.value);
    MoveIsGood(w, Implementing, None);
  }

  lemma PushIsGood(w: World, i: Input)
    requires Inv(w) && w.effect.None? && w.state.Pushing?
    ensures Good(w, RunPush(w, i))
  {
    hide Good, Inv, Stop, Saving, Cleared, SameWork, To;
    if w.p.None? || w.ws.None? {
      ClearedIsGood(w, Implementing, None);
      return;
    }
    var p := w.p.value;
    SameIsSameWork(p);
    StopIsGood(w, p, i);
    if p.cutting {
      BackToTheCutIsGood(w);
    } else if Over(p.correction, p.pushed).Edit? {
      OverIsGood(w);
    } else if !(Running(p.correction) && !Git.Ancestor(p.correction.value.reviewed, w.ws.value.head)) {
      SendIsGood(w);
      if p.pushed.None? {
        CutIsGood(w);
      }
    }
  }

  /** The push seen on the remote, and recorded as the next one's lease. */
  lemma LandedIsGood(w: World, q: Progress)
    requires Inv(w) && w.effect.None? && w.p.Some? && w.state.Opening? && w.remote == w.p.value.head
    requires q == w.p.value.(pushed := w.remote, pushedAt := q.pushedAt)
    ensures Good(w, Decision([Save(q)], Opening, Some(Other), []))
    ensures Good(w, Decision([Save(q)], Watching, None, []))
    ensures Good(w, Decision([Save(q), DropWorkspace], HandingBack, Some(Other), []))
  {
    assert Holds(w, w.p.value);
    var w1 := Wrote(w, Save(q));
    assert Holds(w1, q);
    SavingIsGood(w, q, Opening, Some(Other));
    SavingIsGood(w, q, Watching, None);
    Two(w, Save(q), DropWorkspace);
  }

  lemma NotLandedIsGood(w: World)
    requires Inv(w) && w.effect.None? && w.p.Some? && w.state.Opening? && w.remote == w.p.value.pushed
    ensures Good(w, To(Pushing))
  {
    assert Holds(w, w.p.value);
    MoveIsGood(w, Pushing, None);
  }

  /** Work whose progress is gone. */
  lemma UnrecordedIsGood(w: World, to: State)
    requires Inv(w) && w.effect.None? && w.p.None?
    ensures Good(w, To(to))
  {
    MoveIsGood(w, to, None);
  }

  lemma OpenIsGood(w: World, i: Input)
    requires Inv(w) && w.effect.None? && w.state.Opening?
    ensures Good(w, RunOpen(w, i))
  {
    hide Good, Inv, HandBack, Cleared, To;
    if w.p.None? {
      UnrecordedIsGood(w, Watching);
      ClearedIsGood(w, Implementing, None);
    } else {
      HandBackIsGood(w, i);
      var (landing, q) := Land(w.p.value, w.remote, i.now);
      if landing.Landed? {
        LandedIsGood(w, q);
      } else if landing.NotLanded? {
        NotLandedIsGood(w);
      }
    }
  }

  lemma WatchedIsSameWork(p: Progress, at: Option<Commit>, runs: seq<CheckRun>, required: seq<string>, late: bool, bound: nat)
    ensures SameWork(p, Watched(p, at, runs, required, late, bound).1)
  {
  }

  lemma GreenIsGood(w: World)
    requires Inv(w) && w.effect.None? && w.p.Some? && w.state.Watching? && !HasFailed(w.p.value.correction)
    ensures Good(w, To(Reviewing).(facts := [Fact.Green(w.p.value.pushed)]))
    ensures Good(w, To(Watching))
  {
    assert Holds(w, w.p.value);
    assert [Fact.Green(w.p.value.pushed)][1..] == [];
    assert SawAll(w, [Fact.Green(w.p.value.pushed)]) == Saw(w, Fact.Green(w.p.value.pushed));
  }

  lemma RedIsGood(w: World, q: Progress)
    requires Inv(w) && w.effect.None? && w.p.Some? && w.state.Watching? && SameWork(w.p.value, q) && !HasFailed(w.p.value.correction)
    ensures Good(w, Saving(q, Implementing))
  {
    SameWorkKeeps(w, q);
    SavingIsGood(w, q, Implementing, None);
  }

  lemma SameWorkRunsOn(p: Progress, q: Progress)
    requires SameWork(p, q)
    ensures Running(q.correction) <==> Running(p.correction)
  {
  }

  lemma WatchIsGood(b: Bounds, w: World, i: Input)
    requires Inv(w) && w.effect.None? && w.state.Watching?
    ensures Good(w, RunWatch(b, w, i))
  {
    hide Good, Inv, Cleared, To, SameWork, Watched, FailCorrection, Saving;
    ClearedIsGood(w, HandingBack, Some(Other));
    ClearedIsGood(w, Resting, None);
    if w.p.Some? && i.prOpen {
      var p := w.p.value;
      if !Over(p.correction, p.pushed).Making? {
        OverIsGood(w);
        return;
      }
      var (ci, q) := Watched(p, w.remote, i.runs, i.required, i.late, b.fixes);
      WatchedIsSameWork(p, w.remote, i.runs, i.required, i.late, b.fixes);
      SameWorkRunsOn(p, q);
      GreenIsGood(w);
      RedIsGood(w, q);
      if Running(p.correction) {
        FailureIsGood(w, q, i);
      }
    }
  }

  lemma KeptIsGood(w: World)
    requires Inv(w) && w.effect.None? && w.p.Some? && w.state.Reviewing? && w.remote == w.p.value.pushed
    ensures Good(w, Decision([], Reviewing, Some(Other), [Kept(w.remote)]))
    ensures w.p.value.correction.Some? && Correcting.Next(w.p.value.correction, w.p.value.pushed).Edit? ==>
              Good(w, To(HandingOff).(facts := [Kept(w.remote)]))
  {
    assert Holds(w, w.p.value);
    assert [Kept(w.remote)][1..] == [];
    assert SawAll(w, [Kept(w.remote)]) == Saw(w, Kept(w.remote));
  }

  lemma BeginKeeps(w: World)
    requires Inv(w) && w.effect.None? && w.p.Some? && w.state.Reviewing? && w.p.value.correction.None?
    requires w.p.value.pushed.Some? && w.p.value.pushed.value in w.reviewed
    ensures Good(w, Saving(Begin(w.p.value), Implementing))
  {
    assert Holds(w, w.p.value);
    SavingIsGood(w, Begin(w.p.value), Implementing, None);
  }

  lemma FoundIsGood(w: World)
    requires Inv(w) && w.effect.None? && w.p.Some? && w.state.Reviewing? && w.remote == w.p.value.pushed && w.p.value.correction.None?
    ensures w.p.value.pushed.Some?
    ensures Good(w, To(HandingOff).(facts := [Kept(w.remote), Reviewed(w.p.value.pushed)]))
    ensures Good(w, Saving(Begin(w.p.value), Implementing).(facts := [Kept(w.remote), Reviewed(w.p.value.pushed)]))
  {
    var p := w.p.value;
    assert Holds(w, p);
    var w1 := Saw(w, Kept(w.remote));
    var w2 := Saw(w1, Reviewed(p.pushed));
    assert [Kept(w.remote), Reviewed(p.pushed)][1..] == [Reviewed(p.pushed)] && [Reviewed(p.pushed)][1..] == [];
    assert SawAll(w1, [Reviewed(p.pushed)]) == w2;
    BeginKeeps(w2);
  }

  lemma NextIsGood(w: World)
    requires Inv(w) && w.effect.None? && w.p.Some? && w.state.Reviewing? && w.p.value.correction.Some?
    ensures var s := Correcting.Next(w.p.value.correction, w.p.value.pushed);
            !s.Edit? ==> Good(w, To(StateOf(s)))
  {
    assert Holds(w, w.p.value);
    MoveIsGood(w, StateOf(Correcting.Next(w.p.value.correction, w.p.value.pushed)), None);
  }

  lemma ReviewIsGood(w: World, i: Input)
    requires Inv(w) && w.effect.None? && w.state.Reviewing?
    ensures Good(w, RunReview(w, i))
  {
    hide Good, Inv, Cleared, To, Saving, Begin;
    ClearedIsGood(w, HandingBack, Some(Other));
    ClearedIsGood(w, Resting, None);
    if w.p.Some? && i.prOpen {
      if w.p.value.correction.Some? {
        NextIsGood(w);
      }
      if w.remote == w.p.value.pushed {
        KeptIsGood(w);
        if w.p.value.correction.None? {
          FoundIsGood(w);
        }
      }
    }
  }

  lemma DecisionIsGood(b: Bounds, w: World, i: Input)
    requires Inv(w) && w.effect.None?
    ensures Good(w, Decide(b, w, i))
  {
    match w.state
    case Implementing => RunIsGood(w, i);
    case Gating => GateIsGood(b, w, i);
    case Pushing => PushIsGood(w, i);
    case Opening => OpenIsGood(w, i);
    case Watching => WatchIsGood(b, w, i);
    case Reviewing => ReviewIsGood(w, i);
    case Resting => ClearedIsGood(w, Implementing, None);
    case Deferred =>
    case HandingOff =>
      ClearedIsGood(w, HandingBack, Some(Other));
      ClearedIsGood(w, Resting, None);
    case HandingBack =>
      ClearedIsGood(w, HandingBack, Some(Other));
      ClearedIsGood(w, Resting, None);
  }

  // ---- Runs ----

  lemma TransitionKeepsInv(b: Bounds, w: World, i: Input)
    requires Inv(w) && w.effect.None?
    ensures Inv(Delivery.Next(b, w, Transition(i)))
  {
    DecisionIsGood(b, w, i);
    hide Inv, Decide, Keeps;
  }

  lemma KillKeepsInv(b: Bounds, w: World, i: Input, n: nat)
    requires Inv(w) && w.effect.None? && n <= |Decide(b, w, i).writes|
    ensures Inv(Delivery.Next(b, w, Killed(i, n)))
  {
    DecisionIsGood(b, w, i);
    PrefixKeeps(SawAll(w, Decide(b, w, i).facts), Decide(b, w, i).writes, n);
    KilledOnly(Written(SawAll(w, Decide(b, w, i).facts), Decide(b, w, i).writes[..n]));
    hide Inv, Decide, Keeps;
  }

  lemma KilledOnly(w: World)
    requires Inv(w)
    ensures Inv(w.(killed := true))
  {
  }

  lemma PushKeepsInv(w: World)
    requires Inv(w) && w.effect.Some? && w.effect.value.Push?
    ensures Inv(Delivery.Made(w, w.effect.value))
  {
    assert Holds(w, w.p.value);
    hide Corrects;
  }

  lemma NoEffectKeepsInv(w: World)
    requires Inv(w)
    ensures Inv(w.(effect := None))
  {
  }

  lemma EffectKeepsInv(w: World)
    requires Inv(w) && w.effect.Some?
    ensures Inv(Delivery.Made(w, w.effect.value)) && Inv(w.(effect := None))
  {
    NoEffectKeepsInv(w);
    if w.effect.value.Push? {
      PushKeepsInv(w);
    }
    hide Inv;
  }

  lemma ForeignKeepsInv(w: World, at: Option<Commit>)
    requires Inv(w)
    ensures Inv(w.(remote := at, foreign := true))
  {
  }

  lemma StepKeepsInv(b: Bounds, w: World, s: Event)
    requires Inv(w) && Enabled(b, w, s)
    ensures Inv(Delivery.Next(b, w, s))
  {
    hide Inv, Decide;
    match s
    case Transition(i) => TransitionKeepsInv(b, w, i);
    case Killed(i, n) => KillKeepsInv(b, w, i, n);
    case Perform => EffectKeepsInv(w);
    case Lose => EffectKeepsInv(w);
    case Foreign(at) => ForeignKeepsInv(w, at);
  }

  lemma {:induction false} RunKeepsInv(b: Bounds, w: World, steps: seq<Event>)
    requires Inv(w) && Runs(b, w, steps)
    ensures Inv(After(b, w, steps))
    decreases |steps|
  {
    if steps != [] {
      StepKeepsInv(b, w, steps[0]);
      RunKeepsInv(b, Delivery.Next(b, w, steps[0]), steps[1..]);
    }
  }

  /** However a delivery got there, the label is applied only over a head CI was seen green on, with its review seen, and
      with the branch last read exactly there. */
  lemma TheLabelIsEarned(b: Bounds, w: World, steps: seq<Event>)
    requires Init(w) && Runs(b, w, steps)
    ensures var v := After(b, w, steps);
            v.effect == Some(Label) ==> v.p.Some? && HandsOff(v, v.p.value)
  {
    RunKeepsInv(b, w, steps);
  }

  /** One correction at most is begun in the life of a progress file, and at the hand-off a failed one has the branch
      back at exactly the head the review read, and any other has it at a strict descendant of that head. */
  lemma CorrectsOnce(b: Bounds, w: World, steps: seq<Event>)
    requires Init(w) && Runs(b, w, steps)
    ensures var v := After(b, w, steps);
            && v.begun <= 1
            && (v.state.HandingOff? && v.p.Some? && v.p.value.correction.Some? ==>
                  var c := v.p.value.correction.value;
                  && v.p.value.pushed.Some?
                  && (c.failed ==> v.p.value.pushed.value == c.reviewed)
                  && (!c.failed ==> Git.Ancestor(c.reviewed, v.p.value.pushed.value) && Git.Weight(c.reviewed) < Git.Weight(v.p.value.pushed.value)))
  {
    RunKeepsInv(b, w, steps);
    var v := After(b, w, steps);
    if v.state.HandingOff? && v.p.Some? && v.p.value.correction.Some? {
      Git.AncestorIsLighter(v.p.value.correction.value.reviewed, v.p.value.pushed.value);
    }
  }

  /** A kill between a correction's save and the move that follows it is met again by the same state, which sends the job
      on as it would have: a correction begun to its session, a failed one to push back a branch that has moved, and to
      the review otherwise. */
  lemma AKillResumesTheCorrection(b: Bounds, w: World, steps: seq<Event>, i: Input)
    requires Init(w) && Runs(b, w, steps) && i.prOpen
    ensures var v := After(b, w, steps);
            v.p.Some? && v.ws.Some? && v.p.value.correction.Some? ==>
              var c, d := v.p.value.correction.value, Decide(b, v, i);
              var back := v.p.value.pushed == Some(c.reviewed);
              && (c.failed && (v.state.Gating? || v.state.Watching?) ==> d == To(if back then Reviewing else Pushing))
              && (c.failed && v.state.Pushing? && !i.denied && i.roundsLeft ==>
                    if back then d == To(Reviewing)
                    else d.effect == Some(Push(c.reviewed, v.p.value.pushed)))
              && (!c.failed && v.state.Reviewing? && back ==> d == To(Implementing))
  {
    RunKeepsInv(b, w, steps);
    hide Runs, After;
  }

  /** A push that moves the branch moves it from a commit the agent itself had decided to push there, or makes it where
      there was none; and while a correction has failed, what it sends is exactly the head the review read. */
  lemma APushReplacesOnlyTheAgentsOwn(b: Bounds, w: World, steps: seq<Event>)
    requires Init(w) && Runs(b, w, steps)
    ensures var v := After(b, w, steps);
            v.effect.Some? && v.effect.value.Push? ==>
              var head := v.effect.value.head;
              && head in v.decided
              && (Delivery.Made(v, v.effect.value).remote != v.remote ==> v.remote.None? || v.remote.value in v.decided)
              && (v.p.Some? && HasFailed(v.p.value.correction) ==> head == v.p.value.correction.value.reviewed)
              && (v.p.Some? && Running(v.p.value.correction) ==> Git.Ancestor(v.p.value.correction.value.reviewed, head))
  {
    RunKeepsInv(b, w, steps);
  }

  /** With nobody else pushing to it, the branch the label is applied over is at the agent's last push. */
  lemma UntouchedTheBranchIsHandedOffWhereItWasLeft(b: Bounds, w: World, steps: seq<Event>)
    requires Init(w) && Runs(b, w, steps)
    ensures var v := After(b, w, steps);
            v.effect == Some(Label) && !v.foreign ==> v.p.Some? && v.remote == v.p.value.pushed == v.kept && v.remote.Some? && v.remote.value in v.green
  {
    RunKeepsInv(b, w, steps);
  }
}
