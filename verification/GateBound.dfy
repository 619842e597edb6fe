/** How often the local gate is checked: for each workspace begun, and without kills, at most A * (2F + 3) times for A
    gate attempts and F fixes CI may ask for - the first convergence, one cut, the fixes, one correction, and its fixes. */
module GateBound {
  import opened Base
  import Git
  import opened Correcting
  import opened Work
  import opened Delivery
  import opened DeliverySafety

  /** Every check one workspace may need. */
  function Full(b: Bounds): nat {
    b.gate * (2 * b.fixes + 3)
  }

  /** The fixes CI may still ask for. */
  function FixesLeft(b: Bounds, p: Progress): nat {
    if p.fixes < b.fixes then b.fixes - p.fixes else 0
  }

  /** The convergences not yet begun: the cut, the fixes, and the correction with its own. */
  function Convergences(b: Bounds, p: Progress): nat {
    if p.correction.Some? then FixesLeft(b, p)
    else (if !p.cut && p.pushed.None? then 1 else 0) + FixesLeft(b, p) + 1 + b.fixes
  }

  predicate Converging(state: State) {
    state.Implementing? || state.Gating? || state.Deferred?
  }

  /** The checks left in the convergence under way. */
  function Current(b: Bounds, state: State, p: Progress): nat {
    if Converging(state) && p.attempts < b.gate then b.gate - p.attempts else 0
  }

  /** The checks left in the life of the progress. */
  function Left(b: Bounds, state: State, p: Option<Progress>): nat {
    if p.None? || HasFailed(p.value.correction) then 0
    else Current(b, state, p.value) + b.gate * Convergences(b, p.value)
  }

  // ---- What holds besides while nothing is killed ----

  ghost predicate New(head: Commit, p: Progress) {
    p.pushed.Some? ==> !Git.Ancestor(head, p.pushed.value)
  }

  /** The branch has what the correction added. */
  predicate Added(p: Progress) {
    Running(p.correction) ==> p.pushed != Some(p.correction.value.reviewed)
  }

  ghost predicate Unfailed(b: Bounds, state: State, ws: Option<Checkout>, p: Progress) {
    && p.attempts < b.gate
    && match state {
       case Implementing => p.fixedHead.None? || p.fixedHead == p.pushed
       case Deferred => p.fixedHead.None? || p.fixedHead == p.pushed
       case Gating => !p.cutting && (p.fixedHead.None? || p.fixedHead == p.pushed)
       case Pushing => !p.cutting && (p.fixedHead.None? || p.fixedHead == p.pushed) && (ws.Some? ==> New(ws.value.head, p))
       case Opening =>
         && !p.cutting && p.head.Some?
         && (ws.Some? ==> ws.value.head == p.head.value)
         && (if p.head == p.pushed then p.fixedHead != p.pushed && Added(p)
             else (p.fixedHead.None? || p.fixedHead == p.pushed) && New(p.head.value, p))
       case Watching => p.fixedHead != p.pushed && Added(p)
       case Reviewing => Added(p)
       case _ => true
       }
  }

  ghost predicate Steady(b: Bounds, w: World) {
    w.p.Some? && !HasFailed(w.p.value.correction) ==> Unfailed(b, w.state, w.ws, w.p.value)
  }

  /** The checks left in the convergence `w` is in, if it is in one. */
  function Now(b: Bounds, w: World): nat {
    if w.p.None? || HasFailed(w.p.value.correction) then 0 else Current(b, w.state, w.p.value)
  }

  /** From `w` to `v` nothing was checked, and `k` of the checks left are left no longer. */
  ghost predicate Frees(b: Bounds, w: World, v: World, k: nat) {
    && Steady(b, v)
    && v.made == w.made && v.checks == w.checks
    && Left(b, v.state, v.p) + k <= Left(b, w.state, w.p)
  }

  /** From `w` to `v`, every check was one of those left, or of a workspace begun since. */
  ghost predicate Pays(b: Bounds, w: World, v: World) {
    && Steady(b, v)
    && w.made <= v.made
    && v.checks + Left(b, v.state, v.p) <= w.checks + Left(b, w.state, w.p) + (v.made - w.made) * Full(b)
  }

  lemma FreesLess(b: Bounds, w: World, v: World, k: nat, few: nat)
    requires Frees(b, w, v, k) && few <= k
    ensures Frees(b, w, v, few)
  {
  }

  lemma FreesPays(b: Bounds, w: World, v: World, k: nat)
    requires Frees(b, w, v, k)
    ensures Pays(b, w, v)
  {
  }

  // ---- Each shape of decision ----

  lemma ClearedFrees(b: Bounds, w: World, to: State, effect: Option<Effect>)
    ensures Frees(b, w, Decided(w, Cleared(to, effect)), Left(b, w.state, w.p))
  {
    WrittenTwo(w, DropWorkspace, DropProgress);
    assert Decided(w, Cleared(to, effect)) == w.(ws := None, p := None, state := to, effect := effect);
  }

  lemma LostFrees(b: Bounds, w: World, i: Input)
    ensures Frees(b, w, Decided(w, Lost(i)), Left(b, w.state, w.p))
  {
    ClearedFrees(b, w, HandingBack, Some(Other));
    ClearedFrees(b, w, Resting, None);
  }

  lemma HandBackFrees(b: Bounds, w: World, i: Input)
    requires Steady(b, w) && w.p.Some?
    ensures Frees(b, w, Decided(w, HandBackIssue()), Now(b, w)) && Frees(b, w, Decided(w, HandBack(w.p.value, i)), Now(b, w))
  {
    ClearedFrees(b, w, HandingBack, Some(Other));
    ClearedFrees(b, w, Resting, None);
    WrittenOne(w, DropWorkspace);
    assert Decided(w, HandBackIssue()) == w.(ws := None, state := HandingBack, effect := Some(Other));
  }

  lemma FailureFrees(b: Bounds, w: World, q: Progress, i: Input)
    requires w.p.Some? && Running(q.correction)
    ensures Frees(b, w, Decided(w, FailCorrection(w, q, i)), Left(b, w.state, w.p))
  {
    LostFrees(b, w, i);
    if w.ws.Some? {
      WrittenTwo(w, Restore(q.correction.value.reviewed), Save(AsFailed(q, i.from)));
    }
  }

  lemma StopFrees(b: Bounds, w: World, q: Progress, i: Input)
    requires Steady(b, w) && w.p.Some? && q.pushed == w.p.value.pushed
    ensures Frees(b, w, Decided(w, Stop(w, q, i)), Now(b, w))
  {
    hide Decided;
    if Running(q.correction) {
      FailureFrees(b, w, q, i);
    } else {
      HandBackFrees(b, w, i);
      assert HandBack(q, i) == HandBack(w.p.value, i);
    }
  }

  lemma MoveFrees(b: Bounds, w: World, to: State, effect: Option<Effect>)
    requires Steady(b, w.(state := to)) && Left(b, to, w.p) <= Left(b, w.state, w.p)
    ensures Frees(b, w, Decided(w, Decision([], to, effect, [])), 0)
  {
  }

  lemma SavingFrees(b: Bounds, w: World, q: Progress, to: State, effect: Option<Effect>, k: nat)
    requires w.p.Some? && Left(b, to, Some(q)) + k <= Left(b, w.state, w.p)
    requires HasFailed(q.correction) || Unfailed(b, to, w.ws, q)
    ensures Frees(b, w, Decided(w, Decision([Save(q)], to, effect, [])), k)
  {
    WrittenOne(w, Save(q));
    assert Decided(w, Decision([Save(q)], to, effect, [])) == Wrote(w, Save(q)).(state := to, effect := effect);
  }

  // ---- Each transition ----

  lemma OneMore(a: nat, n: nat)
    ensures a * (n + 1) == a * n + a
  {
  }

  lemma NoFewer(a: nat, m: nat, n: nat)
    requires m <= n
    ensures a * m <= a * n
  {
  }

  lemma StartBegins(w: World, base: Commit)
    ensures var w1 := Written(w, [DropWorkspace, DropProgress, Fresh(base), Save(NewProgress(base))]);
            w1.p == Some(NewProgress(base)) && w1.made == w.made + 1 && w1.checks == w.checks && w1.state == w.state
  {
    var front, back := [DropWorkspace, DropProgress], [Fresh(base), Save(NewProgress(base))];
    assert front + back == [DropWorkspace, DropProgress, Fresh(base), Save(NewProgress(base))];
    WrittenBoth(w, front, back);
    WrittenTwo(w, DropWorkspace, DropProgress);
    WrittenTwo(Written(w, front), Fresh(base), Save(NewProgress(base)));
  }

  lemma NewHasFull(b: Bounds, base: Commit)
    ensures Left(b, Implementing, Some(NewProgress(base))) == Full(b)
  {
    OneMore(b.gate, 2 * b.fixes + 2);
  }

  lemma NewIsUnfailed(b: Bounds, base: Commit, ws: Option<Checkout>)
    requires b.gate > 0
    ensures Unfailed(b, Implementing, ws, NewProgress(base)) && !HasFailed(NewProgress(base).correction)
  {
  }

  lemma SessionFrees(b: Bounds, w: World, left: Checkout, q: Progress, to: State)
    requires w.state.Implementing? && w.p.Some? && (HasFailed(w.p.value.correction) || Unfailed(b, Implementing, w.ws, w.p.value))
    requires (q == w.p.value && Converging(to) && !to.Gating?) || (q == Given(w.p.value) && to.Gating?)
    ensures Frees(b, w, Written(w, [Leave(left), Save(q)]).(state := to, effect := None), 0)
  {
    WrittenTwo(w, Leave(left), Save(q));
  }

  /** A workspace begun brings its own checks with it. */
  lemma BegunPays(b: Bounds, w: World, w1: World, v: World)
    requires Frees(b, w1, v, 0) && w1.made == w.made + 1 && w1.checks == w.checks && Left(b, w1.state, w1.p) == Full(b)
    ensures Pays(b, w, v)
  {
    hide Left, Full, Steady;
    Distributes(1, 0, Full(b));
  }

  lemma RunOnPays(b: Bounds, w: World, i: Input, q: Progress, to: State)
    requires Steady(b, w) && w.state.Implementing? && Usable(w)
    requires (q == w.p.value && Converging(to) && !to.Gating?) || (q == Given(w.p.value) && to.Gating?)
    ensures Pays(b, w, Decided(w, Decision([] + [Leave(i.left), Save(q)], to, None, [])))
  {
    assert [] + [Leave(i.left), Save(q)] == [Leave(i.left), Save(q)];
    SessionFrees(b, w, i.left, q, to);
    FreesPays(b, w, Written(w, [Leave(i.left), Save(q)]).(state := to, effect := None), 0);
  }

  lemma RunAfreshPays(b: Bounds, w: World, i: Input, q: Progress, to: State)
    requires b.gate > 0 && w.state.Implementing?
    requires (q == NewProgress(i.base) && Converging(to) && !to.Gating?) || (q == Given(NewProgress(i.base)) && to.Gating?)
    ensures Pays(b, w, Decided(w, Decision([DropWorkspace, DropProgress, Fresh(i.base), Save(NewProgress(i.base))] + [Leave(i.left), Save(q)], to, None, [])))
  {
    var start := [DropWorkspace, DropProgress, Fresh(i.base), Save(NewProgress(i.base))];
    var w1 := Written(w, start);
    StartBegins(w, i.base);
    NewHasFull(b, i.base);
    NewIsUnfailed(b, i.base, w1.ws);
    WrittenBoth(w, start, [Leave(i.left), Save(q)]);
    SessionFrees(b, w1, i.left, q, to);
    BegunPays(b, w, w1, Written(w1, [Leave(i.left), Save(q)]).(state := to, effect := None));
    hide Written, Unfailed, Left, Full, Pays, Frees;
  }

  lemma RunPays(b: Bounds, w: World, i: Input)
    requires b.gate > 0 && Steady(b, w) && w.state.Implementing?
    ensures Pays(b, w, Decided(w, Run(w, i)))
  {
    hide Pays, Decided, Left, Frees;
    if i.session.NoCandidate? {
      MoveFrees(b, w, Deferred, None) by { DeferringIsSteady(b, w); }
      FreesPays(b, w, Decided(w, To(Deferred)), 0);
    } else if !Usable(w) && (if w.p.Some? then w.p.value.pushed.Some? else i.prOpen) {
      LostFrees(b, w, i);
      FreesPays(b, w, Decided(w, Lost(i)), Left(b, w.state, w.p));
    } else {
      var p := if Usable(w) then w.p.value else NewProgress(i.base);
      var q := if i.session.Transient? then p else Given(p);
      var to := if i.session.Finished? then Gating else if i.session.defers then Deferred else Implementing;
      if Usable(w) {
        RunOnPays(b, w, i, q, to);
      } else {
        RunAfreshPays(b, w, i, q, to);
      }
    }
  }

  lemma DeferringIsSteady(b: Bounds, w: World)
    requires Steady(b, w) && w.state.Implementing?
    ensures Steady(b, w.(state := Deferred)) && Left(b, Deferred, w.p) == Left(b, w.state, w.p)
  {
  }

  /** A decision that counts a check results in what it would without, but for the count. */
  lemma CheckPays(b: Bounds, w: World, d: Decision)
    requires d.facts == []
    requires var w1 := w.(checks := w.checks + 1); Frees(b, w1, Decided(w1, d), 1)
    ensures Pays(b, w, Decided(w, d.(facts := [GateChecked])))
  {
    SawOne(w, GateChecked);
  }

  lemma GatedFrees(b: Bounds, w: World, dirty: bool, passes: bool)
    requires Steady(b, w) && w.p.Some? && w.ws.Some? && w.state.Gating? && !HasFailed(w.p.value.correction)
    ensures var (gate, q) := Checked(w.p.value, w.ws.value, dirty, passes, b.gate);
            && (gate.Passed? ==> Frees(b, w, Decided(w, Saving(q, Pushing)), 1))
            && (gate.Failing? ==> Frees(b, w, Decided(w, Saving(q, Implementing)), 1))
  {
    var p := w.p.value;
    var (gate, q) := Checked(p, w.ws.value, dirty, passes, b.gate);
    assert Convergences(b, q) == Convergences(b, p);
    if gate.Passed? {
      SavingFrees(b, w, q, Pushing, None, 1);
    } else if gate.Failing? {
      SavingFrees(b, w, q, Implementing, None, 1);
    }
  }

  lemma CheckedKeepsPushed(p: Progress, ws: Checkout, dirty: bool, passes: bool, bound: nat)
    ensures Checked(p, ws, dirty, passes, bound).1.pushed == p.pushed
  {
  }

  lemma AttemptIsLeft(b: Bounds, w: World)
    requires Steady(b, w) && w.p.Some? && w.state.Gating? && !HasFailed(w.p.value.correction)
    ensures Now(b, w) >= 1 && Steady(b, w.(checks := w.checks + 1)) && Now(b, w.(checks := w.checks + 1)) == Now(b, w)
  {
  }

  lemma GatePays(b: Bounds, w: World, i: Input)
    requires Steady(b, w) && w.state.Gating?
    ensures Pays(b, w, Decided(w, RunGate(b, w, i)))
  {
    hide Pays, Decided, Stop, Cleared, Checked, Steady, Frees;
    if w.p.None? || w.ws.None? {
      ClearedFrees(b, w, Implementing, None);
      FreesPays(b, w, Decided(w, Cleared(Implementing, None)), Left(b, w.state, w.p));
      return;
    }
    var p, ws := w.p.value, w.ws.value;
    if !Over(p.correction, p.pushed).Making? {
      FailedFrees(b, w, StateOf(Over(p.correction, p.pushed)));
      FreesPays(b, w, Decided(w, To(StateOf(Over(p.correction, p.pushed)))), 0);
    } else if Running(p.correction) && !ws.switched && !Git.Ancestor(p.correction.value.reviewed, ws.head) {
      StopFrees(b, w, p, i);
      FreesPays(b, w, Decided(w, Stop(w, p, i)), Now(b, w));
    } else {
      var (gate, q) := Checked(p, ws, i.dirty, i.passes, b.gate);
      var w1 := w.(checks := w.checks + 1);
      AttemptIsLeft(b, w);
      CheckedKeepsPushed(p, ws, i.dirty, i.passes, b.gate);
      GatedFrees(b, w1, i.dirty, i.passes);
      StopFrees(b, w1, q, i);
      HandBackFrees(b, w1, i);
      StopIsStill(w, q, i);
      FreesLess(b, w1, Decided(w1, Stop(w1, q, i)), Now(b, w1), 1);
      FreesLess(b, w1, Decided(w1, HandBackIssue()), Now(b, w1), 1);
      CheckPays(b, w, RunGate(b, w, i).(facts := []));
    }
  }

  lemma CutFrees(b: Bounds, w: World)
    requires b.gate > 0 && Steady(b, w) && w.p.Some? && w.state.Pushing? && w.p.value.pushed.None? && !w.p.value.cut && w.p.value.correction.None?
    ensures Frees(b, w, Decided(w, Saving(w.p.value.(cut := true, cutting := true, attempts := 0), Implementing)), 0)
  {
    var p := w.p.value;
    var cut := p.(cut := true, cutting := true, attempts := 0);
    OneMore(b.gate, Convergences(b, cut));
    SavingFrees(b, w, cut, Implementing, None, 0);
  }

  lemma SendFrees(b: Bounds, w: World)
    requires Steady(b, w) && w.p.Some? && w.ws.Some? && w.state.Pushing?
    ensures Frees(b, w, Decided(w, Decision([Save(w.p.value.(head := Some(w.ws.value.head)))], Opening, Some(Push(w.ws.value.head, w.p.value.pushed)), [])), 0)
  {
    SavingFrees(b, w, w.p.value.(head := Some(w.ws.value.head)), Opening, Some(Push(w.ws.value.head, w.p.value.pushed)), 0);
  }

  lemma PushPays(b: Bounds, w: World, i: Input)
    requires b.gate > 0 && Inv(w) && Steady(b, w) && w.state.Pushing?
    ensures Pays(b, w, Decided(w, RunPush(w, i)))
  {
    var d := RunPush(w, i);
    FreedByPush(b, w, i);
    FreesPays(b, w, Decided(w, d), 0);
  }

  lemma FreedByPush(b: Bounds, w: World, i: Input)
    requires b.gate > 0 && Inv(w) && Steady(b, w) && w.state.Pushing?
    ensures Frees(b, w, Decided(w, RunPush(w, i)), 0)
  {
    hide Decided, Stop, Saving, Left;
    ClearedFrees(b, w, Implementing, None);
    if w.p.Some? && w.ws.Some? {
      var p := w.p.value;
      StopFrees(b, w, p, i);
      SendFrees(b, w);
      StaysFrees(b, w, Some(Other));
      if Over(p.correction, p.pushed).Edit? {
        FailedFrees(b, w, Reviewing);
      } else if p.pushed.None? && !p.cut {
        assert p.correction.None? by { assert Holds(w, p); }
        CutFrees(b, w);
      }
      assert HasFailed(p.correction) ==> !p.cutting by { assert Holds(w, p); }
    }
  }

  lemma StaysFrees(b: Bounds, w: World, effect: Option<Effect>)
    requires Steady(b, w)
    ensures Frees(b, w, Decided(w, Decision([], w.state, effect, [])), 0)
  {
  }

  lemma FailedFrees(b: Bounds, w: World, to: State)
    requires w.p.Some? && HasFailed(w.p.value.correction)
    ensures Frees(b, w, Decided(w, To(to)), 0)
  {
  }

  lemma LandedIsUnfailed(b: Bounds, w: World, q: Progress)
    requires Inv(w) && Steady(b, w) && w.p.Some? && w.state.Opening? && !HasFailed(q.correction)
    requires q == w.p.value.(pushed := w.p.value.head, pushedAt := q.pushedAt)
    ensures Unfailed(b, Opening, w.ws, q) && Unfailed(b, Watching, w.ws, q)
  {
    var p := w.p.value;
    assert Holds(w, p);
  }

  lemma LandedLeaves(b: Bounds, p: Progress, q: Progress)
    requires p.head.Some? && q == p.(pushed := p.head, pushedAt := q.pushedAt)
    ensures Left(b, Watching, Some(q)) == Left(b, HandingBack, Some(q)) == Left(b, Opening, Some(q)) <= Left(b, Opening, Some(p))
  {
    NoFewer(b.gate, Convergences(b, q), Convergences(b, p));
  }

  lemma LandedFrees(b: Bounds, w: World, q: Progress)
    requires Inv(w) && Steady(b, w) && w.p.Some? && w.state.Opening?
    requires q == w.p.value.(pushed := w.p.value.head, pushedAt := q.pushedAt)
    ensures Frees(b, w, Decided(w, Decision([Save(q)], Opening, Some(Other), [])), 0)
    ensures Frees(b, w, Decided(w, Decision([Save(q)], Watching, None, [])), 0)
    ensures Frees(b, w, Decided(w, Decision([Save(q), DropWorkspace], HandingBack, Some(Other), [])), 0)
  {
    assert w.p.value.head.Some? by { assert Holds(w, w.p.value); }
    if !HasFailed(q.correction) {
      LandedIsUnfailed(b, w, q);
    }
    LandedLeaves(b, w.p.value, q);
    hide Left, Inv;
    SavingFrees(b, w, q, Opening, Some(Other), 0);
    SavingFrees(b, w, q, Watching, None, 0);
    WrittenTwo(w, Save(q), DropWorkspace);
    assert Decided(w, Decision([Save(q), DropWorkspace], HandingBack, Some(Other), [])) == Wrote(w, Save(q)).(ws := None, state := HandingBack, effect := Some(Other));
  }

  lemma NotLandedFrees(b: Bounds, w: World)
    requires Steady(b, w) && w.p.Some? && w.state.Opening? && w.p.value.head != w.p.value.pushed
    ensures Frees(b, w, Decided(w, To(Pushing)), 0)
  {
    MoveFrees(b, w, Pushing, None);
  }

  lemma OpenPays(b: Bounds, w: World, i: Input)
    requires Inv(w) && Steady(b, w) && w.state.Opening?
    ensures Frees(b, w, Decided(w, RunOpen(w, i)), 0)
  {
    hide Decided, HandBack, Left, Steady;
    ClearedFrees(b, w, Implementing, None);
    if w.p.None? {
      UnrecordedFrees(b, w, Watching);
    } else {
      HandBackFrees(b, w, i);
      var (landing, q) := Land(w.p.value, w.remote, i.now);
      if landing.Landed? {
        LandedFrees(b, w, q);
      } else if landing.NotLanded? {
        NotLandedFrees(b, w);
      }
    }
  }

  lemma UnrecordedFrees(b: Bounds, w: World, to: State)
    requires w.p.None?
    ensures Frees(b, w, Decided(w, To(to)), 0)
  {
  }

  /** A red head sends the work back for one more convergence, and one fix fewer is left. */
  lemma RedFrees(b: Bounds, w: World, i: Input)
    requires b.gate > 0 && Steady(b, w) && w.p.Some? && w.state.Watching? && !HasFailed(w.p.value.correction)
    ensures var (ci, q) := Watched(w.p.value, w.remote, i.runs, i.required, i.late, b.fixes);
            ci.Red? ==> Frees(b, w, Decided(w, Saving(q, Implementing)), 0)
  {
    var p := w.p.value;
    var (ci, q) := Watched(p, w.remote, i.runs, i.required, i.late, b.fixes);
    if ci.Red? {
      assert FixesLeft(b, p) == FixesLeft(b, q) + 1;
      assert Convergences(b, p) == Convergences(b, q) + 1;
      OneMore(b.gate, Convergences(b, q));
      SavingFrees(b, w, q, Implementing, None, 0);
    }
  }

  lemma GreenFrees(b: Bounds, w: World)
    requires Steady(b, w) && w.p.Some? && w.state.Watching?
    ensures Frees(b, w, Decided(w, To(Reviewing).(facts := [Fact.Green(w.p.value.pushed)])), 0)
  {
    SawOne(w, Fact.Green(w.p.value.pushed));
  }

  lemma WatchFrees(b: Bounds, w: World, i: Input)
    requires b.gate > 0 && Steady(b, w) && w.state.Watching?
    ensures Frees(b, w, Decided(w, RunWatch(b, w, i)), 0)
  {
    hide Decided, Left, Steady, Watched, Saving, FailCorrection, Cleared;
    LostFrees(b, w, i);
    ClearedFrees(b, w, HandingBack, Some(Other));
    ClearedFrees(b, w, Resting, None);
    if w.p.Some? && i.prOpen {
      var p := w.p.value;
      if !Over(p.correction, p.pushed).Making? {
        FailedFrees(b, w, StateOf(Over(p.correction, p.pushed)));
        return;
      }
      StaysFrees(b, w, None);
      GreenFrees(b, w);
      RedFrees(b, w, i);
      var q := Watched(p, w.remote, i.runs, i.required, i.late, b.fixes).1;
      WatchedIsSameWork(p, w.remote, i.runs, i.required, i.late, b.fixes);
      SameWorkRunsOn(p, q);
      if Running(p.correction) {
        FailureFrees(b, w, q, i);
      }
    }
  }

  /** The correction takes its own convergence and fixes out of those left. */
  lemma BeginFrees(b: Bounds, w: World)
    requires b.gate > 0 && Steady(b, w) && w.p.Some? && w.state.Reviewing? && w.p.value.correction.None? && w.p.value.pushed.Some?
    ensures Frees(b, w, Decided(w, Saving(Begin(w.p.value), Implementing)), 0)
  {
    var p := w.p.value;
    OneMore(b.gate, b.fixes);
    NoFewer(b.gate, b.fixes + 1, Convergences(b, p));
    SavingFrees(b, w, Begin(p), Implementing, None, 0);
  }

  /** What was seen of the branch and the review changes nothing of what is left. */
  lemma SeenFrees(b: Bounds, w: World, d: Decision, facts: seq<Fact>)
    requires d.facts == [] && (facts == [Kept(w.remote)] || (w.p.Some? && facts == [Kept(w.remote), Reviewed(w.p.value.pushed)]))
    requires Frees(b, SawAll(w, facts), Decided(SawAll(w, facts), d), 0)
    ensures Frees(b, w, Decided(w, d.(facts := facts)), 0)
  {
    SeenKeeps(w, facts);
  }

  lemma SeenKeeps(w: World, facts: seq<Fact>)
    requires facts == [Kept(w.remote)] || (w.p.Some? && facts == [Kept(w.remote), Reviewed(w.p.value.pushed)])
    ensures var v := SawAll(w, facts);
            v.state == w.state && v.p == w.p && v.ws == w.ws && v.made == w.made && v.checks == w.checks
  {
    SawOne(w, Kept(w.remote));
    if w.p.Some? {
      SawTwo(w, Kept(w.remote), Reviewed(w.p.value.pushed));
    }
  }

  lemma ReviewMovesFree(b: Bounds, w: World, to: State, effect: Option<Effect>)
    requires Steady(b, w) && w.state.Reviewing? && (to.Reviewing? || to.HandingOff?)
    ensures Frees(b, w, Decided(w, Decision([], to, effect, [])), 0)
  {
  }

  lemma SteadySeen(b: Bounds, w: World, facts: seq<Fact>)
    requires Steady(b, w) && (facts == [Kept(w.remote)] || (w.p.Some? && facts == [Kept(w.remote), Reviewed(w.p.value.pushed)]))
    ensures Steady(b, SawAll(w, facts))
  {
    SeenKeeps(w, facts);
  }

  /** Unkilled, a correction met here is one whose push CI is green on, or one that failed. */
  lemma NextFrees(b: Bounds, w: World)
    requires Steady(b, w) && w.p.Some? && w.state.Reviewing? && w.p.value.correction.Some?
    ensures var s := Correcting.Next(w.p.value.correction, w.p.value.pushed);
            !s.Edit? ==> Frees(b, w, Decided(w, To(StateOf(s))), 0)
  {
    if HasFailed(w.p.value.correction) {
      FailedFrees(b, w, StateOf(Correcting.Next(w.p.value.correction, w.p.value.pushed)));
    }
  }

  lemma ReviewFrees(b: Bounds, w: World, i: Input)
    requires b.gate > 0 && Inv(w) && Steady(b, w) && w.state.Reviewing?
    ensures Frees(b, w, Decided(w, RunReview(w, i)), 0)
  {
    assert w.p.Some? ==> w.p.value.pushed.Some?;
    hide Decided, Left, Saving, Cleared, SawAll, Begin, Frees, Steady, Inv;
    LostFrees(b, w, i);
    ClearedFrees(b, w, HandingBack, Some(Other));
    ClearedFrees(b, w, Resting, None);
    var all := Left(b, w.state, w.p);
    FreesLess(b, w, Decided(w, Lost(i)), all, 0);
    FreesLess(b, w, Decided(w, HandBackPR()), all, 0);
    FreesLess(b, w, Decided(w, Cleared(Resting, None)), all, 0);
    if w.p.Some? && i.prOpen {
      var p := w.p.value;
      var kept, found := [Kept(w.remote)], [Kept(w.remote), Reviewed(p.pushed)];
      var w1, w2 := SawAll(w, kept), SawAll(w, found);
      SteadySeen(b, w, kept);
      SeenKeeps(w, kept);
      ReviewMovesFree(b, w1, Reviewing, Some(Other));
      ReviewMovesFree(b, w1, HandingOff, None);
      SeenFrees(b, w, Decision([], Reviewing, Some(Other), []), kept);
      SeenFrees(b, w, To(HandingOff), kept);
      if p.correction.Some? {
        NextFrees(b, w);
      } else {
        SteadySeen(b, w, found);
        SeenKeeps(w, found);
        ReviewMovesFree(b, w2, HandingOff, None);
        SeenFrees(b, w, To(HandingOff), found);
        BeginFrees(b, w2);
        SeenFrees(b, w, Saving(Begin(p), Implementing), found);
      }
    }
  }

  lemma PassingPays(b: Bounds, w: World, i: Input)
    requires b.gate > 0 && Inv(w) && Steady(b, w) && (w.state.Opening? || w.state.Watching? || w.state.Reviewing? || w.state.Deferred?)
    ensures Frees(b, w, Decided(w, Decide(b, w, i)), 0)
  {
    match w.state
    case Opening => OpenPays(b, w, i);
    case Watching => WatchFrees(b, w, i);
    case Reviewing => ReviewFrees(b, w, i);
    case Deferred => MoveFrees(b, w, Implementing, None);
  }

  lemma EndingFrees(b: Bounds, w: World, i: Input)
    requires Steady(b, w) && (w.state.Resting? || w.state.HandingOff? || w.state.HandingBack?)
    ensures Frees(b, w, Decided(w, Decide(b, w, i)), 0)
  {
    ClearedFrees(b, w, Implementing, None);
    ClearedFrees(b, w, HandingBack, Some(Other));
    ClearedFrees(b, w, Resting, None);
    LostFrees(b, w, i);
    StaysFrees(b, w, None);
    StaysFrees(b, w, Some(Label));
    hide Decided, Cleared, Left, Steady;
  }

  lemma DecisionPays(b: Bounds, w: World, i: Input)
    requires b.gate > 0 && Inv(w) && Steady(b, w)
    ensures Pays(b, w, Decided(w, Decide(b, w, i)))
  {
    hide Decided, Pays, Frees, Inv, Steady, Run, RunGate, RunPush;
    match w.state {
      case Implementing => RunPays(b, w, i);
      case Gating => GatePays(b, w, i);
      case Pushing => PushPays(b, w, i);
      case Resting => EndingFrees(b, w, i); FreesPays(b, w, Decided(w, Decide(b, w, i)), 0);
      case HandingOff => EndingFrees(b, w, i); FreesPays(b, w, Decided(w, Decide(b, w, i)), 0);
      case HandingBack => EndingFrees(b, w, i); FreesPays(b, w, Decided(w, Decide(b, w, i)), 0);
      case _ => PassingPays(b, w, i); FreesPays(b, w, Decided(w, Decide(b, w, i)), 0);
    }
  }

  // ---- Runs ----

  lemma StepPays(b: Bounds, w: World, s: Event)
    requires b.gate > 0 && Inv(w) && Steady(b, w) && Enabled(b, w, s) && !Delivery.Next(b, w, s).killed
    ensures Pays(b, w, Delivery.Next(b, w, s)) && !w.killed
  {
    match s
    case Transition(i) => DecisionPays(b, w, i); WrittenKeepsKilled(SawAll(w, Decide(b, w, i).facts), Decide(b, w, i).writes); SeenKeepsKilled(w, Decide(b, w, i).facts);
    case Killed(_, _) =>
    case Perform =>
    case Lose =>
    case Foreign(_) =>
  }

  lemma {:induction false} WrittenKeepsKilled(w: World, writes: seq<Write>)
    ensures Written(w, writes).killed == w.killed
    decreases |writes|
  {
    if writes != [] {
      WrittenKeepsKilled(Wrote(w, writes[0]), writes[1..]);
    }
  }

  lemma {:induction false} SeenKeepsKilled(w: World, facts: seq<Fact>)
    ensures SawAll(w, facts).killed == w.killed
    decreases |facts|
  {
    if facts != [] {
      SeenKeepsKilled(Saw(w, facts[0]), facts[1..]);
    }
  }

  lemma {:induction false} RunPaysUp(b: Bounds, w: World, steps: seq<Event>)
    requires b.gate > 0 && Inv(w) && Steady(b, w) && Runs(b, w, steps) && !After(b, w, steps).killed
    ensures !w.killed && Pays(b, w, After(b, w, steps))
    decreases |steps|
  {
    if steps != [] {
      var v := Delivery.Next(b, w, steps[0]);
      StepKeepsInv(b, w, steps[0]);
      if v.killed {
        KilledForGood(b, v, steps[1..]);
      }
      StepPays(b, w, steps[0]);
      RunPaysUp(b, v, steps[1..]);
      PaysInTurn(b, w, v, After(b, v, steps[1..]));
    }
  }

  lemma Distributes(m: int, n: int, f: nat)
    ensures (m + n) * f == m * f + n * f
  {
  }

  lemma PaysInTurn(b: Bounds, w: World, v: World, u: World)
    requires Pays(b, w, v) && Pays(b, v, u)
    ensures Pays(b, w, u)
  {
    hide Steady, Left, Full;
    Distributes(u.made - v.made, v.made - w.made, Full(b));
  }

  lemma {:induction false} KilledForGood(b: Bounds, w: World, steps: seq<Event>)
    requires w.killed && Runs(b, w, steps)
    ensures After(b, w, steps).killed
    decreases |steps|
  {
    if steps != [] {
      match steps[0] {
        case Transition(i) => WrittenKeepsKilled(SawAll(w, Decide(b, w, i).facts), Decide(b, w, i).writes); SeenKeepsKilled(w, Decide(b, w, i).facts);
        case _ =>
      }
      KilledForGood(b, Delivery.Next(b, w, steps[0]), steps[1..]);
    }
  }

  /** However CI, the session and the review job answer, a delivery that is never killed checks its gate at most
      A * (2F + 3) times for each workspace it begins. */
  lemma GateChecksAreBounded(b: Bounds, w: World, steps: seq<Event>)
    requires b.gate > 0 && Init(w) && Runs(b, w, steps) && !After(b, w, steps).killed
    ensures var v := After(b, w, steps); v.checks <= v.made * (b.gate * (2 * b.fixes + 3))
  {
    RunPaysUp(b, w, steps);
  }
}
