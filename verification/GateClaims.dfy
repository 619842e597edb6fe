/** When one delivery keeps to the bound on gate checks: as often as a job is claimed, and as often as a session strays -
    fails transiently, before the first push, having left the work's branch - a workspace is begun afresh, and no more. */
module GateClaims {
  import opened Base
  import Git
  import opened Correcting
  import opened Work
  import opened Delivery
  import opened DeliverySafety
  import opened GateBound

  /** The next session begins a workspace afresh. */
  predicate Afresh(w: World) {
    && (w.state.Implementing? || w.state.Deferred?)
    && !Usable(w) && (w.p.Some? ==> w.p.value.pushed.None?)
  }

  function Credit(w: World): nat {
    if Afresh(w) then 1 else 0
  }

  /** A human asks for the work, and the job is claimed. */
  predicate IsClaim(w: World, i: Input) {
    w.state.Resting? && !i.prOpen
  }

  /** A session runs before the first push, and fails transiently having left the work's branch. */
  predicate IsStray(w: World, i: Input) {
    && w.state.Implementing? && i.session.Transient? && i.left.switched
    && if w.p.Some? then w.p.value.pushed.None? else !i.prOpen
  }

  function Allowed(w: World, i: Input): nat {
    if IsClaim(w, i) || IsStray(w, i) then 1 else 0
  }

  /** Unkilled, the progress and the workspace are there from the gate to the hand-off, on the work's branch once the gate
      has passed. */
  predicate Housed(w: World) {
    && (w.state.Gating? || w.state.Pushing? || w.state.Opening? || w.state.Watching? || w.state.Reviewing? ==> w.p.Some? && w.ws.Some?)
    && (w.state.Pushing? || w.state.Opening? || w.state.Watching? || w.state.Reviewing? ==> !w.ws.value.switched)
  }

  /** From `w` to `v`, no workspace was begun but one that was due, and none is due but one `more`. */
  predicate Accounts(w: World, v: World, more: nat) {
    Housed(v) && v.made + Credit(v) <= w.made + Credit(w) + more
  }

  // ---- Each shape of decision ----

  lemma {:induction false} SeenTouchesNothing(w: World, facts: seq<Fact>)
    ensures var v := SawAll(w, facts); v.p == w.p && v.ws == w.ws && v.made == w.made && v.state == w.state
    decreases |facts|
  {
    if facts != [] {
      SeenTouchesNothing(Saw(w, facts[0]), facts[1..]);
    }
  }

  /** What was seen on the way to a decision changes nothing that is accounted. */
  lemma SeenAccounts(w: World, d: Decision, more: nat)
    requires Accounts(SawAll(w, d.facts), Decided(SawAll(w, d.facts), d.(facts := [])), more)
    ensures Accounts(w, Decided(w, d), more)
  {
    SeenTouchesNothing(w, d.facts);
  }

  lemma MoveAccounts(w: World, to: State, effect: Option<Effect>, more: nat)
    requires Housed(w.(state := to)) && Credit(w.(state := to)) <= Credit(w) + more
    ensures Accounts(w, Decided(w, Decision([], to, effect, [])), more)
  {
  }

  /** Cleared, the job rests, is handed back, or begins afresh as it is claimed. */
  lemma ClearedAccounts(w: World, to: State, effect: Option<Effect>, more: nat)
    requires to.Resting? || to.HandingBack? || (to.Implementing? && more > 0)
    ensures Accounts(w, Decided(w, Cleared(to, effect)), more)
  {
    WrittenTwo(w, DropWorkspace, DropProgress);
  }

  lemma HandBackAccounts(w: World, p: Progress, i: Input)
    ensures Accounts(w, Decided(w, HandBackIssue()), 0) && Accounts(w, Decided(w, HandBackPR()), 0)
    ensures Accounts(w, Decided(w, Lost(i)), 0) && Accounts(w, Decided(w, HandBack(p, i)), 0)
  {
    ClearedAccounts(w, HandingBack, Some(Other), 0);
    ClearedAccounts(w, Resting, None, 0);
    WrittenOne(w, DropWorkspace);
  }

  /** Saved with the workspace at hand and on its branch, to where it is kept or gone on in. */
  lemma SavingAccounts(w: World, p: Progress, to: State, effect: Option<Effect>)
    requires w.p.Some? && w.ws.Some? && !w.ws.value.switched
    ensures Accounts(w, Decided(w, Decision([Save(p)], to, effect, [])), 0)
  {
    WrittenOne(w, Save(p));
  }

  lemma FailureAccounts(w: World, p: Progress, i: Input)
    requires w.p.Some? && Running(p.correction)
    ensures Accounts(w, Decided(w, FailCorrection(w, p, i)), 0)
  {
    HandBackAccounts(w, p, i);
    if w.ws.Some? {
      WrittenTwo(w, Restore(p.correction.value.reviewed), Save(AsFailed(p, i.from)));
    }
  }

  lemma StopAccounts(w: World, p: Progress, i: Input)
    requires w.p.Some?
    ensures Accounts(w, Decided(w, Stop(w, p, i)), 0)
  {
    hide Decided, Accounts;
    if Running(p.correction) {
      FailureAccounts(w, p, i);
    } else {
      HandBackAccounts(w, p, i);
    }
  }

  // ---- Each transition ----

  lemma SessionAccounts(w: World, left: Checkout, q: Progress, to: State)
    requires w.state.Implementing? && Usable(w) && q.pushed == w.p.value.pushed
    requires to.Gating? || to.Implementing? || to.Deferred?
    ensures var v := Written(w, [Leave(left), Save(q)]).(state := to, effect := None);
            Accounts(w, v, if !to.Gating? && left.switched && q.pushed.None? then 1 else 0)
  {
    WrittenTwo(w, Leave(left), Save(q));
  }

  lemma BegunIsUsable(w: World, base: Commit)
    ensures var w1 := Written(w, [DropWorkspace, DropProgress, Fresh(base), Save(NewProgress(base))]);
            w1.ws == Some(Checkout(false, base)) && w1.state == w.state
  {
    var front, back := [DropWorkspace, DropProgress], [Fresh(base), Save(NewProgress(base))];
    assert front + back == [DropWorkspace, DropProgress, Fresh(base), Save(NewProgress(base))];
    WrittenBoth(w, front, back);
    WrittenTwo(w, DropWorkspace, DropProgress);
    WrittenTwo(Written(w, front), Fresh(base), Save(NewProgress(base)));
  }

  lemma RunAccounts(w: World, i: Input)
    requires w.state.Implementing?
    ensures Accounts(w, Decided(w, Run(w, i)), Allowed(w, i))
  {
    if i.session.NoCandidate? {
      MoveAccounts(w, Deferred, None, 0);
    } else if !Usable(w) && (if w.p.Some? then w.p.value.pushed.Some? else i.prOpen) {
      HandBackAccounts(w, NewProgress(i.base), i);
    } else {
      var start := if Usable(w) then [] else [DropWorkspace, DropProgress, Fresh(i.base), Save(NewProgress(i.base))];
      var p := if Usable(w) then w.p.value else NewProgress(i.base);
      var q := if i.session.Transient? then p else Given(p);
      var to := if i.session.Finished? then Gating else if i.session.defers then Deferred else Implementing;
      var w1 := Written(w, start);
      if !Usable(w) {
        StartBegins(w, i.base);
        BegunIsUsable(w, i.base);
      }
      WrittenBoth(w, start, [Leave(i.left), Save(q)]);
      SessionAccounts(w1, i.left, q, to);
      assert Run(w, i) == Decision(start + [Leave(i.left), Save(q)], to, None, []);
    }
  }

  lemma FailedIsHoused(w: World)
    requires Inv(w) && w.p.Some? && w.ws.Some? && HasFailed(w.p.value.correction)
    ensures !w.ws.value.switched
  {
    assert Holds(w, w.p.value);
  }

  lemma OverAccounts(w: World, to: State)
    requires w.p.Some? && w.ws.Some? && !w.ws.value.switched && (to.Implementing? || to.Pushing? || to.Reviewing?)
    ensures Accounts(w, Decided(w, To(to)), 0)
  {
    MoveAccounts(w, to, None, 0);
  }

  lemma AfterGateAccounts(w: World, gate: Gate, q: Progress, i: Input)
    requires w.p.Some? && w.ws.Some? && (gate.Passed? || gate.Failing? ==> !w.ws.value.switched)
    ensures Accounts(w, Decided(w, AfterGate(w, gate, q, i)), 0)
  {
    hide Decided, Accounts, Stop;
    StopAccounts(w, q, i);
    HandBackAccounts(w, q, i);
    if !w.ws.value.switched {
      SavingAccounts(w, q, Pushing, None);
      SavingAccounts(w, q, Implementing, None);
    }
  }

  lemma CheckedIsOnBranch(p: Progress, ws: Checkout, dirty: bool, passes: bool, bound: nat)
    ensures var gate := Checked(p, ws, dirty, passes, bound).0; gate.Passed? || gate.Failing? ==> !ws.switched
  {
  }

  lemma GateReadsTheSame(w: World, gate: Gate, q: Progress, i: Input)
    ensures AfterGate(SawAll(w, [GateChecked]), gate, q, i) == AfterGate(w, gate, q, i) && AfterGate(w, gate, q, i).facts == []
  {
    SawOne(w, GateChecked);
  }

  lemma GateAccounts(b: Bounds, w: World, i: Input)
    requires Inv(w) && Housed(w) && w.state.Gating?
    ensures Accounts(w, Decided(w, RunGate(b, w, i)), 0)
  {
    hide Decided, Accounts, Stop, AfterGate, Checked, Inv;
    var p, ws := w.p.value, w.ws.value;
    if !Over(p.correction, p.pushed).Making? {
      FailedIsHoused(w);
      OverAccounts(w, StateOf(Over(p.correction, p.pushed)));
    } else if Running(p.correction) && !ws.switched && !Git.Ancestor(p.correction.value.reviewed, ws.head) {
      StopAccounts(w, p, i);
    } else {
      var (gate, q) := Checked(p, ws, i.dirty, i.passes, b.gate);
      CheckedIsOnBranch(p, ws, i.dirty, i.passes, b.gate);
      var d := AfterGate(w, gate, q, i);
      GateReadsTheSame(w, gate, q, i);
      SeenTouchesNothing(w, [GateChecked]);
      AfterGateAccounts(SawAll(w, [GateChecked]), gate, q, i);
      assert d.(facts := [GateChecked]).(facts := []) == d;
      SeenAccounts(w, d.(facts := [GateChecked]), 0);
    }
  }

  lemma PushAccounts(w: World, i: Input)
    requires Housed(w) && w.state.Pushing?
    ensures Accounts(w, Decided(w, RunPush(w, i)), 0)
  {
    hide Decided, Accounts, Stop, Saving;
    var p := w.p.value;
    OverAccounts(w, Implementing);
    OverAccounts(w, Reviewing);
    StopAccounts(w, p, i);
    MoveAccounts(w, Pushing, Some(Other), 0);
    CutAccounts(w);
    SavingAccounts(w, p.(head := Some(w.ws.value.head)), Opening, Some(Push(w.ws.value.head, p.pushed)));
  }

  lemma CutAccounts(w: World)
    requires w.p.Some? && w.ws.Some? && !w.ws.value.switched
    ensures Accounts(w, Decided(w, Saving(w.p.value.(cut := true, cutting := true, attempts := 0), Implementing)), 0)
  {
    SavingAccounts(w, w.p.value.(cut := true, cutting := true, attempts := 0), Implementing, None);
  }

  lemma OpenAccounts(w: World, i: Input)
    requires Housed(w) && w.state.Opening?
    ensures Accounts(w, Decided(w, RunOpen(w, i)), 0)
  {
    var p := w.p.value;
    var q := Land(p, w.remote, i.now).1;
    HandBackAccounts(w, p, i);
    OverAccounts(w, Pushing);
    SavingAccounts(w, q, Opening, Some(Other));
    SavingAccounts(w, q, Watching, None);
    KeptAccounts(w, q);
    hide Decided, Accounts, HandBack, To;
  }

  lemma KeptAccounts(w: World, q: Progress)
    ensures Accounts(w, Decided(w, Decision([Save(q), DropWorkspace], HandingBack, Some(Other), [])), if w.p.None? then 1 else 0)
  {
    WrittenTwo(w, Save(q), DropWorkspace);
  }

  lemma SeenMoveAccounts(w: World, to: State, effect: Option<Effect>, facts: seq<Fact>)
    requires w.p.Some? && w.ws.Some? && !w.ws.value.switched
    ensures Accounts(w, Decided(w, Decision([], to, effect, facts)), 0)
  {
    SeenTouchesNothing(w, facts);
    MoveAccounts(SawAll(w, facts), to, effect, 0);
    SeenAccounts(w, Decision([], to, effect, facts), 0);
  }

  lemma WatchAccounts(b: Bounds, w: World, i: Input)
    requires Housed(w) && w.state.Watching?
    ensures Accounts(w, Decided(w, RunWatch(b, w, i)), 0)
  {
    var p := w.p.value;
    var q := Watched(p, w.remote, i.runs, i.required, i.late, b.fixes).1;
    WatchedIsSameWork(p, w.remote, i.runs, i.required, i.late, b.fixes);
    SameWorkRunsOn(p, q);
    hide Decided, Accounts, Watched, FailCorrection, Cleared;
    HandBackAccounts(w, p, i);
    ClearedAccounts(w, Resting, None, 0);
    OverAccounts(w, StateOf(Over(p.correction, p.pushed)));
    SeenMoveAccounts(w, Watching, None, []);
    SeenMoveAccounts(w, Reviewing, None, [Fact.Green(p.pushed)]);
    SavingAccounts(w, q, Implementing, None);
    if Running(p.correction) {
      FailureAccounts(w, q, i);
    }
  }

  lemma BeginAccounts(w: World)
    requires w.p.Some? && w.ws.Some? && !w.ws.value.switched && w.p.value.pushed.Some?
    ensures Accounts(w, Decided(w, Saving(Begin(w.p.value), Implementing).(facts := [Kept(w.remote), Reviewed(w.p.value.pushed)])), 0)
  {
    var facts := [Kept(w.remote), Reviewed(w.p.value.pushed)];
    SeenTouchesNothing(w, facts);
    SavingAccounts(SawAll(w, facts), Begin(w.p.value), Implementing, None);
    SeenAccounts(w, Saving(Begin(w.p.value), Implementing).(facts := facts), 0);
  }

  lemma ReviewAccounts(w: World, i: Input)
    requires Housed(w) && w.state.Reviewing?
    ensures Accounts(w, Decided(w, RunReview(w, i)), 0)
  {
    hide Decided, Accounts, Cleared, Begin;
    var p := w.p.value;
    HandBackAccounts(w, p, i);
    ClearedAccounts(w, Resting, None, 0);
    OverAccounts(w, StateOf(Correcting.Next(p.correction, p.pushed)));
    SeenMoveAccounts(w, Reviewing, Some(Other), [Kept(w.remote)]);
    SeenMoveAccounts(w, HandingOff, None, [Kept(w.remote)]);
    SeenMoveAccounts(w, HandingOff, None, [Kept(w.remote), Reviewed(p.pushed)]);
    if p.pushed.Some? {
      BeginAccounts(w);
    }
  }

  lemma RestAccounts(b: Bounds, w: World, i: Input)
    requires w.state.Resting? || w.state.Deferred? || w.state.HandingOff? || w.state.HandingBack?
    ensures Accounts(w, Decided(w, Decide(b, w, i)), Allowed(w, i))
  {
    HandBackAccounts(w, NewProgress(i.base), i);
    ClearedAccounts(w, Resting, None, 0);
    ClearedAccounts(w, HandingBack, Some(Other), 0);
    ClearedAccounts(w, Implementing, None, 1);
  }

  lemma DecisionAccounts(b: Bounds, w: World, i: Input)
    requires Inv(w) && Housed(w)
    ensures Accounts(w, Decided(w, Decide(b, w, i)), Allowed(w, i))
  {
    hide Decided, Inv, Run, RunGate, RunPush, RunOpen, RunWatch, RunReview;
    match w.state
    case Implementing => RunAccounts(w, i);
    case Gating => GateAccounts(b, w, i);
    case Pushing => PushAccounts(w, i);
    case Opening => OpenAccounts(w, i);
    case Watching => WatchAccounts(b, w, i);
    case Reviewing => ReviewAccounts(w, i);
    case _ => RestAccounts(b, w, i);
  }

  // ---- Runs ----

  function AllowedBy(w: World, s: Event): nat {
    if s.Transition? then Allowed(w, s.i) else 0
  }

  /** The claims and the strays of a run. */
  ghost function ClaimsAndStrays(b: Bounds, w: World, steps: seq<Event>): nat
    requires Runs(b, w, steps)
    decreases |steps|
  {
    if steps == [] then 0 else AllowedBy(w, steps[0]) + ClaimsAndStrays(b, Delivery.Next(b, w, steps[0]), steps[1..])
  }

  lemma StepAccounts(b: Bounds, w: World, s: Event)
    requires Inv(w) && Housed(w) && Enabled(b, w, s) && !s.Killed?
    ensures Accounts(w, Delivery.Next(b, w, s), AllowedBy(w, s))
  {
    match s
    case Transition(i) => DecisionAccounts(b, w, i);
    case Perform =>
    case Lose =>
    case Foreign(_) =>
  }

  lemma {:induction false} RunAccountsUp(b: Bounds, w: World, steps: seq<Event>)
    requires Inv(w) && Housed(w) && Runs(b, w, steps) && !After(b, w, steps).killed
    ensures After(b, w, steps).made <= w.made + Credit(w) + ClaimsAndStrays(b, w, steps)
    decreases |steps|
  {
    if steps != [] {
      var v := Delivery.Next(b, w, steps[0]);
      StepKeepsInv(b, w, steps[0]);
      if v.killed {
        KilledForGood(b, v, steps[1..]);
      }
      hide Inv, Enabled;
      StepAccounts(b, w, steps[0]);
      RunAccountsUp(b, v, steps[1..]);
    }
  }

  lemma TimesNoMore(m: nat, n: nat, f: nat)
    requires m <= n
    ensures m * f <= n * f
  {
  }

  /** However CI, the session and the review job answer, an unkilled run checks the gate at most A * (2F + 3) times for
      each time the job was claimed and each time a session strayed. */
  lemma ChecksAreBoundedByClaimsAndStrays(b: Bounds, w: World, steps: seq<Event>)
    requires b.gate > 0 && Init(w) && Runs(b, w, steps) && !After(b, w, steps).killed
    ensures After(b, w, steps).checks <= ClaimsAndStrays(b, w, steps) * (b.gate * (2 * b.fixes + 3))
  {
    GateChecksAreBounded(b, w, steps);
    RunAccountsUp(b, w, steps);
    TimesNoMore(After(b, w, steps).made, ClaimsAndStrays(b, w, steps), b.gate * (2 * b.fixes + 3));
  }

  /** So one delivery none of whose sessions strays keeps to the bound it is promised. */
  lemma OneDeliveryIsBounded(b: Bounds, w: World, steps: seq<Event>)
    requires b.gate > 0 && Init(w) && Runs(b, w, steps) && !After(b, w, steps).killed
    requires ClaimsAndStrays(b, w, steps) <= 1
    ensures After(b, w, steps).checks <= b.gate * (2 * b.fixes + 3)
  {
    ChecksAreBoundedByClaimsAndStrays(b, w, steps);
    TimesNoMore(ClaimsAndStrays(b, w, steps), 1, b.gate * (2 * b.fixes + 3));
  }
}
