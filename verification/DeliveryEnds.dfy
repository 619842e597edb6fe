/** That a delivery ends: while nothing is killed, every move it makes that is neither a wait nor a push to be made again
    lowers a lexicographic measure - the convergences left, then the attempts left in the one under way, then how far the
    states are from the end - which only a claim, or a session that strays, sets up anew. */
module DeliveryEnds {
  import opened Base
  import Git
  import opened Correcting
  import opened Work
  import opened Delivery
  import opened DeliverySafety
  import opened GateBound
  import opened GateClaims

  // ---- The measure ----

  function Rank(state: State): nat {
    match state
    case Implementing => 8
    case Deferred => 8
    case Gating => 7
    case Pushing => 6
    case Opening => 5
    case Watching => 4
    case Reviewing => 3
    case HandingOff => 2
    case HandingBack => 1
    case Resting => 0
  }

  /** A correction that failed, with the head its review read still to be pushed back. */
  predicate ToPushBack(p: Progress) {
    HasFailed(p.correction) && p.pushed != Some(p.correction.value.reviewed)
  }

  /** How far the state is from the end, with a push back still ahead of the watch. */
  function Ahead(state: State, p: Progress): nat {
    if ToPushBack(p) && state.Watching? then 7 else Rank(state)
  }

  /** The convergences left, this one among them. */
  function Rounds(b: Bounds, p: Progress): nat {
    if HasFailed(p.correction) then 0 else 1 + Convergences(b, p)
  }

  /** The attempts left in this one, or the push back. */
  function Tries(b: Bounds, state: State, p: Progress): nat {
    if HasFailed(p.correction) then (if ToPushBack(p) then 1 else 0) else Current(b, state, p)
  }

  /** From `p` in `state` to `q` in `to`, the measure is lower. */
  predicate Lower(b: Bounds, state: State, p: Progress, to: State, q: Progress) {
    || Rounds(b, q) < Rounds(b, p)
    || (Rounds(b, q) == Rounds(b, p)
        && (|| Tries(b, to, q) < Tries(b, state, p)
            || (Tries(b, to, q) == Tries(b, state, p) && Ahead(to, q) < Ahead(state, p))))
  }

  /** The measure as one number. */
  function Weight(b: Bounds, state: State, p: Option<Progress>): nat {
    if p.None? then (if Converging(state) then 0 else Rank(state))
    else 10 * (Rounds(b, p.value) * (b.gate + 1) + Tries(b, state, p.value)) + Ahead(state, p.value)
  }

  /** Of a workspace just begun. */
  function Anew(b: Bounds): nat {
    10 * ((2 * b.fixes + 3) * (b.gate + 1) + b.gate) + 8
  }

  lemma MoreRounds(m: nat, n: nat, g: nat)
    requires m < n
    ensures m * g + g <= n * g
  {
    OneMore(g, m);
    NoFewer(g, m + 1, n);
  }

  lemma LowerWeighsLess(b: Bounds, state: State, p: Progress, to: State, q: Progress)
    requires b.gate > 0 && Lower(b, state, p, to, q)
    ensures Weight(b, to, Some(q)) < Weight(b, state, Some(p))
  {
    if Rounds(b, q) < Rounds(b, p) {
      MoreRounds(Rounds(b, q), Rounds(b, p), b.gate + 1);
      assert Tries(b, to, q) <= b.gate;
    }
    hide Rounds, Tries;
  }

  lemma NewWeighs(b: Bounds, base: Commit, state: State)
    requires b.gate > 0 && Converging(state)
    ensures Weight(b, state, Some(NewProgress(base))) + (if state.Gating? then 1 else 0) == Anew(b)
  {
    assert Rounds(b, NewProgress(base)) == 2 * b.fixes + 3;
  }

  // ---- What a decision does to it ----

  /** The progress once the writes are made. */
  function Put(p: Option<Progress>, writes: seq<Write>): Option<Progress>
    decreases |writes|
  {
    if writes == [] then p
    else Put(match writes[0] case Save(q) => Some(q) case DropProgress => None case _ => p, writes[1..])
  }

  lemma {:induction false} WrittenPuts(w: World, writes: seq<Write>)
    ensures Written(w, writes).p == Put(w.p, writes)
    decreases |writes|
  {
    if writes != [] {
      WrittenPuts(Wrote(w, writes[0]), writes[1..]);
    }
  }

  lemma PutOne(p: Option<Progress>, a: Write)
    ensures Put(p, [a]) == match a case Save(q) => Some(q) case DropProgress => None case _ => p
  {
    assert [a][1..] == [];
  }

  lemma PutTwo(p: Option<Progress>, a: Write, c: Write)
    ensures Put(p, [a, c]) == Put(Put(p, [a]), [c])
  {
    PutOne(p, a);
    assert [a, c][1..] == [c];
  }

  /** The job stays where it is, or is put off, or comes back from that. */
  predicate Waits(state: State, to: State) {
    state == to || state.Deferred? || to.Deferred?
  }

  /** A push that did not land is to be made again. */
  predicate SetsBack(state: State, to: State) {
    state.Opening? && to.Pushing?
  }

  /** A move, neither a wait nor a push made again. */
  function Moved(state: State, to: State): nat {
    if Waits(state, to) || SetsBack(state, to) then 0 else 1
  }

  function PutBack(state: State, to: State): nat {
    if SetsBack(state, to) then 1 else 0
  }

  /** The decision lowers the measure if it is a move, and at most keeps it otherwise. */
  predicate Sinks(b: Bounds, w: World, d: Decision) {
    Weight(b, d.to, Put(w.p, d.writes)) + Moved(w.state, d.to) <= Weight(b, w.state, w.p) + PutBack(w.state, d.to)
  }

  lemma LowerSinks(b: Bounds, w: World, q: Progress, d: Decision)
    requires b.gate > 0 && w.p.Some? && Put(w.p, d.writes) == Some(q) && Lower(b, w.state, w.p.value, d.to, q)
    ensures Sinks(b, w, d)
  {
    LowerWeighsLess(b, w.state, w.p.value, d.to, q);
    hide Weight, Lower;
  }

  lemma SameSinks(b: Bounds, w: World, d: Decision)
    requires d.writes == [] && d.to == w.state
    ensures Sinks(b, w, d)
  {
    hide Weight;
  }

  /** Everything of the work goes. */
  lemma ClearedSinks(b: Bounds, w: World, to: State, effect: Option<Effect>)
    requires !Converging(to) && (Rank(to) < Rank(w.state) || to == w.state) && (w.p.None? ==> !Converging(w.state))
    ensures Sinks(b, w, Cleared(to, effect))
  {
    PutTwo(w.p, DropWorkspace, DropProgress);
    PutOne(w.p, DropWorkspace);
    PutOne(w.p, DropProgress);
  }

  lemma HandBackSinks(b: Bounds, w: World, p: Progress, i: Input)
    requires b.gate > 0 && w.p.Some? && 2 <= Rank(w.state) <= 7
    ensures Sinks(b, w, HandBackIssue()) && Sinks(b, w, HandBackPR()) && Sinks(b, w, HandBack(p, i)) && Sinks(b, w, Lost(i))
    ensures Sinks(b, w, Cleared(Resting, None))
  {
    ClearedSinks(b, w, Resting, None);
    ClearedSinks(b, w, HandingBack, Some(Other));
    PutOne(w.p, DropWorkspace);
    assert Tries(b, HandingBack, w.p.value) <= Tries(b, w.state, w.p.value);
    LowerSinks(b, w, w.p.value, HandBackIssue());
  }

  /** A correction that fails has no convergence left. */
  lemma FailureSinks(b: Bounds, w: World, q: Progress, i: Input)
    requires b.gate > 0 && w.p.Some? && 2 <= Rank(w.state) <= 7 && !HasFailed(w.p.value.correction) && Running(q.correction)
    ensures Sinks(b, w, FailCorrection(w, q, i))
  {
    HandBackSinks(b, w, q, i);
    if w.ws.Some? {
      var failed := AsFailed(q, i.from);
      PutTwo(w.p, Restore(q.correction.value.reviewed), Save(failed));
      PutOne(w.p, Restore(q.correction.value.reviewed));
      PutOne(w.p, Save(failed));
      LowerSinks(b, w, failed, FailCorrection(w, q, i));
    }
  }

  lemma StopSinks(b: Bounds, w: World, q: Progress, i: Input)
    requires b.gate > 0 && w.p.Some? && 2 <= Rank(w.state) <= 7 && q.correction == w.p.value.correction
    ensures Sinks(b, w, Stop(w, q, i))
  {
    hide Sinks;
    if Running(q.correction) {
      FailureSinks(b, w, q, i);
    } else {
      HandBackSinks(b, w, q, i);
    }
  }

  /** A correction that has failed, met again, goes on to its push back or past it. */
  lemma OverSinks(b: Bounds, w: World)
    requires b.gate > 0 && w.p.Some? && HasFailed(w.p.value.correction)
    requires w.state.Gating? || w.state.Watching? || (w.state.Pushing? && !ToPushBack(w.p.value))
    ensures Sinks(b, w, To(StateOf(Over(w.p.value.correction, w.p.value.pushed))))
  {
    LowerSinks(b, w, w.p.value, To(StateOf(Over(w.p.value.correction, w.p.value.pushed))));
  }

  lemma SavingSinks(b: Bounds, w: World, q: Progress, to: State, effect: Option<Effect>)
    requires b.gate > 0 && w.p.Some? && Lower(b, w.state, w.p.value, to, q)
    ensures Sinks(b, w, Decision([Save(q)], to, effect, []))
  {
    PutOne(w.p, Save(q));
    LowerSinks(b, w, q, Decision([Save(q)], to, effect, []));
  }

  /** What was seen on the way changes nothing of it. */
  lemma SeenSinks(b: Bounds, w: World, d: Decision, facts: seq<Fact>)
    requires Sinks(b, w, d)
    ensures Sinks(b, w, d.(facts := facts))
  {
  }

  // ---- Each transition ----

  lemma CheckedLowers(b: Bounds, w: World, dirty: bool, passes: bool)
    requires Steady(b, w) && w.p.Some? && w.ws.Some? && w.state.Gating? && !HasFailed(w.p.value.correction)
    ensures var (gate, q) := Checked(w.p.value, w.ws.value, dirty, passes, b.gate);
            && q.correction == w.p.value.correction
            && (gate.Passed? ==> Lower(b, Gating, w.p.value, Pushing, q))
            && (gate.Failing? ==> Lower(b, Gating, w.p.value, Implementing, q))
  {
  }

  lemma GateSinks(b: Bounds, w: World, i: Input)
    requires b.gate > 0 && Steady(b, w) && Housed(w) && w.state.Gating?
    ensures Sinks(b, w, RunGate(b, w, i))
  {
    var p, ws := w.p.value, w.ws.value;
    if HasFailed(p.correction) {
      OverSinks(b, w);
      return;
    }
    var (gate, q) := Checked(p, ws, i.dirty, i.passes, b.gate);
    CheckedLowers(b, w, i.dirty, i.passes);
    hide Sinks, Lower, Stop, Steady, Checked;
    StopSinks(b, w, p, i);
    StopSinks(b, w, q, i);
    HandBackSinks(b, w, q, i);
    if gate.Passed? {
      SavingSinks(b, w, q, Pushing, None);
    } else if gate.Failing? {
      SavingSinks(b, w, q, Implementing, None);
    }
    SeenSinks(b, w, AfterGate(w, gate, q, i), [GateChecked]);
  }

  lemma PushLowers(b: Bounds, p: Progress, head: Commit)
    requires b.gate > 0
    ensures Lower(b, Pushing, p, Opening, p.(head := Some(head)))
    ensures !p.cut && p.pushed.None? && p.correction.None? ==> Lower(b, Pushing, p, Implementing, p.(cut := true, cutting := true, attempts := 0))
  {
  }

  lemma PushSinks(b: Bounds, w: World, i: Input)
    requires b.gate > 0 && Inv(w) && Steady(b, w) && Housed(w) && w.state.Pushing?
    ensures Sinks(b, w, RunPush(w, i))
  {
    var p, head := w.p.value, w.ws.value.head;
    assert Holds(w, p);
    assert !p.cutting;
    PushLowers(b, p, head);
    hide Sinks, Lower, Steady, Inv, Holds, Stop;
    StopSinks(b, w, p, i);
    SavingSinks(b, w, p.(head := Some(head)), Opening, Some(Push(head, p.pushed)));
    SameSinks(b, w, Decision([], Pushing, Some(Other), []));
    if Over(p.correction, p.pushed).Edit? {
      OverSinks(b, w);
    } else if p.pushed.None? && !p.cut && p.correction.None? {
      SavingSinks(b, w, p.(cut := true, cutting := true, attempts := 0), Implementing, None);
    }
  }

  lemma LandedLowers(b: Bounds, p: Progress, q: Progress)
    requires b.gate > 0 && p.head.Some? && q == p.(pushed := p.head, pushedAt := q.pushedAt)
    requires HasFailed(p.correction) ==> p.head.value == p.correction.value.reviewed
    ensures Lower(b, Opening, p, Watching, q) && Lower(b, Opening, p, HandingBack, q)
    ensures Weight(b, Opening, Some(q)) <= Weight(b, Opening, Some(p))
  {
    if Rounds(b, q) < Rounds(b, p) {
      LowerWeighsLess(b, Opening, p, Opening, q);
    }
  }

  lemma OpenSinks(b: Bounds, w: World, i: Input)
    requires b.gate > 0 && Inv(w) && Housed(w) && w.state.Opening?
    ensures Sinks(b, w, RunOpen(w, i))
  {
    var p := w.p.value;
    assert Holds(w, p);
    var (landing, q) := Land(p, w.remote, i.now);
    HandBackSinks(b, w, p, i);
    if landing.Landed? {
      LandedLowers(b, p, q);
      PutOne(w.p, Save(q));
      PutTwo(w.p, Save(q), DropWorkspace);
      PutOne(Some(q), DropWorkspace);
      hide Lower, Weight, Inv, Holds;
      LowerSinks(b, w, q, Decision([Save(q), DropWorkspace], HandingBack, Some(Other), []));
      SavingSinks(b, w, q, Watching, None);
    } else if landing.NotLanded? {
      NotLandedSinks(b, w);
    }
  }

  lemma NotLandedSinks(b: Bounds, w: World)
    requires w.p.Some? && w.state.Opening?
    ensures Sinks(b, w, To(Pushing))
  {
    hide Rounds;
  }

  lemma RedLowers(b: Bounds, w: World, i: Input)
    requires b.gate > 0 && Steady(b, w) && w.p.Some? && w.state.Watching? && !HasFailed(w.p.value.correction)
    ensures var (ci, q) := Watched(w.p.value, w.remote, i.runs, i.required, i.late, b.fixes);
            q.correction == w.p.value.correction && (ci.Red? ==> Lower(b, Watching, w.p.value, Implementing, q))
  {
    var p := w.p.value;
    var (ci, q) := Watched(p, w.remote, i.runs, i.required, i.late, b.fixes);
    assert ci.Red? ==> FixesLeft(b, p) == FixesLeft(b, q) + 1;
  }

  lemma WatchSinks(b: Bounds, w: World, i: Input)
    requires b.gate > 0 && Steady(b, w) && Housed(w) && w.state.Watching?
    ensures Sinks(b, w, RunWatch(b, w, i))
  {
    var p := w.p.value;
    HandBackSinks(b, w, p, i);
    if HasFailed(p.correction) {
      OverSinks(b, w);
      return;
    }
    var (ci, q) := Watched(p, w.remote, i.runs, i.required, i.late, b.fixes);
    RedLowers(b, w, i);
    GreenLowers(b, w);
    hide Sinks, Lower, Steady, Watched, FailCorrection;
    SameSinks(b, w, To(Watching));
    SeenSinks(b, w, To(Reviewing), [Fact.Green(p.pushed)]);
    if ci.Red? {
      SavingSinks(b, w, q, Implementing, None);
    }
    if Running(p.correction) {
      FailureSinks(b, w, q, i);
    }
  }

  lemma GreenLowers(b: Bounds, w: World)
    requires b.gate > 0 && w.p.Some? && w.state.Watching? && !HasFailed(w.p.value.correction)
    ensures Sinks(b, w, To(Reviewing))
  {
    LowerSinks(b, w, w.p.value, To(Reviewing));
  }

  lemma ReviewLowers(b: Bounds, w: World)
    requires b.gate > 0 && w.p.Some? && w.state.Reviewing?
    ensures Sinks(b, w, To(HandingOff)) && Sinks(b, w, Decision([], Reviewing, Some(Other), []))
    ensures w.p.value.correction.None? && w.p.value.pushed.Some? ==> Sinks(b, w, Saving(Begin(w.p.value), Implementing))
  {
    LowerSinks(b, w, w.p.value, To(HandingOff));
    SameSinks(b, w, Decision([], Reviewing, Some(Other), []));
    if w.p.value.correction.None? && w.p.value.pushed.Some? {
      SavingSinks(b, w, Begin(w.p.value), Implementing, None);
    }
  }

  lemma ReviewSinks(b: Bounds, w: World, i: Input)
    requires b.gate > 0 && Inv(w) && Steady(b, w) && Housed(w) && w.state.Reviewing?
    ensures Sinks(b, w, RunReview(w, i))
  {
    var p := w.p.value;
    assert Holds(w, p);
    assert p.correction.Some? ==> Correcting.Next(p.correction, p.pushed).Edit?;
    HandBackSinks(b, w, p, i);
    ReviewLowers(b, w);
    hide Sinks, Steady, Inv, Holds;
    SeenSinks(b, w, Decision([], Reviewing, Some(Other), []), [Kept(w.remote)]);
    SeenSinks(b, w, To(HandingOff), [Kept(w.remote)]);
    SeenSinks(b, w, To(HandingOff), [Kept(w.remote), Reviewed(p.pushed)]);
    if p.correction.None? && p.pushed.Some? {
      SeenSinks(b, w, Saving(Begin(p), Implementing), [Kept(w.remote), Reviewed(p.pushed)]);
    }
  }

  lemma RestSinks(b: Bounds, w: World, i: Input)
    requires b.gate > 0 && Inv(w) && (w.state.Deferred? || w.state.HandingOff? || w.state.HandingBack?)
    ensures Sinks(b, w, Decide(b, w, i))
  {
    if w.state.Deferred? {
      return;
    }
    ClearedSinks(b, w, Resting, None);
    if w.state.HandingOff? {
      ClearedSinks(b, w, HandingBack, Some(Other));
      SameSinks(b, w, Decision([], HandingOff, Some(Label), []));
    } else {
      ClearedSinks(b, w, HandingBack, Some(Other));
    }
    hide Sinks, Inv;
  }

  // ---- With what a claim and a stray set up anew ----

  /** The measure, and that of the workspace the next session begins, if it begins one. */
  function Owing(b: Bounds, w: World): nat {
    Weight(b, w.state, w.p) + if Afresh(w) then Anew(b) else 0
  }

  /** From `w` to `v`, nothing but what the claim, the stray or the push back allows is added, and a move takes one away. */
  predicate Descends(b: Bounds, w: World, v: World, more: nat) {
    Owing(b, v) + Moved(w.state, v.state) <= Owing(b, w) + PutBack(w.state, v.state) + more * (Anew(b) + 1)
  }

  lemma SinksDescends(b: Bounds, w: World, d: Decision)
    requires Sinks(b, w, d) && (Afresh(Decided(w, d)) ==> Afresh(w))
    ensures Descends(b, w, Decided(w, d), 0)
  {
    WrittenPuts(SawAll(w, d.facts), d.writes);
    SeenTouchesNothing(w, d.facts);
    hide Weight, Anew;
  }

  lemma SessionLowers(b: Bounds, p: Progress)
    requires b.gate > 0 && !HasFailed(p.correction)
    ensures Lower(b, Implementing, p, Gating, Given(p))
  {
  }

  /** The session's own part of a transition, in a workspace that is there. */
  lemma SessionDescends(b: Bounds, w: World, left: Checkout, q: Progress, to: State)
    requires b.gate > 0 && w.state.Implementing? && Usable(w) && !HasFailed(w.p.value.correction)
    requires (q == w.p.value && Converging(to) && !to.Gating?) || (q == Given(w.p.value) && to.Gating?)
    ensures var v := Written(w, [Leave(left), Save(q)]).(state := to, effect := None);
            Descends(b, w, v, if !to.Gating? && left.switched && w.p.value.pushed.None? then 1 else 0)
  {
    WrittenTwo(w, Leave(left), Save(q));
    if to.Gating? {
      SessionLowers(b, w.p.value);
      LowerWeighsLess(b, Implementing, w.p.value, Gating, q);
      hide Weight, Anew, Lower;
    } else {
      SameWeight(b, w.p);
      hide Weight;
    }
  }

  lemma SameWeight(b: Bounds, p: Option<Progress>)
    ensures Weight(b, Deferred, p) == Weight(b, Implementing, p)
  {
  }

  /** A workspace begun was due, and weighs what it was due at. */
  lemma BeginningDescends(b: Bounds, w: World, i: Input)
    requires b.gate > 0 && w.state.Implementing? && Afresh(w)
    ensures var w1 := Written(w, [DropWorkspace, DropProgress, Fresh(i.base), Save(NewProgress(i.base))]);
            Owing(b, w1) <= Owing(b, w) && w1.state.Implementing? && Usable(w1) && w1.p == Some(NewProgress(i.base))
  {
    StartBegins(w, i.base);
    BegunIsUsable(w, i.base);
    NewWeighs(b, i.base, Implementing);
    hide Weight, Anew;
  }

  lemma RunOnDescends(b: Bounds, w: World, i: Input, q: Progress, to: State)
    requires b.gate > 0 && w.state.Implementing? && Usable(w) && !HasFailed(w.p.value.correction)
    requires (q == w.p.value && Converging(to) && !to.Gating?) || (q == Given(w.p.value) && to.Gating?)
    ensures Descends(b, w, Decided(w, Decision([] + [Leave(i.left), Save(q)], to, None, [])),
                     if !to.Gating? && i.left.switched && w.p.value.pushed.None? then 1 else 0)
  {
    assert [] + [Leave(i.left), Save(q)] == [Leave(i.left), Save(q)];
    SessionDescends(b, w, i.left, q, to);
    hide Descends;
  }

  lemma RunAnewDescends(b: Bounds, w: World, i: Input, q: Progress, to: State)
    requires b.gate > 0 && w.state.Implementing? && Afresh(w)
    requires (q == NewProgress(i.base) && Converging(to) && !to.Gating?) || (q == Given(NewProgress(i.base)) && to.Gating?)
    ensures Descends(b, w, Decided(w, Decision([DropWorkspace, DropProgress, Fresh(i.base), Save(NewProgress(i.base))] + [Leave(i.left), Save(q)], to, None, [])),
                     if !to.Gating? && i.left.switched then 1 else 0)
  {
    var start := [DropWorkspace, DropProgress, Fresh(i.base), Save(NewProgress(i.base))];
    BeginningDescends(b, w, i);
    WrittenBoth(w, start, [Leave(i.left), Save(q)]);
    SessionDescends(b, Written(w, start), i.left, q, to);
    hide Written, Owing, Usable, Afresh;
  }

  lemma RunDescends(b: Bounds, w: World, i: Input)
    requires b.gate > 0 && Inv(w) && w.state.Implementing?
    ensures Descends(b, w, Decided(w, Run(w, i)), Allowed(w, i))
  {
    assert w.p.Some? ==> Holds(w, w.p.value);
    hide Decided, Descends, Inv, Holds, Converging, Given, NewProgress;
    if i.session.NoCandidate? {
      PutOffDescends(b, w);
    } else if !Usable(w) && (if w.p.Some? then w.p.value.pushed.Some? else i.prOpen) {
      LostDescends(b, w, i);
    } else {
      var p := if Usable(w) then w.p.value else NewProgress(i.base);
      var q := if i.session.Transient? then p else Given(p);
      var to := if i.session.Finished? then Gating else if i.session.defers then Deferred else Implementing;
      SessionsConverge();
      if Usable(w) {
        RunOnDescends(b, w, i, q, to);
      } else {
        RunAnewDescends(b, w, i, q, to);
      }
    }
  }

  lemma SessionsConverge()
    ensures Converging(Deferred) && Converging(Implementing)
  {
  }

  lemma PutOffDescends(b: Bounds, w: World)
    requires w.state.Implementing?
    ensures Descends(b, w, Decided(w, To(Deferred)), 0)
  {
    SameWeight(b, w.p);
    hide Weight;
  }

  lemma LostDescends(b: Bounds, w: World, i: Input)
    requires w.state.Implementing?
    ensures Descends(b, w, Decided(w, Lost(i)), 0)
  {
    WrittenTwo(w, DropWorkspace, DropProgress);
  }

  lemma ClaimDescends(b: Bounds, w: World, i: Input)
    requires w.state.Resting? && Inv(w)
    ensures Descends(b, w, Decided(w, Decide(b, w, i)), Allowed(w, i))
  {
    WrittenTwo(w, DropWorkspace, DropProgress);
    hide Anew;
  }

  lemma DecisionSinks(b: Bounds, w: World, i: Input)
    requires b.gate > 0 && Inv(w) && Steady(b, w) && Housed(w) && !w.state.Implementing? && !w.state.Resting?
    ensures Sinks(b, w, Decide(b, w, i))
  {
    hide Sinks, Inv, Steady, Housed, RunGate, RunPush, RunOpen, RunWatch, RunReview;
    match w.state
    case Gating => GateSinks(b, w, i);
    case Pushing => PushSinks(b, w, i);
    case Opening => OpenSinks(b, w, i);
    case Watching => WatchSinks(b, w, i);
    case Reviewing => ReviewSinks(b, w, i);
    case _ => RestSinks(b, w, i);
  }

  lemma NothingBegins(b: Bounds, w: World, i: Input)
    requires b.gate > 0 && Inv(w) && Steady(b, w) && Housed(w) && !w.state.Implementing? && !w.state.Resting?
    ensures Afresh(Decided(w, Decide(b, w, i))) ==> Afresh(w)
  {
    DecisionAccounts(b, w, i);
    DecisionPays(b, w, i);
    hide Decided, Decide, Inv, Steady, Housed, Left, Full;
  }

  lemma DecisionDescends(b: Bounds, w: World, i: Input)
    requires b.gate > 0 && Inv(w) && Steady(b, w) && Housed(w)
    ensures Descends(b, w, Decided(w, Decide(b, w, i)), Allowed(w, i))
  {
    hide Decided, Inv, Steady, Housed, Descends, Run, Sinks;
    if w.state.Implementing? {
      RunDescends(b, w, i);
    } else if w.state.Resting? {
      ClaimDescends(b, w, i);
    } else {
      NothingBegins(b, w, i);
      DecisionSinks(b, w, i);
      SinksDescends(b, w, Decide(b, w, i));
    }
  }

  // ---- Runs ----

  /** The moves of a run. */
  ghost function Moves(b: Bounds, w: World, steps: seq<Event>): nat
    requires Runs(b, w, steps)
    decreases |steps|
  {
    if steps == [] then 0
    else
      var v := Delivery.Next(b, w, steps[0]);
      (if steps[0].Transition? then Moved(w.state, v.state) else 0) + Moves(b, v, steps[1..])
  }

  /** The pushes that were to be made again. */
  ghost function Setbacks(b: Bounds, w: World, steps: seq<Event>): nat
    requires Runs(b, w, steps)
    decreases |steps|
  {
    if steps == [] then 0
    else
      var v := Delivery.Next(b, w, steps[0]);
      (if steps[0].Transition? then PutBack(w.state, v.state) else 0) + Setbacks(b, v, steps[1..])
  }

  lemma StepDescends(b: Bounds, w: World, s: Event)
    requires b.gate > 0 && Inv(w) && Steady(b, w) && Housed(w) && Enabled(b, w, s) && !Delivery.Next(b, w, s).killed
    ensures var v := Delivery.Next(b, w, s);
            && Steady(b, v) && Housed(v)
            && (s.Transition? ==> Descends(b, w, v, Allowed(w, s.i)))
            && (!s.Transition? ==> Owing(b, v) == Owing(b, w))
  {
    StepPays(b, w, s);
    match s
    case Transition(i) => DecisionDescends(b, w, i); DecisionAccounts(b, w, i);
    case Killed(_, _) =>
    case Perform =>
    case Lose =>
    case Foreign(_) =>
  }

  lemma {:induction false} RunDescendsOn(b: Bounds, w: World, steps: seq<Event>)
    requires b.gate > 0 && Inv(w) && Steady(b, w) && Housed(w) && Runs(b, w, steps) && !After(b, w, steps).killed
    ensures Moves(b, w, steps) <= Owing(b, w) + ClaimsAndStrays(b, w, steps) * (Anew(b) + 1) + Setbacks(b, w, steps)
    decreases |steps|
  {
    if steps != [] {
      var v := Delivery.Next(b, w, steps[0]);
      StepKeepsInv(b, w, steps[0]);
      if v.killed {
        KilledForGood(b, v, steps[1..]);
      }
      StepDescends(b, w, steps[0]);
      RunDescendsOn(b, v, steps[1..]);
      Distributes(AllowedBy(w, steps[0]), ClaimsAndStrays(b, v, steps[1..]), Anew(b) + 1);
      hide Inv, Steady, Housed, Enabled, Delivery.Next, Owing, Anew, Moved, PutBack;
    }
  }

  /** Unkilled, a job makes no more than so many moves for each claim of it and each session that strays, and one more for
      each push that has to be made again, whatever CI, the sessions and the review answer: beyond those it can only wait. */
  lemma DeliveriesEnd(b: Bounds, w: World, steps: seq<Event>)
    requires b.gate > 0 && Init(w) && Runs(b, w, steps) && !After(b, w, steps).killed
    ensures Moves(b, w, steps) <=
              ClaimsAndStrays(b, w, steps) * (10 * ((2 * b.fixes + 3) * (b.gate + 1) + b.gate) + 9) + Setbacks(b, w, steps)
  {
    RunDescendsOn(b, w, steps);
  }

  // ---- When a push has to be made again ----

  /** Nothing is killed or lost, and nobody else touches the branch. */
  predicate Undisturbed(steps: seq<Event>) {
    forall s :: s in steps ==> s.Transition? || s.Perform?
  }

  /** With its effect made, the push is on the branch. */
  predicate Lands(w: World) {
    !w.foreign && (w.state.Opening? && w.p.Some? && !(w.effect.Some? && w.effect.value.Push?) ==> w.remote == w.p.value.head)
  }

  lemma {:induction false} WrittenIsUnforeign(w: World, writes: seq<Write>)
    requires !w.foreign
    ensures !Written(w, writes).foreign
    decreases |writes|
  {
    if writes != [] {
      WrittenIsUnforeign(Wrote(w, writes[0]), writes[1..]);
    }
  }

  lemma {:induction false} SeenIsUnforeign(w: World, facts: seq<Fact>)
    ensures SawAll(w, facts).foreign == w.foreign && SawAll(w, facts).remote == w.remote
    decreases |facts|
  {
    if facts != [] {
      SeenIsUnforeign(Saw(w, facts[0]), facts[1..]);
    }
  }

  lemma PushingOpens(w: World, i: Input)
    ensures var d := RunPush(w, i); d.to.Opening? ==> d.effect.Some? && d.effect.value.Push?
  {
  }

  lemma OpeningStays(w: World, i: Input)
    ensures var d := RunOpen(w, i);
            d.to.Opening? ==> w.p.Some? && w.remote == w.p.value.head && d.facts == [] && d.writes == [Save(Land(w.p.value, w.remote, i.now).1)]
  {
  }

  lemma OthersOpenNothing(b: Bounds, w: World, i: Input)
    requires !w.state.Pushing? && !w.state.Opening?
    ensures !Decide(b, w, i).to.Opening?
  {
    hide Watched, Checked;
  }

  /** Only a push decided, or one that has landed, leads to the state that reads it back. */
  lemma ToOpening(b: Bounds, w: World, i: Input)
    requires Decide(b, w, i).to.Opening?
    ensures w.state.Pushing? || w.state.Opening?
    ensures w.state.Pushing? ==> Decide(b, w, i).effect.Some? && Decide(b, w, i).effect.value.Push?
    ensures w.state.Opening? ==> w.p.Some? && w.remote == w.p.value.head && Decide(b, w, i).facts == []
                                 && Decide(b, w, i).writes == [Save(Land(w.p.value, w.remote, i.now).1)]
  {
    hide RunPush, RunOpen, RunWatch, RunGate, RunReview;
    if w.state.Pushing? {
      PushingOpens(w, i);
    } else if w.state.Opening? {
      OpeningStays(w, i);
    } else {
      OthersOpenNothing(b, w, i);
    }
  }

  lemma TransitionLands(b: Bounds, w: World, i: Input)
    requires Lands(w) && w.effect.None?
    ensures Lands(Decided(w, Decide(b, w, i)))
    ensures PutBack(w.state, Decide(b, w, i).to) == 0 || w.p.None?
  {
    var d := Decide(b, w, i);
    SeenIsUnforeign(w, d.facts);
    WrittenIsUnforeign(SawAll(w, d.facts), d.writes);
    if d.to.Opening? {
      ToOpening(b, w, i);
      if w.state.Opening? {
        WrittenOne(w, d.writes[0]);
      }
    }
    hide Watched, Checked;
  }

  lemma StepLands(b: Bounds, w: World, s: Event)
    requires Inv(w) && Lands(w) && Enabled(b, w, s) && (s.Transition? || s.Perform?)
    ensures Lands(Delivery.Next(b, w, s))
  {
    match s
    case Transition(i) => TransitionLands(b, w, i);
    case Perform => assert w.p.Some? ==> Holds(w, w.p.value);
  }

  lemma {:induction false} NothingIsPushedAgain(b: Bounds, w: World, steps: seq<Event>)
    requires b.gate > 0 && Inv(w) && Steady(b, w) && Housed(w) && Lands(w) && Runs(b, w, steps) && Undisturbed(steps)
    requires !After(b, w, steps).killed
    ensures Setbacks(b, w, steps) == 0
    decreases |steps|
  {
    if steps != [] {
      var s := steps[0];
      assert s in steps;
      var v := Delivery.Next(b, w, s);
      StepKeepsInv(b, w, s);
      if v.killed {
        KilledForGood(b, v, steps[1..]);
      }
      StepDescends(b, w, s);
      StepLands(b, w, s);
      if s.Transition? {
        TransitionLands(b, w, s.i);
      }
      hide Inv, Steady, Enabled, Delivery.Next, Lands;
      NothingIsPushedAgain(b, v, steps[1..]);
    }
  }

  lemma {:induction false} NobodyIsKilled(b: Bounds, w: World, steps: seq<Event>)
    requires !w.killed && Runs(b, w, steps) && Undisturbed(steps)
    ensures !After(b, w, steps).killed
    decreases |steps|
  {
    if steps != [] {
      assert steps[0] in steps;
      match steps[0] {
        case Transition(i) => WrittenKeepsKilled(SawAll(w, Decide(b, w, i).facts), Decide(b, w, i).writes); SeenKeepsKilled(w, Decide(b, w, i).facts);
        case _ =>
      }
      NobodyIsKilled(b, Delivery.Next(b, w, steps[0]), steps[1..]);
    }
  }

  /** So one delivery none of whose sessions strays ends, where nobody else touches the branch and no push is lost. */
  lemma OneDeliveryEnds(b: Bounds, w: World, steps: seq<Event>)
    requires b.gate > 0 && Init(w) && !w.foreign && Runs(b, w, steps) && Undisturbed(steps)
    requires ClaimsAndStrays(b, w, steps) <= 1
    ensures Moves(b, w, steps) <= 10 * ((2 * b.fixes + 3) * (b.gate + 1) + b.gate) + 9
  {
    NobodyIsKilled(b, w, steps);
    NothingIsPushedAgain(b, w, steps);
    DeliveriesEnd(b, w, steps);
    TimesNoMore(ClaimsAndStrays(b, w, steps), 1, 10 * ((2 * b.fixes + 3) * (b.gate + 1) + b.gate) + 9);
  }
}
