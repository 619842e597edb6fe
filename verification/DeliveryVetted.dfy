/** What every push and every label of a delivery rests on, traced through any run to what its transitions met: the gate
    that passed the commit, the look at its paths that let it go, the checks that were green, the review that was seen. */
module DeliveryVetted {
  import opened Base
  import Git
  import opened Correcting
  import opened Work
  import opened Delivery
  import opened DeliverySafety
  import opened DeliveryOutcomes

  /** Of the last push to be decided: the commit, and whether it touched a path it may not. */
  datatype Look = Look(head: Commit, denied: bool)

  /** The commits the gate was met with that had something new, all of it committed, and passed; the last look before a
      push; and the heads that CI was green on, and whose review was seen, with the branch at the last push. */
  datatype Trace = Trace(passed: set<Commit>, last: Option<Look>, green: set<Commit>, reviewed: set<Commit>)

  const NOTHING := Trace({}, None, {}, {})

  ghost function Met(w: World, i: Input, t: Trace): Trace {
    match w.state
    case Gating =>
      if InHand(w) && !w.ws.value.switched && Work.Made(w.p.value, w.ws.value) && !i.dirty && i.passes
      then t.(passed := t.passed + {w.ws.value.head}) else t
    case Pushing =>
      if InHand(w) then t.(last := Some(Look(w.ws.value.head, i.denied))) else t
    case Watching =>
      if IsGreen(w, i) && w.p.value.pushed.Some? then t.(green := t.green + {w.p.value.pushed.value}) else t
    case Reviewing =>
      if IsReviewed(w, i) && w.p.value.pushed.Some? then t.(reviewed := t.reviewed + {w.p.value.pushed.value}) else t
    case _ => t
  }

  ghost function Traced(w: World, s: Event, t: Trace): Trace {
    match s
    case Transition(i) => Met(w, i, t)
    case Killed(i, _) => Met(w, i, t)
    case _ => t
  }

  ghost function TraceOf(b: Bounds, w: World, steps: seq<Event>, t: Trace): Trace
    requires Runs(b, w, steps)
    decreases |steps|
  {
    if steps == [] then t else TraceOf(b, Delivery.Next(b, w, steps[0]), steps[1..], Traced(w, steps[0], t))
  }

  // ---- What holds on the way ----

  /** All the progress names was passed by the gate. */
  predicate Names(p: Progress, passed: set<Commit>) {
    && (p.head.Some? ==> p.head.value in passed)
    && (p.pushed.Some? ==> p.pushed.value in passed)
    && (p.correction.Some? ==> p.correction.value.reviewed in passed)
  }

  predicate Sends(state: State) {
    state.Pushing? || state.Opening?
  }

  ghost predicate Vetted(w: World, t: Trace) {
    && (w.p.Some? ==> Names(w.p.value, t.passed))
    && (Sends(w.state) && w.ws.Some? ==> w.ws.value.head in t.passed)
    && (w.effect.Some? && w.effect.value.Push? ==> t.last == Some(Look(w.effect.value.head, false)))
  }

  /** A write that names, and puts back, only what the gate passed. */
  predicate Fit(a: Write, passed: set<Commit>) {
    match a
    case Save(q) => Names(q, passed)
    case Restore(head) => head in passed
    case _ => true
  }

  predicate AllFit(writes: seq<Write>, passed: set<Commit>) {
    forall k :: 0 <= k < |writes| ==> Fit(writes[k], passed)
  }

  /** A workspace left by nothing but a restore. */
  predicate NoSession(writes: seq<Write>) {
    forall k :: 0 <= k < |writes| ==> !writes[k].Leave? && !writes[k].Fresh?
  }

  lemma {:induction false} WrittenFits(w: World, writes: seq<Write>, passed: set<Commit>)
    requires AllFit(writes, passed) && (w.p.Some? ==> Names(w.p.value, passed))
    ensures var v := Written(w, writes);
            && (v.p.Some? ==> Names(v.p.value, passed)) && v.effect == w.effect && v.state == w.state
            && (NoSession(writes) && (w.ws.Some? ==> w.ws.value.head in passed) ==> v.ws.Some? ==> v.ws.value.head in passed)
    decreases |writes|
  {
    if writes != [] {
      assert Fit(writes[0], passed);
      WrittenFits(Wrote(w, writes[0]), writes[1..], passed);
    }
  }

  lemma {:induction false} SeenKeepsAll(w: World, facts: seq<Fact>)
    ensures var v := SawAll(w, facts); v.p == w.p && v.ws == w.ws && v.effect == w.effect && v.state == w.state
    decreases |facts|
  {
    if facts != [] {
      SeenKeepsAll(Saw(w, facts[0]), facts[1..]);
    }
  }

  // ---- Each decision ----

  /** A decision that writes what fits, and goes on to a push only with a workspace the gate passed. */
  ghost predicate Rests(w: World, d: Decision, passed: set<Commit>) {
    && AllFit(d.writes, passed)
    && (Sends(w.state) ==> NoSession(d.writes))
    && (Sends(d.to) ==>
          var v := Written(SawAll(w, d.facts), d.writes);
          v.ws.Some? ==> v.ws.value.head in passed)
  }

  lemma StopRests(w: World, p: Progress, i: Input, passed: set<Commit>)
    requires w.p.Some? && Names(p, passed)
    ensures Rests(w, Stop(w, p, i), passed) && Rests(w, HandBackIssue(), passed) && Rests(w, Lost(i), passed)
    ensures NoSession(Stop(w, p, i).writes) && NoSession(HandBackIssue().writes)
  {
    if Running(p.correction) && w.ws.Some? {
      WrittenTwo(w, Restore(p.correction.value.reviewed), Save(AsFailed(p, i.from)));
    }
  }

  lemma FitBoth(xs: seq<Write>, ys: seq<Write>, passed: set<Commit>)
    requires AllFit(xs, passed) && AllFit(ys, passed)
    ensures AllFit(xs + ys, passed)
  {
  }

  lemma SessionFits(w: World, base: Commit, left: Checkout, p: Progress, passed: set<Commit>)
    requires Names(p, passed)
    ensures AllFit([Leave(left), Save(p)], passed) && AllFit([Leave(left), Save(Given(p))], passed)
    ensures AllFit([], passed) && AllFit([DropWorkspace, DropProgress, Fresh(base), Save(NewProgress(base))], passed)
  {
  }

  lemma SessionRests(w: World, i: Input, passed: set<Commit>)
    requires w.state.Implementing? && (w.p.Some? ==> Names(w.p.value, passed))
    ensures Rests(w, Run(w, i), passed)
  {
    var p := if Usable(w) then w.p.value else NewProgress(i.base);
    var start := if Usable(w) then [] else [DropWorkspace, DropProgress, Fresh(i.base), Save(NewProgress(i.base))];
    var q := if i.session.Transient? then p else Given(p);
    ClearedRests(w, HandingBack, Some(Other), passed);
    ClearedRests(w, Resting, None, passed);
    SessionFits(w, i.base, i.left, p, passed);
    hide AllFit, Names, Cleared;
    FitBoth(start, [Leave(i.left), Save(q)], passed);
  }

  lemma FailedIsBack(w: World)
    requires Inv(w) && w.p.Some? && HasFailed(w.p.value.correction)
    ensures w.ws.Some? ==> w.ws.value.head == w.p.value.correction.value.reviewed
  {
    assert Holds(w, w.p.value);
  }

  lemma ToRests(w: World, to: State, effect: Option<Effect>, facts: seq<Fact>, passed: set<Commit>)
    requires Sends(to) && w.ws.Some? ==> w.ws.value.head in passed
    ensures Rests(w, Decision([], to, effect, facts), passed)
  {
    SeenKeepsAll(w, facts);
  }

  lemma SavingRests(w: World, q: Progress, to: State, effect: Option<Effect>, passed: set<Commit>)
    requires Names(q, passed) && (Sends(to) && w.ws.Some? ==> w.ws.value.head in passed)
    ensures Rests(w, Decision([Save(q)], to, effect, []), passed)
  {
    WrittenOne(w, Save(q));
  }

  lemma SeenRests(w: World, d: Decision, facts: seq<Fact>, passed: set<Commit>)
    requires Rests(w, d, passed) && d.facts == []
    ensures Rests(w, d.(facts := facts), passed)
  {
    SeenKeepsAll(w, facts);
    WrittenSame(w, SawAll(w, facts), d.writes);
  }

  lemma {:induction false} WrittenSame(w: World, v: World, writes: seq<Write>)
    requires v.p == w.p && v.ws == w.ws
    ensures Written(v, writes).p == Written(w, writes).p && Written(v, writes).ws == Written(w, writes).ws
    decreases |writes|
  {
    if writes != [] {
      WrittenSame(Wrote(w, writes[0]), Wrote(v, writes[0]), writes[1..]);
    }
  }

  lemma GateRests(b: Bounds, w: World, i: Input, t: Trace)
    requires Inv(w) && w.state.Gating? && (w.p.Some? ==> Names(w.p.value, t.passed))
    ensures Rests(w, RunGate(b, w, i), Met(w, i, t).passed)
  {
    var passed := Met(w, i, t).passed;
    if !InHand(w) {
      return;
    }
    var p := w.p.value;
    assert Names(p, passed);
    if IsFailed(p) {
      FailedIsBack(w);
      ToRests(w, StateOf(Over(p.correction, p.pushed)), None, [], passed);
      return;
    }
    var (gate, q) := Checked(p, w.ws.value, i.dirty, i.passes, b.gate);
    CheckedSays(p, w.ws.value, i.dirty, i.passes, b.gate);
    assert Names(q, passed);
    StopRests(w, p, i, passed);
    StopRests(w, q, i, passed);
    if gate.Passed? {
      SavingRests(w, q, Pushing, None, passed);
    } else if gate.Failing? {
      SavingRests(w, q, Implementing, None, passed);
    }
    hide Rests, Stop, Checked, GateSays;
    SeenRests(w, AfterGate(w, gate, q, i), [GateChecked], passed);
  }

  lemma PushRests(w: World, i: Input, passed: set<Commit>)
    requires w.state.Pushing? && (w.p.Some? ==> Names(w.p.value, passed)) && (w.ws.Some? ==> w.ws.value.head in passed)
    ensures Rests(w, RunPush(w, i), passed)
  {
    if InHand(w) {
      var p := w.p.value;
      StopRests(w, p, i, passed);
      SavingRests(w, p.(head := Some(w.ws.value.head)), Opening, Some(Push(w.ws.value.head, p.pushed)), passed);
      SavingRests(w, p.(cut := true, cutting := true, attempts := 0), Implementing, None, passed);
      ToRests(w, Pushing, Some(Other), [], passed);
      hide Stop;
    }
  }

  lemma HandBackRests(w: World, p: Progress, i: Input, passed: set<Commit>)
    ensures Rests(w, HandBack(p, i), passed) && NoSession(HandBack(p, i).writes)
  {
  }

  lemma KeptRests(w: World, q: Progress, passed: set<Commit>)
    requires Names(q, passed)
    ensures Rests(w, Decision([Save(q), DropWorkspace], HandingBack, Some(Other), []), passed)
  {
  }

  lemma OpenRests(w: World, i: Input, passed: set<Commit>)
    requires w.state.Opening? && (w.p.Some? ==> Names(w.p.value, passed)) && (w.ws.Some? ==> w.ws.value.head in passed)
    ensures Rests(w, RunOpen(w, i), passed)
  {
    hide Rests, HandBack;
    if w.p.None? {
      ToRests(w, Watching, None, [], passed);
      ClearedRests(w, Implementing, None, passed);
      return;
    }
    var q := Land(w.p.value, w.remote, i.now).1;
    HandBackRests(w, w.p.value, i, passed);
    ToRests(w, Pushing, None, [], passed);
    if Land(w.p.value, w.remote, i.now).0.Landed? {
      assert Names(q, passed);
      SavingRests(w, q, Watching, None, passed);
      SavingRests(w, q, Opening, Some(Other), passed);
      KeptRests(w, q, passed);
    }
  }

  lemma WatchRests(b: Bounds, w: World, i: Input, passed: set<Commit>)
    requires Inv(w) && w.state.Watching? && (w.p.Some? ==> Names(w.p.value, passed))
    ensures Rests(w, RunWatch(b, w, i), passed)
  {
    if w.p.Some? && i.prOpen {
      var p := w.p.value;
      if IsFailed(p) {
        FailedIsBack(w);
        ToRests(w, StateOf(Over(p.correction, p.pushed)), None, [], passed);
        return;
      }
      var q := Watched(p, w.remote, i.runs, i.required, i.late, b.fixes).1;
      assert Names(q, passed);
      StopRests(w, q, i, passed);
      SavingRests(w, q, Implementing, None, passed);
      ToRests(w, Reviewing, None, [Fact.Green(p.pushed)], passed);
      ToRests(w, Watching, None, [], passed);
      ClearedRests(w, HandingBack, Some(Other), passed);
      RunWatchIs(b, w, i);
      hide Rests, Watched, Stop, RunWatch;
    }
  }

  lemma ClearedRests(w: World, to: State, effect: Option<Effect>, passed: set<Commit>)
    requires !Sends(to)
    ensures Rests(w, Cleared(to, effect), passed)
  {
  }

  lemma ReviewRests(w: World, i: Input, passed: set<Commit>)
    requires Inv(w) && w.state.Reviewing? && (w.p.Some? ==> Names(w.p.value, passed))
    ensures Rests(w, RunReview(w, i), passed)
  {
    var d := RunReview(w, i);
    if d.to.Pushing? {
      FailedIsBack(w);
      ToRests(w, Pushing, None, [], passed);
    }
  }

  lemma DecisionRests(b: Bounds, w: World, i: Input, t: Trace)
    requires Inv(w) && Vetted(w, t)
    ensures Rests(w, Decide(b, w, i), Met(w, i, t).passed)
  {
    var passed := Met(w, i, t).passed;
    hide Rests, Inv, Run, RunGate, RunPush, RunOpen, RunWatch, RunReview, Names;
    match w.state
    case Implementing => SessionRests(w, i, passed);
    case Gating => GateRests(b, w, i, t);
    case Pushing => PushRests(w, i, passed);
    case Opening => OpenRests(w, i, passed);
    case Watching => WatchRests(b, w, i, passed);
    case Reviewing => ReviewRests(w, i, passed);
    case _ => OtherRests(b, w, i, passed);
  }

  lemma OtherRests(b: Bounds, w: World, i: Input, passed: set<Commit>)
    requires w.state.Resting? || w.state.Deferred? || w.state.HandingOff? || w.state.HandingBack?
    ensures Rests(w, Decide(b, w, i), passed)
  {
  }

  // ---- Every step ----

  lemma {:induction false} WrittenKeepsEffect(w: World, writes: seq<Write>)
    ensures Written(w, writes).effect == w.effect && Written(w, writes).state == w.state
    decreases |writes|
  {
    if writes != [] {
      WrittenKeepsEffect(Wrote(w, writes[0]), writes[1..]);
    }
  }

  /** Only the transition from the state that pushes has a push to make, and it is of the commit it looked at. */
  lemma PushIsLookedAt(b: Bounds, w: World, i: Input, t: Trace)
    requires Decide(b, w, i).effect.Some? && Decide(b, w, i).effect.value.Push?
    ensures Met(w, i, t).last == Some(Look(Decide(b, w, i).effect.value.head, false))
  {
    OthersPushNothing(b, w, i);
    PushOutcome(w, i);
    hide RunPush, Written;
  }

  lemma OthersPushNothing(b: Bounds, w: World, i: Input)
    ensures !w.state.Pushing? ==> !(Decide(b, w, i).effect.Some? && Decide(b, w, i).effect.value.Push?)
  {
    hide Watched, Checked, RunPush;
  }

  lemma TransitionIsVetted(b: Bounds, w: World, i: Input, t: Trace)
    requires Inv(w) && Vetted(w, t) && w.effect.None?
    ensures Vetted(Delivery.Next(b, w, Transition(i)), Met(w, i, t))
  {
    hide Inv, Met, Decide, Names;
    var d, n := Decide(b, w, i), Met(w, i, t);
    MetGrows(w, i, t);
    DecisionRests(b, w, i, t);
    NamesMore(w, t, n);
    var v := SawAll(w, d.facts);
    SeenKeepsAll(w, d.facts);
    WrittenFits(v, d.writes, n.passed);
    if d.effect.Some? && d.effect.value.Push? {
      PushIsLookedAt(b, w, i, t);
    }
  }

  lemma MetGrows(w: World, i: Input, t: Trace)
    ensures var n := Met(w, i, t); t.passed <= n.passed && t.green <= n.green && t.reviewed <= n.reviewed
  {
  }

  lemma NamesMore(w: World, t: Trace, n: Trace)
    requires t.passed <= n.passed
    ensures w.p.Some? && Names(w.p.value, t.passed) ==> Names(w.p.value, n.passed)
  {
  }

  lemma {:induction false} FirstFit(writes: seq<Write>, n: nat, passed: set<Commit>)
    requires n <= |writes| && AllFit(writes, passed)
    ensures AllFit(writes[..n], passed) && (NoSession(writes) ==> NoSession(writes[..n]))
  {
  }

  lemma KilledIsVetted(b: Bounds, w: World, i: Input, n: nat, t: Trace)
    requires Inv(w) && Vetted(w, t) && Enabled(b, w, Killed(i, n))
    ensures Vetted(Delivery.Next(b, w, Killed(i, n)), Met(w, i, t))
  {
    hide Inv, Met, Decide, Names;
    var d, m := Decide(b, w, i), Met(w, i, t);
    MetGrows(w, i, t);
    DecisionRests(b, w, i, t);
    NamesMore(w, t, m);
    var v := SawAll(w, d.facts);
    SeenKeepsAll(w, d.facts);
    FirstFit(d.writes, n, m.passed);
    WrittenFits(v, d.writes[..n], m.passed);
    PrefixLeaves(v, d.writes, n);
  }

  /** A workspace that was there, or was put back, is there on the way too. */
  lemma PrefixLeaves(w: World, writes: seq<Write>, n: nat)
    requires n <= |writes|
    ensures Written(w, writes[..n]).effect == w.effect
  {
    WrittenKeepsEffect(w, writes[..n]);
  }

  lemma StepIsVetted(b: Bounds, w: World, s: Event, t: Trace)
    requires Inv(w) && Vetted(w, t) && Enabled(b, w, s)
    ensures Vetted(Delivery.Next(b, w, s), Traced(w, s, t))
  {
    hide Inv, Met;
    match s
    case Transition(i) => TransitionIsVetted(b, w, i, t);
    case Killed(i, n) => KilledIsVetted(b, w, i, n, t);
    case _ =>
  }

  // ---- What was seen ----

  ghost predicate SeenBy(w: World, t: Trace, green: set<Commit>, reviewed: set<Commit>) {
    w.green <= green + t.green && w.reviewed <= reviewed + t.reviewed
  }

  /** What a transition notes. */
  lemma FactsAre(b: Bounds, w: World, i: Input)
    ensures var facts := Decide(b, w, i).facts;
            || facts == [] || facts == [GateChecked] || facts == [Kept(w.remote)]
            || (w.state.Watching? && IsGreen(w, i) && facts == [Fact.Green(w.p.value.pushed)])
            || (w.state.Reviewing? && IsReviewed(w, i) && facts == [Kept(w.remote), Reviewed(w.p.value.pushed)])
  {
    hide Checked, Watched, AllGreen, SomeRed, IsGreen;
    if w.state.Watching? && w.p.Some? && i.prOpen && !IsFailed(w.p.value) {
      WatchAnswers(b, w, i);
      RunWatchIs(b, w, i);
      hide RunWatch;
    }
  }

  /** What it saw of CI and of the review, it saw of the branch at the last push. */
  lemma FactsAreMet(b: Bounds, w: World, i: Input, t: Trace)
    ensures var v, n := SawAll(w, Decide(b, w, i).facts), Met(w, i, t);
            v.green <= w.green + n.green && v.reviewed <= w.reviewed + n.reviewed
  {
    hide Decide, SawAll;
    FactsAre(b, w, i);
    var facts := Decide(b, w, i).facts;
    NothingDone(w);
    SawOne(w, GateChecked);
    SawOne(w, Kept(w.remote));
    if w.state.Watching? && IsGreen(w, i) {
      SawOne(w, Fact.Green(w.p.value.pushed));
    } else if w.state.Reviewing? && IsReviewed(w, i) {
      SawTwo(w, Kept(w.remote), Reviewed(w.p.value.pushed));
    }
    assert forall v: World :: v == Saw(w, GateChecked) || v == Saw(w, Kept(w.remote)) ==> v.green == w.green && v.reviewed == w.reviewed;
  }

  lemma StepIsSeen(b: Bounds, w: World, s: Event, t: Trace, green: set<Commit>, reviewed: set<Commit>)
    requires SeenBy(w, t, green, reviewed) && Enabled(b, w, s)
    ensures SeenBy(Delivery.Next(b, w, s), Traced(w, s, t), green, reviewed)
  {
    match s
    case Transition(i) =>
      hide Decide, Met;
      MetGrows(w, i, t);
      FactsAreMet(b, w, i, t);
      WrittenKeepsSeen(SawAll(w, Decide(b, w, i).facts), Decide(b, w, i).writes);
    case Killed(i, n) =>
      hide Decide, Met;
      MetGrows(w, i, t);
      FactsAreMet(b, w, i, t);
      WrittenKeepsSeen(SawAll(w, Decide(b, w, i).facts), Decide(b, w, i).writes[..n]);
    case _ =>
  }

  // ---- Runs ----

  lemma {:induction false} RunIsVetted(b: Bounds, w: World, steps: seq<Event>, t: Trace, green: set<Commit>, reviewed: set<Commit>)
    requires Inv(w) && Vetted(w, t) && SeenBy(w, t, green, reviewed) && Runs(b, w, steps)
    ensures Vetted(After(b, w, steps), TraceOf(b, w, steps, t)) && SeenBy(After(b, w, steps), TraceOf(b, w, steps, t), green, reviewed)
    decreases |steps|
  {
    if steps != [] {
      hide Inv, Vetted, SeenBy, Enabled, Delivery.Next, Traced;
      StepKeepsInv(b, w, steps[0]);
      StepIsVetted(b, w, steps[0], t);
      StepIsSeen(b, w, steps[0], t, green, reviewed);
      RunIsVetted(b, Delivery.Next(b, w, steps[0]), steps[1..], Traced(w, steps[0], t), green, reviewed);
    }
  }

  /** Over every run, killed anywhere and whatever others push: a commit on its way to the branch was found, by the
      transition that decided its push, to touch no path it may not, and the gate had passed it, with everything
      committed. */
  lemma EveryPushIsVetted(b: Bounds, w: World, steps: seq<Event>)
    requires Init(w) && Runs(b, w, steps) && After(b, w, steps).effect.Some? && After(b, w, steps).effect.value.Push?
    ensures var head, t := After(b, w, steps).effect.value.head, TraceOf(b, w, steps, NOTHING);
            t.last == Some(Look(head, false)) && head in t.passed
  {
    RunKeepsInv(b, w, steps);
    RunIsVetted(b, w, steps, NOTHING, w.green, w.reviewed);
    hide Inv, TraceOf;
    PushIsNamed(After(b, w, steps));
  }

  lemma PushIsNamed(w: World)
    requires Inv(w) && w.effect.Some? && w.effect.value.Push?
    ensures w.p.Some? && w.p.value.head == Some(w.effect.value.head)
  {
  }

  /** Over every run: under the label, the branch was last pushed at a head that a watch found there with runs, all of them
      finished and passing, and one for every required check; and whose review was found there, or that of the head the
      correction was made of. */
  lemma TheLabelWasEarned(b: Bounds, w: World, steps: seq<Event>)
    requires Init(w) && w.green == {} && w.reviewed == {} && Runs(b, w, steps) && After(b, w, steps).effect == Some(Label)
    ensures var v, t := After(b, w, steps), TraceOf(b, w, steps, NOTHING);
            && v.p.Some? && v.p.value.pushed.Some? && v.p.value.pushed.value in t.green && v.p.value.pushed.value in t.passed
            && match v.p.value.correction
               case None => v.p.value.pushed.value in t.reviewed
               case Some(c) => c.reviewed in t.green && c.reviewed in t.reviewed
  {
    RunKeepsInv(b, w, steps);
    RunIsVetted(b, w, steps, NOTHING, {}, {});
    hide TraceOf;
    assert Holds(After(b, w, steps), After(b, w, steps).p.value);
  }
}
