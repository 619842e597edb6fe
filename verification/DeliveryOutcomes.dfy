/** What each transition of the delivery comes to, outcome by outcome: where the job goes, what it owes, and what is left of
    its progress, its workspace and what it saw, each exactly when the code says so. */
module DeliveryOutcomes {
  import opened Base
  import Git
  import opened Correcting
  import opened Work
  import opened Delivery

  predicate InHand(w: World) {
    w.p.Some? && w.ws.Some?
  }

  /** Everything of the work is gone. */
  predicate Emptied(w: World) {
    w.p.None? && w.ws.None?
  }

  predicate IsFailed(p: Progress) {
    p.correction.Some? && p.correction.value.failed
  }

  predicate IsRunning(p: Progress) {
    p.correction.Some? && !p.correction.value.failed
  }

  /** The branch is at the head the correction was made of. */
  predicate AtReviewed(p: Progress) {
    p.correction.Some? && p.pushed == Some(p.correction.value.reviewed)
  }

  /** Nothing is left where the record of the work is: a human is told on the pull request, if there is one. */
  predicate IsLost(i: Input, to: State, effect: Option<Effect>, now: World) {
    && Emptied(now)
    && (if i.prOpen then to == HandingBack && effect == Some(Other) else to == Resting && effect == None)
  }

  /** Work stopped by something it did. A running correction fails: its workspace is put back at the head the review read,
      and what it pushed past that is pushed back. Any other work is handed back: on the issue, its progress kept, before
      the first push; on the pull request, if it is open still, after. */
  predicate IsStopped(w: World, p: Progress, i: Input, to: State, effect: Option<Effect>, now: World) {
    if IsRunning(p) && w.ws.Some? then
      var c := p.correction.value;
      && to == (if p.pushed == Some(c.reviewed) then Reviewing else Pushing) && effect == None
      && now.ws == Some(Checkout(false, c.reviewed))
      && now.p == Some(p.(correction := Some(Correction(c.reviewed, c.given, true, i.from)), failing := false))
    else if IsRunning(p) then IsLost(i, to, effect, now)
    else if p.pushed.None? then to == HandingBack && effect == Some(Other) && now.ws.None? && now.p == w.p
    else IsLost(i, to, effect, now)
  }

  predicate Untouched(w: World, now: World) {
    now.p == w.p && now.ws == w.ws
  }

  lemma StopOutcome(w: World, p: Progress, i: Input)
    ensures var d := Stop(w, p, i); d.facts == [] && IsStopped(w, p, i, d.to, d.effect, Written(w, d.writes))
  {
    WrittenTwo(w, DropWorkspace, DropProgress);
    WrittenOne(w, DropWorkspace);
    if Running(p.correction) {
      WrittenTwo(w, Restore(p.correction.value.reviewed), Save(AsFailed(p, i.from)));
    }
  }

  lemma NothingDone(w: World)
    ensures Written(w, []) == w && SawAll(w, []) == w
  {
  }

  lemma LostOutcome(w: World, i: Input)
    ensures var d := Lost(i); d.facts == [] && IsLost(i, d.to, d.effect, Written(w, d.writes))
  {
    WrittenTwo(w, DropWorkspace, DropProgress);
  }

  lemma ClearedOutcome(w: World, to: State, effect: Option<Effect>)
    ensures Emptied(Written(w, Cleared(to, effect).writes))
  {
    WrittenTwo(w, DropWorkspace, DropProgress);
  }

  lemma {:induction false} SeenKeeps(w: World, facts: seq<Fact>)
    ensures var v := SawAll(w, facts); v.p == w.p && v.ws == w.ws
    decreases |facts|
  {
    if facts != [] {
      SeenKeeps(Saw(w, facts[0]), facts[1..]);
    }
  }

  // ---- The session ----

  predicate IsUsable(w: World) {
    w.p.Some? && w.ws.Some? && !w.ws.value.switched
  }

  /** No candidate puts the job off. Work whose branch was pushed and whose workspace is gone is lost; any other is gone on
      in, or begun afresh. A session that finished goes to the gate, and has been given its cut or its correction; one that
      failed stays, or waits. */
  predicate SessionSays(w: World, i: Input, to: State, effect: Option<Effect>, now: World) {
    if i.session == NoCandidate then to == Deferred && effect == None && Untouched(w, now)
    else if !IsUsable(w) && (if w.p.Some? then w.p.value.pushed.Some? else i.prOpen) then IsLost(i, to, effect, now)
    else
      var p := if IsUsable(w) then w.p.value else Progress(i.base, None, None, 0, 0, false, 0, None, false, false, None);
      && effect == None && now.ws == Some(i.left)
      && to == (if i.session == Finished then Gating else if i.session == Transient(true) then Deferred else Implementing)
      && now.p == Some(if i.session == Finished
                       then p.(cutting := false, correction := if IsRunning(p) then Some(p.correction.value.(given := true)) else p.correction)
                       else p)
  }

  lemma StartedOutcome(w: World, i: Input)
    requires !i.session.NoCandidate? && !(!IsUsable(w) && (if w.p.Some? then w.p.value.pushed.Some? else i.prOpen))
    ensures var d := Run(w, i); d.facts == [] && SessionSays(w, i, d.to, d.effect, Written(w, d.writes))
  {
    var start := if Usable(w) then [] else [DropWorkspace, DropProgress, Fresh(i.base), Save(NewProgress(i.base))];
    var p := if Usable(w) then w.p.value else NewProgress(i.base);
    var q := if i.session.Transient? then p else Given(p);
    WrittenBoth(w, start, [Leave(i.left), Save(q)]);
    WrittenTwo(Written(w, start), Leave(i.left), Save(q));
    hide Written;
  }

  lemma SessionOutcome(w: World, i: Input)
    ensures var d := Run(w, i); d.facts == [] && SessionSays(w, i, d.to, d.effect, Written(w, d.writes))
  {
    NothingDone(w);
    LostOutcome(w, i);
    if !i.session.NoCandidate? && !(!IsUsable(w) && (if w.p.Some? then w.p.value.pushed.Some? else i.prOpen)) {
      StartedOutcome(w, i);
      hide SessionSays, Run;
    } else {
      hide Written, IsLost, Lost;
    }
  }

  // ---- The gate ----

  /** The gate is run, and the work is the correction's own where there is one. */
  predicate IsChecked(w: World, keeps: bool) {
    InHand(w) && !IsFailed(w.p.value) && (IsRunning(w.p.value) && !w.ws.value.switched ==> keeps)
  }

  /** Work passes exactly if there is some, on its branch, committed, and the gate passes it; it goes back to its session if
      it does not and may be tried again; and anything else stops it. */
  predicate GateComesOut(b: Bounds, w: World, i: Input, keeps: bool, made: bool, to: State, effect: Option<Effect>, now: World) {
    && now.checks == w.checks + (if IsChecked(w, keeps) then 1 else 0)
    && if !InHand(w) then to == Implementing && effect == None && Emptied(now)
       else
         var p, ws := w.p.value, w.ws.value;
         if IsFailed(p) then to == (if AtReviewed(p) then Reviewing else Pushing) && effect == None && Untouched(w, now)
         else if IsChecked(w, keeps) && !ws.switched && made && !i.dirty && i.passes then
           to == Pushing && effect == None && now.ws == w.ws && now.p == Some(p.(failing := false))
         else if IsChecked(w, keeps) && !ws.switched && made && p.attempts + 1 < b.gate then
           to == Implementing && effect == None && now.ws == w.ws && now.p == Some(p.(attempts := p.attempts + 1, failing := true))
         else if IsChecked(w, keeps) && !ws.switched && made then
           IsStopped(w, p.(attempts := p.attempts + 1, failing := true), i, to, effect, now)
         else
           IsStopped(w, p, i, to, effect, now)
  }

  lemma StoppedAlike(w: World, v: World, p: Progress, i: Input)
    requires v.p == w.p && v.ws == w.ws
    ensures Stop(v, p, i) == Stop(w, p, i)
  {
  }

  lemma AfterGateComesOut(w: World, gate: Gate, q: Progress, i: Input)
    requires InHand(w) && q.correction == w.p.value.correction && q.pushed == w.p.value.pushed
    ensures var d := AfterGate(w, gate, q, i); var now := Written(w, d.writes);
            && d.facts == []
            && (gate.Passed? ==> d.to == Pushing && d.effect == None && now.ws == w.ws && now.p == Some(q))
            && (gate.Failing? ==> d.to == Implementing && d.effect == None && now.ws == w.ws && now.p == Some(q))
            && (!gate.Passed? && !gate.Failing? ==> IsStopped(w, q, i, d.to, d.effect, now))
  {
    StopOutcome(w, q, i);
    WrittenOne(w, Save(q));
    WrittenOne(w, DropWorkspace);
  }

  lemma {:induction false} WrittenKeepsChecks(w: World, writes: seq<Write>)
    ensures Written(w, writes).checks == w.checks
    decreases |writes|
  {
    if writes != [] {
      WrittenKeepsChecks(Wrote(w, writes[0]), writes[1..]);
    }
  }

  lemma StoppedAlso(w: World, v: World, p: Progress, i: Input, to: State, effect: Option<Effect>, now: World)
    requires v.p == w.p && v.ws == w.ws && IsStopped(v, p, i, to, effect, now)
    ensures IsStopped(w, p, i, to, effect, now)
  {
  }

  /** The gate run, and what follows from what it said. */
  lemma CheckFollows(b: Bounds, w: World, i: Input)
    requires InHand(w) && !IsFailed(w.p.value)
    requires IsRunning(w.p.value) && !w.ws.value.switched ==> Git.Ancestor(w.p.value.correction.value.reviewed, w.ws.value.head)
    ensures var (gate, q) := Checked(w.p.value, w.ws.value, i.dirty, i.passes, b.gate);
            var d, seen := RunGate(b, w, i), Saw(w, GateChecked);
            && d.facts == [GateChecked] && d == AfterGate(seen, gate, q, i).(facts := [GateChecked])
            && q.correction == w.p.value.correction && q.pushed == w.p.value.pushed
  {
    hide Git.Ancestor, Stop;
    var (gate, q) := Checked(w.p.value, w.ws.value, i.dirty, i.passes, b.gate);
    StoppedAlike(w, Saw(w, GateChecked), q, i);
  }

  lemma CheckedGate(b: Bounds, w: World, i: Input)
    requires InHand(w) && !IsFailed(w.p.value)
    requires IsRunning(w.p.value) && !w.ws.value.switched ==> Git.Ancestor(w.p.value.correction.value.reviewed, w.ws.value.head)
    ensures var d := RunGate(b, w, i);
            GateComesOut(b, w, i, true, Work.Made(w.p.value, w.ws.value), d.to, d.effect, Written(SawAll(w, d.facts), d.writes))
  {
    hide AfterGate, Checked, Stop, Written, SawAll, IsStopped, GateSays, RunGate, Git.Ancestor, Work.Made;
    var p, ws := w.p.value, w.ws.value;
    var d := RunGate(b, w, i);
    var (gate, q) := Checked(p, ws, i.dirty, i.passes, b.gate);
    CheckFollows(b, w, i);
    CheckedSays(p, ws, i.dirty, i.passes, b.gate);
    GateIsSaid(p, ws.switched, Work.Made(p, ws), !i.dirty && i.passes, b.gate, gate, q);
    var seen := Saw(w, GateChecked);
    SawOne(w, GateChecked);
    AfterGateComesOut(seen, gate, q, i);
    WrittenKeepsChecks(seen, d.writes);
    if !gate.Passed? && !gate.Failing? {
      StoppedAlso(w, seen, q, i, d.to, d.effect, Written(seen, d.writes));
    }
  }

  lemma UncheckedGate(b: Bounds, w: World, i: Input)
    requires InHand(w) ==> IsFailed(w.p.value)
                           || (IsRunning(w.p.value) && !w.ws.value.switched && !Git.Ancestor(w.p.value.correction.value.reviewed, w.ws.value.head))
    ensures var d := RunGate(b, w, i); var keeps := !(InHand(w) && IsRunning(w.p.value));
            GateComesOut(b, w, i, keeps, InHand(w) && Work.Made(w.p.value, w.ws.value), d.to, d.effect, Written(SawAll(w, d.facts), d.writes))
  {
    ClearedOutcome(w, Implementing, None);
    WrittenKeepsChecks(w, RunGate(b, w, i).writes);
    if InHand(w) {
      StopOutcome(w, w.p.value, i);
    }
    hide Checked, AfterGate;
  }

  /** `keeps` and `made` as git says them. */
  lemma GateComesTo(b: Bounds, w: World, i: Input, keeps: bool, made: bool)
    requires InHand(w) && IsRunning(w.p.value) ==> (keeps <==> Git.Ancestor(w.p.value.correction.value.reviewed, w.ws.value.head))
    requires InHand(w) ==> (made <==> Work.Made(w.p.value, w.ws.value))
    ensures var d := RunGate(b, w, i); GateComesOut(b, w, i, keeps, made, d.to, d.effect, Written(SawAll(w, d.facts), d.writes))
  {
    hide RunGate, Written, SawAll, Work.Made, IsStopped;
    if InHand(w) && !IsFailed(w.p.value) && (IsRunning(w.p.value) && !w.ws.value.switched ==> keeps) {
      CheckedGate(b, w, i);
    } else {
      UncheckedGate(b, w, i);
    }
  }

  // ---- The push ----

  /** The work is over the size that goes to one pull request, and may be cut to a piece of it yet. */
  predicate IsToBeCut(p: Progress, i: Input) {
    i.oversize && !p.cut && p.pushed.None? && i.keep != CannotKeep
  }

  /** The work may be sent as it is: it is the correction's own where there is one, and touches nothing it may not. */
  predicate IsClear(w: World, i: Input, keeps: bool) {
    && InHand(w) && !w.p.value.cutting && !(IsFailed(w.p.value) && AtReviewed(w.p.value))
    && (IsRunning(w.p.value) ==> keeps) && !i.denied
  }

  /** A push is made exactly of clear work that is not to be cut and has rounds left. */
  predicate MayPush(w: World, i: Input, keeps: bool) {
    IsClear(w, i, keeps) && !IsToBeCut(w.p.value, i) && i.roundsLeft
  }

  predicate PushSays(w: World, i: Input, keeps: bool, to: State, effect: Option<Effect>, now: World) {
    && (effect.Some? && effect.value.Push? <==> MayPush(w, i, keeps))
    && if MayPush(w, i, keeps) then
         var p, head := w.p.value, w.ws.value.head;
         to == Opening && effect == Some(Push(head, p.pushed)) && now.ws == w.ws && now.p == Some(p.(head := Some(head)))
       else if !InHand(w) then to == Implementing && effect == None && Emptied(now)
       else if w.p.value.cutting then to == Implementing && effect == None && Untouched(w, now)
       else if IsFailed(w.p.value) && AtReviewed(w.p.value) then to == Reviewing && effect == None && Untouched(w, now)
       else if IsClear(w, i, keeps) && IsToBeCut(w.p.value, i) && i.keep == WholeAgain then
         to == Pushing && effect == Some(Other) && Untouched(w, now)
       else if IsClear(w, i, keeps) && IsToBeCut(w.p.value, i) then
         to == Implementing && effect == None && now.ws == w.ws && now.p == Some(w.p.value.(cut := true, cutting := true, attempts := 0))
       else
         IsStopped(w, w.p.value, i, to, effect, now)
  }

  lemma HandedPush(w: World, i: Input)
    requires InHand(w)
    ensures var d := RunPush(w, i);
            var keeps := IsRunning(w.p.value) ==> Git.Ancestor(w.p.value.correction.value.reviewed, w.ws.value.head);
            d.facts == [] && PushSays(w, i, keeps, d.to, d.effect, Written(w, d.writes))
  {
    hide Stop, Written, IsStopped, Git.Ancestor;
    var p := w.p.value;
    NothingDone(w);
    StopOutcome(w, p, i);
    WrittenOne(w, Save(p.(head := Some(w.ws.value.head))));
    WrittenOne(w, Save(p.(cut := true, cutting := true, attempts := 0)));
    StopIsNoPush(w, p, i);
  }

  lemma StopIsNoPush(w: World, p: Progress, i: Input)
    ensures var d := Stop(w, p, i); !(d.effect.Some? && d.effect.value.Push?)
  {
  }

  lemma PushOutcome(w: World, i: Input)
    ensures var d := RunPush(w, i);
            var keeps := InHand(w) && IsRunning(w.p.value) ==> Git.Ancestor(w.p.value.correction.value.reviewed, w.ws.value.head);
            d.facts == [] && PushSays(w, i, keeps, d.to, d.effect, Written(w, d.writes))
  {
    if InHand(w) {
      HandedPush(w, i);
    } else {
      ClearedOutcome(w, Implementing, None);
      hide Written;
    }
  }

  /** `keeps` as git says it. */
  lemma PushComesTo(w: World, i: Input, keeps: bool)
    requires InHand(w) && IsRunning(w.p.value) ==> (keeps <==> Git.Ancestor(w.p.value.correction.value.reviewed, w.ws.value.head))
    ensures var d := RunPush(w, i); PushSays(w, i, keeps, d.to, d.effect, Written(SawAll(w, d.facts), d.writes))
  {
    hide RunPush, Written;
    PushOutcome(w, i);
  }

  // ---- The push read back ----

  /** The push is on the branch exactly where the branch is at its head. */
  predicate HasLanded(w: World) {
    w.p.Some? && w.remote == w.p.value.head
  }

  /** The progress, with the push that landed recorded as the lease of the next. */
  function Recording(w: World, now: Time): Progress
    requires w.p.Some?
  {
    var p := w.p.value;
    if p.pushed == p.head then p else p.(pushed := p.head, pushedAt := now)
  }

  predicate OpenSays(w: World, i: Input, to: State, effect: Option<Effect>, now: World) {
    if w.p.None? then
      if i.prOpen then to == Watching && effect == None && Untouched(w, now) else to == Implementing && effect == None && Emptied(now)
    else if HasLanded(w) then
      && now.p == Some(Recording(w, i.now))
      && if i.prOpen && !i.unfinished then to == Watching && effect == None && now.ws == w.ws
         else if i.prOpen then to == Opening && effect == Some(Other) && now.ws == w.ws
         else if i.tooBig || !i.roundsLeft then to == HandingBack && effect == Some(Other) && now.ws.None?
         else to == Opening && effect == Some(Other) && now.ws == w.ws
    else if w.remote == w.p.value.pushed then to == Pushing && effect == None && Untouched(w, now)
    else if w.p.value.pushed.None? then to == HandingBack && effect == Some(Other) && now.ws.None? && now.p == w.p
    else IsLost(i, to, effect, now)
  }

  lemma OpenOutcome(w: World, i: Input)
    ensures var d := RunOpen(w, i); d.facts == [] && OpenSays(w, i, d.to, d.effect, Written(w, d.writes))
  {
    WrittenTwo(w, DropWorkspace, DropProgress);
    WrittenOne(w, DropWorkspace);
    if w.p.Some? {
      var q := Land(w.p.value, w.remote, i.now).1;
      WrittenOne(w, Save(q));
      WrittenTwo(w, Save(q), DropWorkspace);
    }
  }

  // ---- The watch ----

  /** CI is green on the branch, and the branch is at the last push. */
  ghost predicate IsGreen(w: World, i: Input) {
    && w.p.Some? && i.prOpen && !IsFailed(w.p.value) && w.remote == w.p.value.pushed && i.runs != []
    && (forall r :: r in i.runs ==> r.completed && r.conclusion in {"success", "neutral", "skipped"})
    && (forall name :: name in i.required ==> exists r :: r in i.runs && r.name == name)
  }

  ghost predicate WatchComesTo(b: Bounds, w: World, i: Input, to: State, effect: Option<Effect>, now: World) {
    && now.green == w.green + (if IsGreen(w, i) && w.p.value.pushed.Some? then {w.p.value.pushed.value} else {})
    && if w.p.None? then IsLost(i, to, effect, now)
       else if !i.prOpen then to == Resting && effect == None && Emptied(now)
       else
         var p := w.p.value;
         var approval := exists r :: r in i.runs && r.conclusion == APPROVAL;
         if IsFailed(p) then to == (if AtReviewed(p) then Reviewing else Pushing) && effect == None && Untouched(w, now)
         else if w.remote != p.pushed then to == HandingBack && effect == Some(Other) && Emptied(now)
         else if IsGreen(w, i) then to == Reviewing && effect == None && Untouched(w, now)
         else if Unfinished(i.runs, i.required) && !i.late then to == Watching && effect == None && Untouched(w, now)
         else if !Unfinished(i.runs, i.required) && !approval && FixesWith(p) <= b.fixes then
           to == Implementing && effect == None && now.ws == w.ws
           && now.p == Some(p.(fixes := FixesWith(p), fixedHead := p.pushed, attempts := 0, failing := true))
         else
           var q := if Unfinished(i.runs, i.required) || approval then p else p.(fixes := FixesWith(p), fixedHead := p.pushed);
           if IsRunning(p) then IsStopped(w, q, i, to, effect, now)
           else to == HandingBack && effect == Some(Other) && Emptied(now)
  }

  lemma {:induction false} WrittenKeepsSeen(w: World, writes: seq<Write>)
    ensures var v := Written(w, writes); v.green == w.green && v.reviewed == w.reviewed
    decreases |writes|
  {
    if writes != [] {
      WrittenKeepsSeen(Wrote(w, writes[0]), writes[1..]);
    }
  }

  /** The watch's answer, in the words of what it saw. */
  lemma WatchAnswers(b: Bounds, w: World, i: Input)
    requires w.p.Some? && i.prOpen && !IsFailed(w.p.value)
    ensures var p := w.p.value; var approval := exists r :: r in i.runs && r.conclusion == APPROVAL;
            var (ci, q) := Watched(p, w.remote, i.runs, i.required, i.late, b.fixes);
            && (ci.Moved? <==> w.remote != p.pushed)
            && (ci.Green? <==> IsGreen(w, i))
            && (ci.Pending? <==> w.remote == p.pushed && Unfinished(i.runs, i.required) && !i.late)
            && (ci.Red? <==> w.remote == p.pushed && !IsGreen(w, i) && !Unfinished(i.runs, i.required) && !approval && FixesWith(p) <= b.fixes)
            && (ci.Late? <==> w.remote == p.pushed && Unfinished(i.runs, i.required) && i.late)
            && (ci.Approval? <==> w.remote == p.pushed && !IsGreen(w, i) && !Unfinished(i.runs, i.required) && approval)
            && q == if ci.Red? then p.(fixes := FixesWith(p), fixedHead := p.pushed, attempts := 0, failing := true)
                    else if ci.Spent? then p.(fixes := FixesWith(p), fixedHead := p.pushed)
                    else p
  {
    var p := w.p.value;
    WatchedSays(p, w.remote, i.runs, i.required, i.late, b.fixes);
    RunsSay(i.runs, i.required);
    hide Watched, Unfinished, FoundRed, AllGreen, SomeRed;
  }

  /** What follows from an answer. */
  ghost predicate Answered(w: World, ci: CI, q: Progress, i: Input, to: State, effect: Option<Effect>, now: World)
    requires w.p.Some?
  {
    match ci
    case Moved => to == HandingBack && effect == Some(Other) && Emptied(now)
    case Green => to == Reviewing && effect == None && Untouched(w, now)
    case Pending => to == Watching && effect == None && Untouched(w, now)
    case Red => to == Implementing && effect == None && now.ws == w.ws && now.p == Some(q)
    case _ => if IsRunning(w.p.value) then IsStopped(w, q, i, to, effect, now)
              else to == HandingBack && effect == Some(Other) && Emptied(now)
  }

  lemma RunWatchIs(b: Bounds, w: World, i: Input)
    requires w.p.Some? && i.prOpen && !IsFailed(w.p.value)
    ensures var p := w.p.value;
            var (ci, q) := Watched(p, w.remote, i.runs, i.required, i.late, b.fixes);
            && q.correction == p.correction
            && RunWatch(b, w, i) ==
                 match ci
                 case Pending => To(Watching)
                 case Green => To(Reviewing).(facts := [Fact.Green(p.pushed)])
                 case Red => Saving(q, Implementing)
                 case Moved => HandBackPR()
                 case _ => if IsRunning(p) then Stop(w, q, i) else HandBackPR()
  {
    var q := Watched(w.p.value, w.remote, i.runs, i.required, i.late, b.fixes).1;
    assert q.correction == w.p.value.correction;
    hide Watched, FailCorrection, HandBackPR;
  }

  lemma AnswerOutcome(b: Bounds, w: World, i: Input)
    requires w.p.Some? && i.prOpen && !IsFailed(w.p.value)
    ensures var d := RunWatch(b, w, i); var now := Written(SawAll(w, d.facts), d.writes);
            var (ci, q) := Watched(w.p.value, w.remote, i.runs, i.required, i.late, b.fixes);
            && now.green == w.green + (if ci.Green? && w.p.value.pushed.Some? then {w.p.value.pushed.value} else {})
            && Answered(w, ci, q, i, d.to, d.effect, now)
  {
    hide Watched, RunWatch, Stop, Written, SawAll, Cleared, IsStopped;
    var p := w.p.value;
    var d := RunWatch(b, w, i);
    var (ci, q) := Watched(p, w.remote, i.runs, i.required, i.late, b.fixes);
    RunWatchIs(b, w, i);
    StopOutcome(w, q, i);
    ClearedOutcome(w, HandingBack, Some(Other));
    ClearedSees();
    NothingDone(w);
    NothingDone(Saw(w, Fact.Green(p.pushed)));
    WrittenOne(w, Save(q));
    SawOne(w, Fact.Green(p.pushed));
    WrittenKeepsSeen(w, d.writes);
  }

  lemma ClearedSees()
    ensures forall to, effect :: Cleared(to, effect).facts == [] && Cleared(to, effect).to == to && Cleared(to, effect).effect == effect
  {
  }

  lemma WatchedOutcome(b: Bounds, w: World, i: Input)
    requires w.p.Some? && i.prOpen && !IsFailed(w.p.value)
    ensures var d := RunWatch(b, w, i); WatchComesTo(b, w, i, d.to, d.effect, Written(SawAll(w, d.facts), d.writes))
  {
    WatchAnswers(b, w, i);
    AnswerOutcome(b, w, i);
    hide Watched, Unfinished, IsGreen, RunWatch, IsStopped, Written, SawAll;
  }

  lemma WatchOutcome(b: Bounds, w: World, i: Input)
    ensures var d := RunWatch(b, w, i); WatchComesTo(b, w, i, d.to, d.effect, Written(SawAll(w, d.facts), d.writes))
  {
    if w.p.Some? && i.prOpen && !IsFailed(w.p.value) {
      WatchedOutcome(b, w, i);
    } else {
      var d := RunWatch(b, w, i);
      ClearedOutcome(w, HandingBack, Some(Other));
      ClearedOutcome(w, Resting, None);
      WrittenKeepsSeen(w, d.writes);
      hide Watched;
    }
  }

  // ---- The review ----

  /** The review of the branch at the last push was seen, and is what a correction may be made of. */
  predicate IsReviewed(w: World, i: Input) {
    w.p.Some? && i.prOpen && w.p.value.correction.None? && w.remote == w.p.value.pushed && i.review.Found?
  }

  predicate ReviewSays(w: World, i: Input, to: State, effect: Option<Effect>, now: World) {
    && now.reviewed == w.reviewed + (if IsReviewed(w, i) && w.p.value.pushed.Some? then {w.p.value.pushed.value} else {})
    && if w.p.None? then IsLost(i, to, effect, now)
       else if !i.prOpen then to == Resting && effect == None && Emptied(now)
       else
         var p := w.p.value;
         if IsRunning(p) && AtReviewed(p) then to == Implementing && effect == None && Untouched(w, now)
         else if IsFailed(p) && !AtReviewed(p) then to == Pushing && effect == None && Untouched(w, now)
         else if w.remote != p.pushed then to == HandingBack && effect == Some(Other) && Emptied(now)
         else if p.correction.Some? then
           && Untouched(w, now) && now.kept == w.remote
           && (if i.unfinished then to == Reviewing && effect == Some(Other) else to == HandingOff && effect == None)
         else if i.review == Found(true) && p.pushed.Some? then
           && to == Implementing && effect == None && now.ws == w.ws
           && now.p == Some(p.(correction := Some(Correction(p.pushed.value, false, false, 0)), attempts := 0, fixes := 0,
                               fixedHead := None, failing := false))
         else if i.review.Found? then to == HandingOff && effect == None && Untouched(w, now) && now.kept == w.remote
         else if i.review == ReviewerHandedBack then to == Resting && effect == None && Emptied(now)
         else if i.review == NoneComing then to == HandingBack && effect == Some(Other) && Emptied(now)
         else to == Reviewing && effect == Some(Other) && Untouched(w, now)
  }

  /** A review found, where a correction has not been made. */
  lemma FindingOutcome(w: World, i: Input)
    requires w.p.Some? && i.prOpen && w.p.value.correction.None? && w.remote == w.p.value.pushed && i.review.Found?
    ensures var d := RunReview(w, i); ReviewSays(w, i, d.to, d.effect, Written(SawAll(w, d.facts), d.writes))
  {
    hide Written, SawAll;
    var p := w.p.value;
    var d := RunReview(w, i);
    var v := SawAll(w, [Kept(w.remote), Reviewed(p.pushed)]);
    SawTwo(w, Kept(w.remote), Reviewed(p.pushed));
    NothingDone(v);
    if p.pushed.Some? {
      WrittenOne(v, Save(Begin(p)));
    }
  }

  /** And where none is. */
  lemma FoundOutcome(w: World, i: Input)
    requires w.p.Some? && i.prOpen && w.p.value.correction.None? && w.remote == w.p.value.pushed && !i.review.Found?
    ensures var d := RunReview(w, i); ReviewSays(w, i, d.to, d.effect, Written(SawAll(w, d.facts), d.writes))
  {
    hide Written, SawAll, Cleared;
    var d := RunReview(w, i);
    NothingDone(w);
    ClearedSees();
    ClearedOutcome(w, Resting, None);
    ClearedOutcome(w, HandingBack, Some(Other));
    SawOne(w, Kept(w.remote));
    NothingDone(SawAll(w, [Kept(w.remote)]));
    WrittenKeepsSeen(SawAll(w, d.facts), d.writes);
  }

  lemma ReviewOutcome(w: World, i: Input)
    ensures var d := RunReview(w, i); ReviewSays(w, i, d.to, d.effect, Written(SawAll(w, d.facts), d.writes))
  {
    if w.p.Some? && i.prOpen && w.p.value.correction.None? && w.remote == w.p.value.pushed {
      hide RunReview, ReviewSays;
      if i.review.Found? {
        FindingOutcome(w, i);
      } else {
        FoundOutcome(w, i);
      }
      return;
    }
    var d := RunReview(w, i);
    NothingDone(w);
    LostOutcome(w, i);
    ClearedOutcome(w, Resting, None);
    ClearedOutcome(w, HandingBack, Some(Other));
    SawOne(w, Kept(w.remote));
    NothingDone(SawAll(w, [Kept(w.remote)]));
    WrittenKeepsSeen(SawAll(w, d.facts), d.writes);
    hide Written, SawAll, Cleared, IsLost, Lost;
  }

  // ---- The hand-off ----

  predicate HandOffSays(w: World, i: Input, to: State, effect: Option<Effect>, now: World) {
    && (effect == Some(Label) <==> w.p.Some? && i.prOpen && !i.labelled && i.roundsLeft)
    && if w.p.None? then IsLost(i, to, effect, now)
       else if !i.prOpen || i.labelled then to == Resting && effect == None && Emptied(now)
       else if i.roundsLeft then to == HandingOff && Untouched(w, now)
       else to == HandingBack && effect == Some(Other) && Emptied(now)
  }

  lemma HandOffOutcome(w: World, i: Input)
    ensures var d := RunHandOff(w, i); d.facts == [] && HandOffSays(w, i, d.to, d.effect, Written(w, d.writes))
  {
    WrittenTwo(w, DropWorkspace, DropProgress);
  }
}
