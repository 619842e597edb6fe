/** What the gate, the push, the read-back and the replay of a revision come to, outcome by outcome, and what every push of
    one rests on over any run. */
module ReviseOutcomes {
  import opened Base
  import Git
  import opened Correcting
  import opened Work
  import opened Revise

  predicate InHand(w: World) {
    w.p.Some? && w.ws.Some?
  }

  predicate IsFailed(p: Revision) {
    p.work.correction.Some? && p.work.correction.value.failed
  }

  predicate IsRunning(p: Revision) {
    p.work.correction.Some? && !p.work.correction.value.failed
  }

  /** The branch is at the head the correction was made of. */
  predicate AtReviewed(p: Revision) {
    p.work.correction.Some? && p.work.pushed == Some(p.work.correction.value.reviewed)
  }

  predicate Untouched(w: World, now: World) {
    now.p == w.p && now.ws == w.ws
  }

  /** Returned to a human, with nothing of the work kept. */
  predicate IsHandedBack(to: State, effect: Option<Effect>, now: World) {
    to == HandingBack && effect == Some(Other) && now.p.None? && now.ws.None?
  }

  /** A running correction fails, and its workspace is put back; anything else is handed back. */
  predicate IsStopped(w: World, p: Revision, i: Input, to: State, effect: Option<Effect>, now: World) {
    if IsRunning(p) && w.ws.Some? then
      var c := p.work.correction.value;
      && to == (if p.work.pushed == Some(c.reviewed) then Delivered else Pushing) && effect == None
      && now.ws == Some(Checkout(false, c.reviewed))
      && now.p == Some(p.(work := p.work.(correction := Some(Correction(c.reviewed, c.given, true, i.from)), failing := false)))
    else IsHandedBack(to, effect, now)
  }

  lemma WrittenTwo(w: World, a: Write, c: Write)
    ensures Written(w, [a, c]) == Wrote(Wrote(w, a), c)
  {
    assert [a, c][1..] == [c];
    WrittenOne(Wrote(w, a), c);
  }

  lemma StopOutcome(w: World, p: Revision, i: Input)
    ensures var d := Stop(w, p, i); IsStopped(w, p, i, d.to, d.effect, Written(w, d.writes))
  {
    WrittenOne(w, Clear);
    if Running(p.work.correction) && w.ws.Some? {
      var c := Correcting.Fail(p.work.correction.value, i.from);
      WrittenTwo(w, Put(c.reviewed), Save(p.(work := p.work.(correction := Some(c), failing := false))));
    }
  }

  lemma HandBackOutcome(w: World)
    ensures IsHandedBack(HandBack().to, HandBack().effect, Written(w, HandBack().writes))
    ensures Written(w, []) == w
  {
    WrittenOne(w, Clear);
  }

  // ---- The session ----

  predicate IsUsable(w: World) {
    w.p.Some? && w.ws.Some? && !w.ws.value.switched
  }

  /** Work past its first push whose workspace is gone is handed back, and so is a send-back of a head the branch has lost;
      any other work is gone on in, or begun at the head that was read. */
  predicate SessionSays(w: World, i: Input, keeps: bool, to: State, effect: Option<Effect>, now: World) {
    if !IsUsable(w) && ((w.p.Some? && w.p.value.work.pushed != Some(w.read)) || w.remote.None? || !keeps) then IsHandedBack(to, effect, now)
    else
      var p := if IsUsable(w) then w.p.value
               else Revision(Progress(i.base, None, Some(w.read), 0, 0, false, 0, None, false, false, None), w.read, 0);
      && effect == None && now.ws == Some(i.left) && to == (if i.finished then Gating else Revising)
      && now.p == Some(if i.finished && IsRunning(p)
                       then p.(work := p.work.(correction := Some(p.work.correction.value.(given := true)))) else p)
  }

  lemma {:induction false} WrittenBoth(w: World, xs: seq<Write>, ys: seq<Write>)
    ensures Written(w, xs + ys) == Written(Written(w, xs), ys)
    decreases |xs|
  {
    if xs == [] {
      assert xs + ys == ys;
    } else {
      assert (xs + ys)[1..] == xs[1..] + ys;
      WrittenBoth(Wrote(w, xs[0]), xs[1..], ys);
    }
  }

  /** `keeps` is whether the branch still has the head that was read. */
  lemma SessionOutcome(w: World, i: Input, keeps: bool)
    requires w.remote.Some? ==> (keeps <==> Git.Ancestor(w.read, w.remote.value))
    ensures var d := Run(w, i); SessionSays(w, i, keeps, d.to, d.effect, Written(w, d.writes))
  {
    hide Written, Git.Ancestor;
    HandBackOutcome(w);
    var start := if Usable(w) then [] else [Clear, Fresh(w.read), Save(NewRevision(w.read, i.base))];
    var p := if Usable(w) then w.p.value else NewRevision(w.read, i.base);
    var q := if i.finished then Given(p) else p;
    WrittenBoth(w, start, [Leave(i.left), Save(q)]);
    WrittenTwo(Written(w, start), Leave(i.left), Save(q));
  }

  // ---- Once delivered ----

  /** A red run goes back to the session with its attempts begun again, unless a correction has failed; a correction is begun
      once, of the last push; and one that breaks is failed. */
  predicate DeliveredSays(w: World, i: Input, to: State, effect: Option<Effect>, now: World) {
    if w.p.None? then IsHandedBack(to, effect, now)
    else
      var p := w.p.value;
      if i.onward == Rest then to == Resting && effect == None && now.p.None? && now.ws.None?
      else if i.onward == Onward.Red && !IsFailed(p) then
        to == Revising && effect == None && now.ws == w.ws && now.p == Some(p.(work := p.work.(attempts := 0, failing := true)))
      else if i.onward == Begin && p.work.correction.None? && p.work.pushed.Some? then
        && to == Revising && effect == None && now.ws == w.ws
        && now.p == Some(p.(work := p.work.(correction := Some(Correction(p.work.pushed.value, false, false, 0)),
                                            attempts := 0, fixes := 0, fixedHead := None)))
      else if i.onward == Break && IsRunning(p) then IsStopped(w, p, i, to, effect, now)
      else if i.onward == Break && IsFailed(p) && !AtReviewed(p) then to == Pushing && effect == None && Untouched(w, now)
      else to == Delivered && effect == None && Untouched(w, now)
  }

  lemma DeliveredOutcome(w: World, i: Input)
    ensures var d := RunDelivered(w, i); DeliveredSays(w, i, d.to, d.effect, Written(w, d.writes))
  {
    hide Written;
    HandBackOutcome(w);
    WrittenOne(w, Clear);
    if w.p.Some? {
      var p := w.p.value;
      StopOutcome(w, p, i);
      WrittenOne(w, Save(p.(work := p.work.(attempts := 0, failing := true))));
      if p.work.pushed.Some? {
        WrittenOne(w, Save(p.(work := p.work.(correction := Some(Correction(p.work.pushed.value, false, false, 0)), attempts := 0, fixes := 0, fixedHead := None))));
      }
    }
  }

  // ---- The gate ----

  /** The gate is run, and the work is on top of what it must stay on top of. */
  predicate IsChecked(w: World, keeps: bool) {
    InHand(w) && !IsFailed(w.p.value) && (!w.ws.value.switched ==> keeps)
  }

  predicate GateComesOut(b: Bounds, w: World, i: Input, keeps: bool, made: bool, to: State, effect: Option<Effect>, now: World) {
    if !InHand(w) then IsHandedBack(to, effect, now)
    else
      var p, ws := w.p.value, w.ws.value;
      if IsFailed(p) then to == (if AtReviewed(p) then Delivered else Pushing) && effect == None && Untouched(w, now)
      else if IsChecked(w, keeps) && !ws.switched && made && !i.dirty && i.passes then
        to == Pushing && effect == None && now.ws == w.ws && now.p == Some(p.(work := p.work.(failing := false)))
      else if IsChecked(w, keeps) && !ws.switched && made && p.work.attempts + 1 < b.gate then
        && to == Revising && effect == None && now.ws == w.ws
        && now.p == Some(p.(work := p.work.(attempts := p.work.attempts + 1, failing := true)))
      else if IsChecked(w, keeps) && !ws.switched && made then
        IsStopped(w, p.(work := p.work.(attempts := p.work.attempts + 1, failing := true)), i, to, effect, now)
      else
        IsStopped(w, p, i, to, effect, now)
  }

  lemma GateOutcome(b: Bounds, w: World, i: Input)
    ensures var d := RunGate(b, w, i);
            var keeps := InHand(w) && Git.Ancestor(KeptHead(w.p.value), w.ws.value.head);
            GateComesOut(b, w, i, keeps, InHand(w) && Work.Made(w.p.value.work, w.ws.value), d.to, d.effect, Written(w, d.writes))
  {
    hide Written, Stop, IsStopped, Git.Ancestor, Work.Made, Checked, GateSays;
    HandBackOutcome(w);
    if InHand(w) {
      var p := w.p.value;
      var (gate, q) := Checked(p.work, w.ws.value, i.dirty, i.passes, b.gate);
      CheckedSays(p.work, w.ws.value, i.dirty, i.passes, b.gate);
      GateIsSaid(p.work, w.ws.value.switched, Work.Made(p.work, w.ws.value), !i.dirty && i.passes, b.gate, gate, q);
      StopOutcome(w, p, i);
      StopOutcome(w, p.(work := q), i);
      WrittenOne(w, Save(p.(work := q)));
    }
  }

  // ---- The push ----

  /** A push is made exactly of work on top of the head it must stay on top of, that touches nothing it may not, with
      rounds left, and never for a failed correction already back at its head. */
  predicate MayPush(w: World, i: Input, keeps: bool) {
    InHand(w) && !(IsFailed(w.p.value) && AtReviewed(w.p.value)) && keeps && !i.denied && i.roundsLeft
  }

  predicate PushSays(w: World, i: Input, keeps: bool, to: State, effect: Option<Effect>, now: World) {
    && (effect.Some? && effect.value.Push? <==> MayPush(w, i, keeps))
    && if MayPush(w, i, keeps) then
         var p, head := w.p.value, w.ws.value.head;
         && to == Pushed && effect == Some(Push(head, p.work.pushed)) && now.ws == w.ws
         && now.p == Some(p.(work := p.work.(head := Some(head))))
       else if !InHand(w) then IsHandedBack(to, effect, now)
       else if IsFailed(w.p.value) && AtReviewed(w.p.value) then to == Delivered && effect == None && Untouched(w, now)
       else IsStopped(w, w.p.value, i, to, effect, now)
  }

  lemma PushOutcome(w: World, i: Input, keeps: bool)
    requires InHand(w) ==> (keeps <==> Git.Ancestor(KeptHead(w.p.value), w.ws.value.head))
    ensures var d := RunPush(w, i); PushSays(w, i, keeps, d.to, d.effect, Written(w, d.writes))
  {
    hide Written, Stop, IsStopped, Git.Ancestor;
    HandBackOutcome(w);
    if InHand(w) {
      var p := w.p.value;
      StopOutcome(w, p, i);
      StopIsNoPush(w, p, i);
      WrittenOne(w, Save(p.(work := p.work.(head := Some(w.ws.value.head)))));
    }
  }

  lemma StopIsNoPush(w: World, p: Revision, i: Input)
    ensures !(Stop(w, p, i).effect.Some? && Stop(w, p, i).effect.value.Push?)
  {
  }

  // ---- The push read back ----

  /** On to the watch, or to the description's edit first. */
  predicate IsDescribed(i: Input, to: State, effect: Option<Effect>) {
    if i.unfinished then to == Pushed && effect == Some(Other) else to == Delivered && effect == None
  }

  predicate ReadBackSays(w: World, i: Input, to: State, effect: Option<Effect>, now: World) {
    if w.p.None? then IsHandedBack(to, effect, now)
    else
      var p := w.p.value;
      if p.work.pushed == p.work.head then IsDescribed(i, to, effect) && Untouched(w, now)
      else if w.remote == p.work.head then
        && IsDescribed(i, to, effect) && now.ws == w.ws
        && now.p == Some(p.(work := p.work.(pushed := p.work.head, pushedAt := i.now)))
      else if w.remote == p.work.pushed then to == Pushing && effect == None && Untouched(w, now)
      else if w.remote.Some? && p.work.correction.None? then to == Replaying && effect == None && Untouched(w, now)
      else IsHandedBack(to, effect, now)
  }

  lemma ReadBackOutcome(w: World, i: Input)
    ensures var d := RunPushed(w, i); ReadBackSays(w, i, d.to, d.effect, Written(w, d.writes))
  {
    hide Written;
    HandBackOutcome(w);
    if w.p.Some? {
      WrittenOne(w, Save(w.p.value.(work := Land(w.p.value.work, w.remote, i.now).1)));
    }
  }

  // ---- The replay ----

  /** The push landed after all, under what came on top of it. */
  predicate WasLanded(w: World, landed: bool) {
    w.p.Some? && w.p.value.work.head.Some? && w.p.value.work.head != w.p.value.work.pushed && landed
  }

  /** The branch still has the lease, and is there or may be followed once more. */
  predicate MayReplay(b: Bounds, w: World, kept: bool) {
    w.p.Some? && w.p.value.work.pushed.Some? && kept && (w.remote == w.p.value.work.pushed || w.p.value.replays < b.replays)
  }

  predicate ReplaySays(b: Bounds, w: World, i: Input, landed: bool, kept: bool, to: State, effect: Option<Effect>, now: World) {
    if !InHand(w) || w.remote.None? then IsHandedBack(to, effect, now)
    else
      var p := w.p.value;
      if WasLanded(w, landed) then
        && to == Pushed && effect == None && now.ws == w.ws
        && now.p == Some(p.(work := p.work.(pushed := p.work.head, pushedAt := i.now)))
      else if MayReplay(b, w, kept) && i.replay.Some? then
        && to == Gating && effect == None && now.ws == Some(Checkout(false, i.replay.value)) && now.onTop
        && now.p == Some(if w.remote == p.work.pushed then p else p.(work := p.work.(pushed := w.remote), replays := p.replays + 1))
      else IsHandedBack(to, effect, now)
  }

  function Counted(w: World): Revision
    requires InHand(w) && w.remote.Some?
  {
    var p := w.p.value;
    if w.remote == p.work.pushed then p else p.(work := p.work.(pushed := w.remote), replays := p.replays + 1)
  }

  /** The lease moved on, if it moves, and then the workspace, or a conflict. */
  lemma ReplayWrites(w: World, i: Input)
    requires InHand(w) && w.remote.Some?
    ensures var p := w.p.value;
            var writes := if w.remote != p.work.pushed then [Save(Counted(w))] else [];
            var now := Written(w, writes + [Clear]);
            && now.p.None? && now.ws.None?
            && (i.replay.Some? ==>
                  var v := Written(w, writes + [OnTop(i.replay.value)]);
                  v.p == Some(Counted(w)) && v.ws == Some(Checkout(false, i.replay.value)) && v.onTop)
  {
    var counted := Save(Counted(w));
    assert [counted] + [Clear] == [counted, Clear] && [] + [Clear] == [Clear];
    WrittenTwo(w, counted, Clear);
    WrittenOne(w, Clear);
    if i.replay.Some? {
      assert [counted] + [OnTop(i.replay.value)] == [counted, OnTop(i.replay.value)] && [] + [OnTop(i.replay.value)] == [OnTop(i.replay.value)];
      WrittenTwo(w, counted, OnTop(i.replay.value));
      WrittenOne(w, OnTop(i.replay.value));
    }
    hide Written;
  }

  lemma ReplayOutcome(b: Bounds, w: World, i: Input, landed: bool, kept: bool)
    requires w.p.Some? && w.remote.Some? && w.p.value.work.head.Some? ==> (landed <==> Git.Ancestor(w.p.value.work.head.value, w.remote.value))
    requires w.p.Some? && w.remote.Some? && w.p.value.work.pushed.Some? ==> (kept <==> Git.Ancestor(w.p.value.work.pushed.value, w.remote.value))
    ensures var d := RunReplay(b, w, i); ReplaySays(b, w, i, landed, kept, d.to, d.effect, Written(w, d.writes))
  {
    hide Written, Wrote, Git.Ancestor;
    HandBackOutcome(w);
    if InHand(w) && w.remote.Some? {
      var p := w.p.value;
      ReplayWrites(w, i);
      LandedWrites(w, p.(work := p.work.(pushed := p.work.head, pushedAt := i.now)));
    }
  }

  lemma LandedWrites(w: World, p: Revision)
    ensures var v := Written(w, [Save(p)]); v.p == Some(p) && v.ws == w.ws
  {
    WrittenOne(w, Save(p));
  }

  // ---- Over runs ----

  /** Of the last push to be decided: the commit, and whether it touched a path it may not. */
  datatype Look = Look(head: Commit, denied: bool)

  function Looked(w: World, s: Event, last: Option<Look>): Option<Look> {
    match s
    case Transition(i) => if w.state.Pushing? && InHand(w) then Some(Look(w.ws.value.head, i.denied)) else last
    case Killed(i, _) => if w.state.Pushing? && InHand(w) then Some(Look(w.ws.value.head, i.denied)) else last
    case _ => last
  }

  ghost function LastLook(b: Bounds, w: World, steps: seq<Event>, last: Option<Look>): Option<Look>
    requires Runs(b, w, steps)
    decreases |steps|
  {
    if steps == [] then last else LastLook(b, Revise.Next(b, w, steps[0]), steps[1..], Looked(w, steps[0], last))
  }

  ghost predicate LookedAt(w: World, last: Option<Look>) {
    w.effect.Some? && w.effect.value.Push? ==> last == Some(Look(w.effect.value.head, false))
  }

  lemma {:induction false} WrittenKeepsEffect(w: World, writes: seq<Write>)
    ensures Written(w, writes).effect == w.effect
    decreases |writes|
  {
    if writes != [] {
      WrittenKeepsEffect(Wrote(w, writes[0]), writes[1..]);
    }
  }

  lemma OthersPushNothing(b: Bounds, w: World, i: Input)
    ensures !w.state.Pushing? ==> !(Decide(b, w, i).effect.Some? && Decide(b, w, i).effect.value.Push?)
  {
    hide Checked, RunPush, Git.Ancestor;
  }

  lemma StepIsLookedAt(b: Bounds, w: World, s: Event, last: Option<Look>)
    requires LookedAt(w, last) && Enabled(b, w, s)
    ensures LookedAt(Revise.Next(b, w, s), Looked(w, s, last))
  {
    hide Written, RunPush, RunGate, RunReplay, RunPushed, RunDelivered, Run;
    match s
    case Transition(i) =>
      OthersPushNothing(b, w, i);
      PushOutcome(w, i, InHand(w) && Git.Ancestor(KeptHead(w.p.value), w.ws.value.head));
    case Killed(i, n) => WrittenKeepsEffect(w, Decide(b, w, i).writes[..n]);
    case _ =>
  }

  /** Over every run, killed anywhere and whatever others push: a commit on its way to the branch was found, by the
      transition that decided its push, to touch no path it may not. */
  lemma {:induction false} EveryPushIsLookedAt(b: Bounds, w: World, steps: seq<Event>, last: Option<Look>)
    requires LookedAt(w, last) && Runs(b, w, steps)
    ensures LookedAt(After(b, w, steps), LastLook(b, w, steps, last))
    decreases |steps|
  {
    if steps != [] {
      hide Enabled, Revise.Next, Looked, LookedAt;
      StepIsLookedAt(b, w, steps[0], last);
      EveryPushIsLookedAt(b, Revise.Next(b, w, steps[0]), steps[1..], Looked(w, steps[0], last));
    }
  }

  lemma NoPushIsDenied(b: Bounds, w: World, steps: seq<Event>)
    requires Init(w) && Runs(b, w, steps) && After(b, w, steps).effect.Some? && After(b, w, steps).effect.value.Push?
    ensures LastLook(b, w, steps, None) == Some(Look(After(b, w, steps).effect.value.head, false))
  {
    EveryPushIsLookedAt(b, w, steps, None);
  }
}
