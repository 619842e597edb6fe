/** The implement kind's transitions as they run: each reads its progress, writes to the state directory as it goes, and
    returns the state to commit and the effect to perform after (internal/implement, internal/delivery/machine.go). Each
    is proved to make exactly the writes Delivery decides, in their order, so that a kill finds one of the prefixes that the
    theorems about runs are about. */
module DeliveryJob {
  import opened Base
  import Git
  import opened Correcting
  import opened Work
  import opened Delivery
  import opened DeliveryOutcomes

  /** The job's world, and what was written and seen on the way there, in order. */
  datatype Disk = Disk(w: World, writes: seq<Write>, seen: seq<Fact>)

  /** From `was`, exactly what `d` decides was seen and written, in its order. */
  ghost predicate Reached(was: Disk, d: Decision, now: Disk) {
    && now.writes == was.writes + d.writes && now.seen == was.seen + d.facts
    && now.w == Written(SawAll(was.w, d.facts), d.writes)
  }

  /** A write made ahead of the rest of a decision. */
  lemma AfterWrite(was: Disk, a: Write, d: Decision, now: Disk)
    requires d.facts == [] && Reached(Disk(Wrote(was.w, a), was.writes + [a], was.seen), d, now)
    ensures Reached(was, d.(writes := [a] + d.writes), now)
  {
    assert ([a] + d.writes)[1..] == d.writes;
    assert was.writes + [a] + d.writes == was.writes + ([a] + d.writes);
  }

  lemma AfterNote(was: Disk, fact: Fact, d: Decision, now: Disk)
    requires Reached(Disk(Saw(was.w, fact), was.writes, was.seen + [fact]), d, now)
    ensures Reached(was, d.(facts := [fact] + d.facts), now)
  {
    assert ([fact] + d.facts)[1..] == d.facts;
    assert was.seen + [fact] + d.facts == was.seen + ([fact] + d.facts);
  }

  class Job {
    var w: World
    ghost var writes: seq<Write>
    ghost var seen: seq<Fact>

    ghost function At(): Disk
      reads this
    {
      Disk(w, writes, seen)
    }

    ghost predicate Does(was: Disk, d: Decision, to: State, effect: Option<Effect>)
      reads this
    {
      Reached(was, d, At()) && to == d.to && effect == d.effect
    }

    constructor (w: World)
      ensures this.w == w && writes == [] && seen == []
    {
      this.w := w;
      writes, seen := [], [];
    }

    method Write(a: Write)
      modifies this
      ensures At() == Disk(Wrote(old(w), a), old(writes) + [a], old(seen))
    {
      w := Wrote(w, a);
      writes := writes + [a];
    }

    method Note(fact: Fact)
      modifies this
      ensures At() == Disk(Saw(old(w), fact), old(writes), old(seen) + [fact])
    {
      w := Saw(w, fact);
      seen := seen + [fact];
    }

    method Move(next: State, owed: Option<Effect>) returns (to: State, effect: Option<Effect>)
      ensures Does(At(), Decision([], next, owed, []), to, effect)
    {
      assert writes + [] == writes && seen + [] == seen;
      return next, owed;
    }

    method Clear(next: State, owed: Option<Effect>) returns (to: State, effect: Option<Effect>)
      modifies this
      ensures Does(old(At()), Cleared(next, owed), to, effect)
    {
      Write(DropWorkspace);
      ghost var dropped := At();
      Write(DropProgress);
      to, effect := Move(next, owed);
      AfterWrite(dropped, DropProgress, Decision([], next, owed, []), At());
      AfterWrite(old(At()), DropWorkspace, Decision([DropProgress], next, owed, []), At());
    }

    method SaveAnd(p: Progress, next: State, owed: Option<Effect>) returns (to: State, effect: Option<Effect>)
      modifies this
      ensures Does(old(At()), Decision([Save(p)], next, owed, []), to, effect)
    {
      Write(Save(p));
      to, effect := Move(next, owed);
      AfterWrite(old(At()), Save(p), Decision([], next, owed, []), At());
    }

    /** The work's record lost after its push. */
    method Lose(i: Input) returns (to: State, effect: Option<Effect>)
      modifies this
      ensures Does(old(At()), Lost(i), to, effect)
    {
      if i.prOpen {
        to, effect := Clear(HandingBack, Some(Other));
      } else {
        to, effect := Clear(Resting, None);
      }
    }

    method GiveBackIssue() returns (to: State, effect: Option<Effect>)
      modifies this
      ensures Does(old(At()), HandBackIssue(), to, effect)
    {
      Write(DropWorkspace);
      to, effect := Move(HandingBack, Some(Other));
      AfterWrite(old(At()), DropWorkspace, Decision([], HandingBack, Some(Other), []), At());
    }

    method GiveBack(p: Progress, i: Input) returns (to: State, effect: Option<Effect>)
      modifies this
      ensures Does(old(At()), HandBack(p, i), to, effect)
    {
      if p.pushed.None? {
        to, effect := GiveBackIssue();
      } else if !i.prOpen {
        to, effect := Clear(Resting, None);
      } else {
        to, effect := Clear(HandingBack, Some(Other));
      }
    }

    /** The workspace is put back first, then the correction saved as failed, and then the job moves on. */
    method Fail(p: Progress, i: Input) returns (to: State, effect: Option<Effect>)
      requires Running(p.correction)
      modifies this
      ensures Does(old(At()), FailCorrection(old(w), p, i), to, effect)
    {
      if w.ws.None? {
        to, effect := Lose(i);
        return;
      }
      var c := p.correction.value;
      Write(Restore(c.reviewed));
      var failed := p.(correction := Some(Correcting.Fail(c, i.from)), failing := false);
      to, effect := SaveAnd(failed, StateOf(Over(failed.correction, failed.pushed)), None);
      AfterWrite(old(At()), Restore(c.reviewed), Decision([Save(failed)], to, effect, []), At());
    }

    method StopWork(p: Progress, i: Input) returns (to: State, effect: Option<Effect>)
      modifies this
      ensures Does(old(At()), Stop(old(w), p, i), to, effect)
    {
      if Running(p.correction) {
        to, effect := Fail(p, i);
      } else {
        to, effect := GiveBack(p, i);
      }
    }

    /** What a session left, and the progress as it ends: the workspace changes before the progress is saved. */
    method LeaveAnd(left: Checkout, p: Progress, next: State) returns (to: State, effect: Option<Effect>)
      modifies this
      ensures Does(old(At()), Decision([Leave(left), Save(p)], next, None, []), to, effect)
    {
      Write(Leave(left));
      to, effect := SaveAnd(p, next, None);
      AfterWrite(old(At()), Leave(left), Decision([Save(p)], next, None, []), At());
    }

    /** The session: a workspace begun afresh unless there is one to go on in, then what the session left of it. */
    method RunSession(i: Input) returns (to: State, effect: Option<Effect>)
      modifies this
      ensures Does(old(At()), Run(old(w), i), to, effect)
      ensures SessionSays(old(w), i, to, effect, w)
    {
      hide Given, NewProgress, SessionSays;
      SessionOutcome(w, i);
      if i.session.NoCandidate? {
        to, effect := Move(Deferred, None);
        return;
      }
      var usable := w.p.Some? && w.ws.Some? && !w.ws.value.switched;
      if !usable && (if w.p.Some? then w.p.value.pushed.Some? else i.prOpen) {
        to, effect := Lose(i);
        return;
      }
      var next := if i.session.Finished? then Gating else if i.session.defers then Deferred else Implementing;
      if usable {
        var p := if i.session.Finished? then Given(w.p.value) else w.p.value;
        to, effect := LeaveAnd(i.left, p, next);
        assert [] + [Leave(i.left), Save(p)] == [Leave(i.left), Save(p)];
        return;
      }
      var p := if i.session.Finished? then Given(NewProgress(i.base)) else NewProgress(i.base);
      to, effect := BeginAnd(i, p, next);
    }

    method BeginAnd(i: Input, p: Progress, next: State) returns (to: State, effect: Option<Effect>)
      modifies this
      ensures Does(old(At()), Decision([DropWorkspace, DropProgress, Fresh(i.base), Save(NewProgress(i.base))] + [Leave(i.left), Save(p)], next, None, []), to, effect)
    {
      hide NewProgress, Reached;
      var begun := NewProgress(i.base);
      Write(DropWorkspace);
      ghost var one := At();
      Write(DropProgress);
      ghost var two := At();
      Write(Fresh(i.base));
      ghost var three := At();
      Write(Save(begun));
      to, effect := LeaveAnd(i.left, p, next);
      ghost var rest := [Leave(i.left), Save(p)];
      AfterWrite(three, Save(begun), Decision(rest, next, None, []), At());
      AfterWrite(two, Fresh(i.base), Decision([Save(begun)] + rest, next, None, []), At());
      AfterWrite(one, DropProgress, Decision([Fresh(i.base)] + ([Save(begun)] + rest), next, None, []), At());
      AfterWrite(old(At()), DropWorkspace, Decision([DropProgress] + ([Fresh(i.base)] + ([Save(begun)] + rest)), next, None, []), At());
      assert [DropWorkspace] + ([DropProgress] + ([Fresh(i.base)] + ([Save(begun)] + rest)))
          == [DropWorkspace, DropProgress, Fresh(i.base), Save(begun)] + rest;
    }

    /** `keeps` is whether HEAD has the head a correction's review read, and `made` how many commits it has that the agent
        has not pushed, as git says. */
    method Gate(b: Bounds, i: Input, keeps: bool, made: nat) returns (to: State, effect: Option<Effect>)
      requires w.p.Some? && w.ws.Some? ==>
                 && (Running(w.p.value.correction) ==> (keeps <==> Git.Ancestor(w.p.value.correction.value.reviewed, w.ws.value.head)))
                 && (made == 0 <==> !Work.Made(w.p.value, w.ws.value))
      modifies this
      ensures Does(old(At()), RunGate(b, old(w), i), to, effect)
      ensures GateComesOut(b, old(w), i, keeps, made > 0, to, effect, w)
    {
      hide Stop, Checked, Cleared, AfterGate, GateComesOut;
      GateComesTo(b, w, i, keeps, made > 0);
      if w.p.None? || w.ws.None? {
        to, effect := Clear(Implementing, None);
        return;
      }
      var p, ws := w.p.value, w.ws.value;
      var over := Over(p.correction, p.pushed);
      if !over.Making? {
        to, effect := Move(StateOf(over), None);
        return;
      }
      if Running(p.correction) && !ws.switched && !keeps {
        to, effect := StopWork(p, i);
        return;
      }
      to, effect := Check(b, p, ws, i, made);
    }

    /** The gate itself, counted, and what follows from what it said. */
    method Check(b: Bounds, p: Progress, ws: Checkout, i: Input, made: nat) returns (to: State, effect: Option<Effect>)
      requires made == 0 <==> !Work.Made(p, ws)
      modifies this
      ensures var (gate, q) := Checked(p, ws, i.dirty, i.passes, b.gate);
              Does(old(At()), AfterGate(old(w), gate, q, i).(facts := [GateChecked]), to, effect)
    {
      hide Checked, AfterGate;
      var work := new Workspace(p);
      var gate := work.Check(ws, made, i.dirty, i.passes, b.gate);
      GateReadsTheDisk(w, gate, work.p, i);
      Note(GateChecked);
      to, effect := GateSaid(gate, work.p, i);
      AfterNote(old(At()), GateChecked, AfterGate(old(w), gate, work.p, i), At());
    }

    method GateSaid(gate: Work.Gate, p: Progress, i: Input) returns (to: State, effect: Option<Effect>)
      modifies this
      ensures Does(old(At()), AfterGate(old(w), gate, p, i), to, effect)
    {
      hide Stop, HandBackIssue;
      match gate {
        case Passed => to, effect := SaveAnd(p, Pushing, None);
        case Failing => to, effect := SaveAnd(p, Implementing, None);
        case Empty =>
          if !Running(p.correction) && p.pushed.None? && i.gaps {
            to, effect := GiveBackIssue();
          } else {
            to, effect := StopWork(p, i);
          }
        case _ => to, effect := StopWork(p, i);
      }
    }

    /** `keeps` is whether the commit to be sent has the head a correction's review read. */
    method PushWork(i: Input, keeps: bool) returns (to: State, effect: Option<Effect>)
      requires w.p.Some? && w.ws.Some? && Running(w.p.value.correction) ==> (keeps <==> Git.Ancestor(w.p.value.correction.value.reviewed, w.ws.value.head))
      modifies this
      ensures Does(old(At()), RunPush(old(w), i), to, effect)
      ensures PushSays(old(w), i, keeps, to, effect, w)
    {
      hide Stop, Cleared, PushSays;
      PushComesTo(w, i, keeps);
      if w.p.None? || w.ws.None? {
        to, effect := Clear(Implementing, None);
        return;
      }
      var p, head := w.p.value, w.ws.value.head;
      if p.cutting {
        to, effect := Move(Implementing, None);
        return;
      }
      var over := Over(p.correction, p.pushed);
      if !over.Making? && StateOf(over) != Pushing {
        to, effect := Move(StateOf(over), None);
        return;
      }
      if Running(p.correction) && !keeps {
        to, effect := StopWork(p, i);
        return;
      }
      if i.denied {
        to, effect := StopWork(p, i);
        return;
      }
      if i.oversize && !p.cut && p.pushed.None? {
        match i.keep {
          case Whole =>
            to, effect := SaveAnd(p.(cut := true, cutting := true, attempts := 0), Implementing, None);
            return;
          case WholeAgain => to, effect := Move(Pushing, Some(Other));
          return;
          case CannotKeep =>
        }
      }
      if !i.roundsLeft {
        to, effect := StopWork(p, i);
        return;
      }
      to, effect := SaveAnd(p.(head := Some(head)), Opening, Some(Push(head, p.pushed)));
    }

    method Open(i: Input) returns (to: State, effect: Option<Effect>)
      modifies this
      ensures Does(old(At()), RunOpen(old(w), i), to, effect)
      ensures OpenSays(old(w), i, to, effect, w)
    {
      hide HandBack, Cleared, OpenSays;
      OpenOutcome(w, i);
      if w.p.None? {
        if i.prOpen {
          to, effect := Move(Watching, None);
          return;
        }
        to, effect := Clear(Implementing, None);
        return;
      }
      var work := new Workspace(w.p.value);
      var landing := work.ReadBack(w.remote, i.now);
      if landing.Elsewhere? {
        to, effect := GiveBack(work.p, i);
        return;
      }
      if landing.NotLanded? {
        to, effect := Move(Pushing, None);
        return;
      }
      if i.prOpen && i.unfinished {
        to, effect := SaveAnd(work.p, Opening, Some(Other));
        return;
      }
      if i.prOpen {
        to, effect := SaveAnd(work.p, Watching, None);
        return;
      }
      if i.tooBig || !i.roundsLeft {
        Write(Save(work.p));
        to, effect := GiveBackIssue();
        AfterWrite(old(At()), Save(work.p), HandBackIssue(), At());
        return;
      }
      to, effect := SaveAnd(work.p, Opening, Some(Other));
    }

    method WatchCI(b: Bounds, i: Input) returns (to: State, effect: Option<Effect>)
      modifies this
      ensures Does(old(At()), RunWatch(b, old(w), i), to, effect)
      ensures WatchComesTo(b, old(w), i, to, effect, w)
    {
      hide FailCorrection, Cleared, Watched, Lost, WatchComesTo, WatchSays;
      WatchOutcome(b, w, i);
      if w.p.None? {
        to, effect := Lose(i);
        return;
      }
      if !i.prOpen {
        to, effect := Clear(Resting, None);
        return;
      }
      var p := w.p.value;
      var over := Over(p.correction, p.pushed);
      if !over.Making? {
        to, effect := Move(StateOf(over), None);
        return;
      }
      var work := new Workspace(p);
      var ci := work.Watch(w.remote, i.runs, i.required, i.late, b.fixes);
      match ci {
        case Pending => to, effect := Move(Watching, None);
        return;
        case Green =>
          to, effect := NoteAnd(Fact.Green(p.pushed), Reviewing, None);
        case Red => to, effect := SaveAnd(work.p, Implementing, None);
        case Moved => to, effect := Clear(HandingBack, Some(Other));
        case _ =>
          if Running(p.correction) {
            WatchedIsCorrecting(p, w.remote, i.runs, i.required, i.late, b.fixes);
            to, effect := Fail(work.p, i);
          } else {
            to, effect := Clear(HandingBack, Some(Other));
          }
      }
    }

    method AwaitReview(i: Input) returns (to: State, effect: Option<Effect>)
      modifies this
      ensures Does(old(At()), RunReview(old(w), i), to, effect)
      ensures ReviewSays(old(w), i, to, effect, w)
    {
      hide Cleared, Lost, Delivery.Begin, ReviewSays;
      ReviewOutcome(w, i);
      if w.p.None? {
        to, effect := Lose(i);
        return;
      }
      if !i.prOpen {
        to, effect := Clear(Resting, None);
        return;
      }
      var p := w.p.value;
      if p.correction.Some? {
        var next := Correcting.Next(p.correction, p.pushed);
        if !next.Edit? {
          to, effect := Move(StateOf(next), None);
          return;
        }
      }
      if w.remote != p.pushed {
        to, effect := Clear(HandingBack, Some(Other));
        return;
      }
      if p.correction.Some? {
        to, effect := NoteAnd(Kept(w.remote), if i.unfinished then Reviewing else HandingOff, if i.unfinished then Some(Other) else None);
        return;
      }
      match i.review {
        case Found(correctable) =>
          Note(Kept(w.remote));
          ghost var kept := At();
          Note(Reviewed(p.pushed));
          ghost var next := To(HandingOff);
          if correctable && p.pushed.Some? {
            to, effect := SaveAnd(Begin(p), Implementing, None);
            next := Saving(Begin(p), Implementing);
          } else {
            to, effect := Move(HandingOff, None);
          }
          AfterNote(kept, Reviewed(p.pushed), next, At());
          AfterNote(old(At()), Kept(old(w).remote), next.(facts := [Reviewed(p.pushed)]), At());
        case ReviewerHandedBack => to, effect := Clear(Resting, None);
        case NoneComing => to, effect := Clear(HandingBack, Some(Other));
        case Waiting => to, effect := NoteAnd(Kept(w.remote), Reviewing, Some(Other));
      }
    }

    method NoteAnd(fact: Fact, next: State, owed: Option<Effect>) returns (to: State, effect: Option<Effect>)
      modifies this
      ensures Does(old(At()), Decision([], next, owed, [fact]), to, effect)
    {
      Note(fact);
      to, effect := Move(next, owed);
      AfterNote(old(At()), fact, Decision([], next, owed, []), At());
    }

    method HandOff(i: Input) returns (to: State, effect: Option<Effect>)
      modifies this
      ensures Does(old(At()), RunHandOff(old(w), i), to, effect)
      ensures HandOffSays(old(w), i, to, effect, w)
    {
      hide Cleared, Lost, HandOffSays;
      HandOffOutcome(w, i);
      if w.p.None? {
        to, effect := Lose(i);
      } else if !i.prOpen || i.labelled {
        to, effect := Clear(Resting, None);
      } else if !i.roundsLeft {
        to, effect := Clear(HandingBack, Some(Other));
      } else {
        to, effect := Move(HandingOff, Some(Label));
        return;
      }
    }
  }

  lemma GateReadsTheDisk(w: World, gate: Work.Gate, q: Progress, i: Input)
    ensures AfterGate(Saw(w, GateChecked), gate, q, i) == AfterGate(w, gate, q, i) && AfterGate(w, gate, q, i).facts == []
  {
  }

  lemma WatchedIsCorrecting(p: Progress, at: Option<Commit>, runs: seq<CheckRun>, required: seq<string>, late: bool, bound: nat)
    ensures Watched(p, at, runs, required, late, bound).1.correction == p.correction
  {
  }
}
