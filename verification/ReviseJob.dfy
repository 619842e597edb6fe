/** The push of a revision, its read back and its replay as they run (internal/revise/revise_push.go): each proved to make
    exactly the writes Revise decides, in their order, so that a kill finds one of their prefixes. */
module ReviseJob {
  import opened Base
  import Git
  import opened Correcting
  import opened Work
  import opened Revise
  import opened ReviseOutcomes

  /** The job's world, and what was written on the way there, in order. */
  datatype Disk = Disk(w: World, writes: seq<Write>)

  ghost predicate Reached(was: Disk, d: Decision, now: Disk) {
    now.writes == was.writes + d.writes && now.w == Written(was.w, d.writes)
  }

  /** A write made ahead of the rest of a decision. */
  lemma AfterWrite(was: Disk, a: Write, d: Decision, now: Disk)
    requires Reached(Disk(Wrote(was.w, a), was.writes + [a]), d, now)
    ensures Reached(was, d.(writes := [a] + d.writes), now)
  {
    assert ([a] + d.writes)[1..] == d.writes;
    assert was.writes + [a] + d.writes == was.writes + ([a] + d.writes);
  }

  class Job {
    var w: World
    ghost var writes: seq<Write>

    ghost function At(): Disk
      reads this
    {
      Disk(w, writes)
    }

    /** Since `was`, exactly what `d` decides was written, in its order. */
    ghost predicate Does(was: Disk, d: Decision, to: State, effect: Option<Effect>)
      reads this
    {
      Reached(was, d, At()) && to == d.to && effect == d.effect
    }

    constructor (w: World)
      ensures this.w == w && writes == []
    {
      this.w := w;
      writes := [];
    }

    method Write(a: Write)
      modifies this
      ensures At() == Disk(Wrote(old(w), a), old(writes) + [a])
    {
      w := Wrote(w, a);
      writes := writes + [a];
    }

    method Move(next: State, owed: Option<Effect>) returns (to: State, effect: Option<Effect>)
      ensures Does(At(), Decision([], next, owed), to, effect)
    {
      assert writes + [] == writes;
      return next, owed;
    }

    /** The last write, and then the move. */
    method WriteAnd(a: Write, next: State, owed: Option<Effect>) returns (to: State, effect: Option<Effect>)
      modifies this
      ensures Does(old(At()), Decision([a], next, owed), to, effect)
    {
      Write(a);
      to, effect := Move(next, owed);
      AfterWrite(old(At()), a, Decision([], next, owed), At());
    }

    method GiveBack() returns (to: State, effect: Option<Effect>)
      modifies this
      ensures Does(old(At()), HandBack(), to, effect)
    {
      to, effect := WriteAnd(Clear, HandingBack, Some(Other));
    }

    method SaveAnd(p: Revision, next: State, owed: Option<Effect>) returns (to: State, effect: Option<Effect>)
      modifies this
      ensures Does(old(At()), Decision([Save(p)], next, owed), to, effect)
    {
      to, effect := WriteAnd(Save(p), next, owed);
    }

    method StopWork(p: Revision, i: Input) returns (to: State, effect: Option<Effect>)
      modifies this
      ensures Does(old(At()), Stop(old(w), p, i), to, effect)
    {
      if !Running(p.work.correction) || w.ws.None? {
        to, effect := GiveBack();
        return;
      }
      var c := Correcting.Fail(p.work.correction.value, i.from);
      var failed := p.(work := p.work.(correction := Some(c), failing := false));
      Write(Put(c.reviewed));
      to, effect := SaveAnd(failed, StateOf(Over(Some(c), p.work.pushed)), None);
      AfterWrite(old(At()), Put(c.reviewed), Decision([Save(failed)], to, effect), At());
    }

    /** `keeps` is whether the commit to be sent has the head the revision must stay on top of, as git says. */
    method PushWork(i: Input, keeps: bool) returns (to: State, effect: Option<Effect>)
      requires w.p.Some? && w.ws.Some? ==> (keeps <==> Git.Ancestor(KeptHead(w.p.value), w.ws.value.head))
      modifies this
      ensures Does(old(At()), RunPush(old(w), i), to, effect)
      ensures PushSays(old(w), i, keeps, to, effect, w)
    {
      hide Stop, HandBack, PushSays;
      PushOutcome(w, i, keeps);
      if w.p.None? || w.ws.None? {
        to, effect := GiveBack();
        return;
      }
      var p, head := w.p.value, w.ws.value.head;
      var over := Over(p.work.correction, p.work.pushed);
      if !over.Making? && StateOf(over) != Pushing {
        to, effect := Move(StateOf(over), None);
        return;
      }
      if !keeps || i.denied || !i.roundsLeft {
        to, effect := StopWork(p, i);
        return;
      }
      to, effect := SaveAnd(p.(work := p.work.(head := Some(head))), Pushed, Some(Push(head, p.work.pushed)));
    }

    /** On to the description's edit, or to the watch. */
    method Describe(i: Input) returns (to: State, effect: Option<Effect>)
      ensures Does(At(), Resensitize([], i), to, effect)
    {
      if i.unfinished {
        to, effect := Move(Pushed, Some(Other));
      } else {
        to, effect := Move(Delivered, None);
      }
    }

    method ReadBack(i: Input) returns (to: State, effect: Option<Effect>)
      modifies this
      ensures Does(old(At()), RunPushed(old(w), i), to, effect)
      ensures ReadBackSays(old(w), i, to, effect, w)
    {
      hide HandBack, ReadBackSays;
      ReadBackOutcome(w, i);
      if w.p.None? {
        to, effect := GiveBack();
        return;
      }
      var p := w.p.value;
      if p.work.pushed == p.work.head {
        to, effect := Describe(i);
        return;
      }
      var work := new Workspace(p.work);
      var landing := work.ReadBack(w.remote, i.now);
      if landing.Elsewhere? {
        if w.remote.None? || p.work.correction.Some? {
          to, effect := GiveBack();
        } else {
          to, effect := Move(Replaying, None);
        }
        return;
      }
      if landing.NotLanded? {
        to, effect := Move(Pushing, None);
        return;
      }
      Write(Save(p.(work := work.p)));
      to, effect := Describe(i);
      AfterWrite(old(At()), Save(p.(work := work.p)), Resensitize([], i), At());
      assert [Save(p.(work := work.p))] + [] == [Save(p.(work := work.p))];
    }

    /** `landed` is whether the branch has the head that was pushed, and `kept` whether it has the lease, as git says. The
        lease moves on, and is saved, before the workspace changes. */
    method Replay(b: Bounds, i: Input, landed: bool, kept: bool) returns (to: State, effect: Option<Effect>)
      requires w.p.Some? && w.remote.Some? && w.p.value.work.head.Some? ==> (landed <==> Git.Ancestor(w.p.value.work.head.value, w.remote.value))
      requires w.p.Some? && w.remote.Some? && w.p.value.work.pushed.Some? ==> (kept <==> Git.Ancestor(w.p.value.work.pushed.value, w.remote.value))
      modifies this
      ensures Does(old(At()), RunReplay(b, old(w), i), to, effect)
      ensures ReplaySays(b, old(w), i, landed, kept, to, effect, w)
    {
      hide ReplaySays;
      ReplayOutcome(b, w, i, landed, kept);
      if w.p.None? || w.ws.None? || w.remote.None? {
        to, effect := GiveBack();
        return;
      }
      var p, at := w.p.value, w.remote.value;
      if p.work.head.Some? && p.work.head != p.work.pushed && landed {
        to, effect := SaveAnd(p.(work := p.work.(pushed := p.work.head, pushedAt := i.now)), Pushed, None);
        return;
      }
      if p.work.pushed.None? || !kept {
        to, effect := GiveBack();
        return;
      }
      if Some(at) == p.work.pushed {
        assert [] + Finishing(i).writes == Finishing(i).writes;
        assert RunReplay(b, w, i) == Finishing(i);
        to, effect := Finish(i);
        return;
      }
      if p.replays >= b.replays {
        to, effect := GiveBack();
        return;
      }
      var counted := p.(work := p.work.(pushed := Some(at)), replays := p.replays + 1);
      assert RunReplay(b, w, i) == Decision([Save(counted)] + Finishing(i).writes, Finishing(i).to, Finishing(i).effect);
      Write(Save(counted));
      to, effect := Finish(i);
      AfterWrite(old(At()), Save(counted), Finishing(i), At());
    }

    /** The work on top of the lease, or a conflict. */
    method Finish(i: Input) returns (to: State, effect: Option<Effect>)
      modifies this
      ensures Does(old(At()), Finishing(i), to, effect)
    {
      if i.replay.None? {
        to, effect := WriteAnd(Clear, HandingBack, Some(Other));
      } else {
        to, effect := WriteAnd(OnTop(i.replay.value), Gating, None);
      }
    }
  }

  function Finishing(i: Input): Decision {
    match i.replay
    case None => Decision([Clear], HandingBack, Some(Other))
    case Some(head) => Decision([OnTop(head)], Gating, None)
  }
}
