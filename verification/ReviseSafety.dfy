/** What every run of a revision keeps: the head the send-back was written against is in the history of everything it
    pushes and of every lease it holds, and its replays are counted and bounded. Other people's later pushes are only
    kept while no session runs on top of them. */
module ReviseSafety {
  import opened Base
  import Git
  import opened Correcting
  import opened Work
  import opened Revise

  function Replays(leases: seq<Lease>): nat {
    if leases == [] then 0
    else Replays(leases[..|leases| - 1]) + (if leases[|leases| - 1].replayed then 1 else 0)
  }

  /** Every lease has the head that was read, and a replay moves the lease strictly on. */
  ghost predicate Chained(read: Commit, leases: seq<Lease>) {
    && (forall k :: 0 <= k < |leases| ==> Git.Ancestor(read, leases[k].at))
    && (forall k :: 0 < k < |leases| && leases[k].replayed ==>
          Git.Ancestor(leases[k - 1].at, leases[k].at) && leases[k - 1].at != leases[k].at)
  }

  ghost predicate Recorded(b: Bounds, w: World, p: Revision) {
    && p.read == w.read
    && p.work.pushed.Some?
    && (p.work.head.Some? ==> Git.Ancestor(w.read, p.work.head.value))
    && (p.work.correction.Some? ==> Git.Ancestor(w.read, p.work.correction.value.reviewed))
    && Chained(w.read, w.leases) && w.leases != [] && w.leases[|w.leases| - 1].at == p.work.pushed.value
    && Replays(w.leases) == p.replays <= b.replays
  }

  /** The work as a replay left it, on top of the lease. */
  ghost predicate Topped(w: World) {
    w.onTop ==> w.p.Some? && w.ws.Some? && w.p.value.work.pushed.Some? && Git.Ancestor(w.p.value.work.pushed.value, w.ws.value.head)
  }

  ghost predicate InFlight(w: World, e: Effect) {
    match e
    case Push(head, lease) =>
      && w.state.Pushed? && w.p.Some? && w.p.value.work.head == Some(head) && lease == w.p.value.work.pushed
      && w.ws.Some? && w.ws.value.head == head
    case Other => true
  }

  ghost predicate Inv(b: Bounds, w: World) {
    && (w.p.Some? ==> Recorded(b, w, w.p.value))
    && (w.p.None? ==> w.leases == [])
    && Topped(w)
    && (w.state.Pushed? && w.p.Some? ==> w.p.value.work.head.Some?)
    && (w.effect.Some? ==> InFlight(w, w.effect.value))
  }

  // ---- Prefixes of writes ----

  ghost predicate Keeps(b: Bounds, w: World, writes: seq<Write>)
    decreases |writes|
  {
    Inv(b, w) && (writes != [] ==> Keeps(b, Wrote(w, writes[0]), writes[1..]))
  }

  lemma {:induction false} PrefixKeeps(b: Bounds, w: World, writes: seq<Write>, n: nat)
    requires Keeps(b, w, writes) && n <= |writes|
    ensures Inv(b, Written(w, writes[..n]))
    decreases n
  {
    if n > 0 {
      assert writes[..n][1..] == writes[1..][..n - 1];
      PrefixKeeps(b, Wrote(w, writes[0]), writes[1..], n - 1);
    }
  }

  lemma {:induction false} KeepsBoth(b: Bounds, w: World, xs: seq<Write>, ys: seq<Write>)
    requires Keeps(b, w, xs) && Keeps(b, Written(w, xs), ys)
    ensures Keeps(b, w, xs + ys) && Written(w, xs + ys) == Written(Written(w, xs), ys)
    decreases |xs|
  {
    if xs == [] {
      assert xs + ys == ys;
    } else {
      assert (xs + ys)[1..] == xs[1..] + ys;
      KeepsBoth(b, Wrote(w, xs[0]), xs[1..], ys);
    }
  }

  lemma One(b: Bounds, w: World, a: Write)
    requires Inv(b, w) && Inv(b, Wrote(w, a))
    ensures Keeps(b, w, [a]) && Written(w, [a]) == Wrote(w, a)
  {
    assert [a][1..] == [];
    assert Keeps(b, Wrote(w, a), []);
  }

  lemma Two(b: Bounds, w: World, a: Write, c: Write)
    requires Inv(b, w) && Inv(b, Wrote(w, a)) && Inv(b, Wrote(Wrote(w, a), c))
    ensures Keeps(b, w, [a, c]) && Written(w, [a, c]) == Wrote(Wrote(w, a), c)
  {
    assert [a, c][1..] == [c];
    One(b, Wrote(w, a), c);
  }

  /** The decision keeps the invariant, made whole or cut short after any of its writes. */
  ghost predicate Good(b: Bounds, w: World, d: Decision) {
    && Keeps(b, w, d.writes)
    && Inv(b, Written(w, d.writes).(state := d.to, effect := d.effect))
  }

  // ---- Each shape of decision ----

  lemma MoveIsGood(b: Bounds, w: World, to: State, effect: Option<Effect>)
    requires Inv(b, w) && (effect.None? || effect.value.Other?) && !(to.Pushed? && !w.state.Pushed?)
    ensures Good(b, w, Decision([], to, effect))
  {
  }

  lemma ClearedIsGood(b: Bounds, w: World, to: State, effect: Option<Effect>)
    requires Inv(b, w) && w.effect.None? && (effect.None? || effect.value.Other?)
    ensures Good(b, w, Decision([Clear], to, effect))
  {
    One(b, w, Clear);
  }

  /** Nothing the invariant reads changes. */
  predicate SameWork(p: Revision, q: Revision) {
    && q.read == p.read && q.replays == p.replays
    && q.work.head == p.work.head && q.work.pushed == p.work.pushed
    && (q.work.correction.Some? ==>
          (p.work.correction.Some? && q.work.correction.value.reviewed == p.work.correction.value.reviewed)
          || Some(q.work.correction.value.reviewed) == p.work.pushed)
  }

  lemma LeaseHasRead(b: Bounds, w: World)
    requires Inv(b, w) && w.p.Some?
    ensures w.p.value.work.pushed.Some? && Git.Ancestor(w.read, w.p.value.work.pushed.value)
  {
    var last := |w.leases| - 1;
    assert w.leases[last].at == w.p.value.work.pushed.value;
  }

  lemma SameWorkKeeps(b: Bounds, w: World, q: Revision)
    requires Inv(b, w) && w.effect.None? && w.p.Some? && SameWork(w.p.value, q)
    ensures Inv(b, Wrote(w, Save(q)))
  {
    LeaseHasRead(b, w);
  }

  lemma SavingIsGood(b: Bounds, w: World, q: Revision, to: State, effect: Option<Effect>)
    requires Inv(b, w) && w.effect.None? && Inv(b, Wrote(w, Save(q))) && (effect.None? || effect.value.Other?) && (to.Pushed? ==> q.work.head.Some?)
    ensures Good(b, w, Decision([Save(q)], to, effect))
  {
    One(b, w, Save(q));
  }

  lemma PutKeeps(b: Bounds, w: World, ws: Checkout)
    requires Inv(b, w) && w.effect.None?
    ensures Inv(b, w.(ws := Some(ws), onTop := false))
  {
  }

  lemma MovesOn(b: Bounds, w: World, to: State)
    requires Inv(b, w) && w.effect.None? && !to.Pushed?
    ensures Inv(b, w.(state := to, effect := None))
  {
  }

  lemma FailureIsGood(b: Bounds, w: World, q: Revision, i: Input)
    requires Inv(b, w) && w.effect.None? && w.p.Some? && SameWork(w.p.value, q) && Running(q.work.correction)
    ensures Good(b, w, FailCorrection(w, q, i))
  {
    ClearedIsGood(b, w, HandingBack, Some(Other));
    if w.ws.Some? {
      var c := Correcting.Fail(q.work.correction.value, i.from);
      var failed := q.(work := q.work.(correction := Some(c), failing := false));
      var w1 := Wrote(w, Put(c.reviewed));
      PutKeeps(b, w, Checkout(false, c.reviewed));
      SameWorkKeeps(b, w1, failed);
      Two(b, w, Put(c.reviewed), Save(failed));
      var to := StateOf(Over(Some(c), q.work.pushed));
      MovesOn(b, Wrote(w1, Save(failed)), to);
      hide Inv;
    }
  }

  lemma StopIsGood(b: Bounds, w: World, q: Revision, i: Input)
    requires Inv(b, w) && w.effect.None? && w.p.Some? && SameWork(w.p.value, q)
    ensures Good(b, w, Stop(w, q, i))
  {
    hide Good;
    ClearedIsGood(b, w, HandingBack, Some(Other));
    if Running(q.work.correction) {
      FailureIsGood(b, w, q, i);
    }
  }

  // ---- Each transition ----

  lemma StartKeeps(b: Bounds, w: World, base: Commit)
    requires Inv(b, w) && w.effect.None? && w.state.Revising?
    ensures var start := [Clear, Fresh(w.read), Save(NewRevision(w.read, base))];
            && Keeps(b, w, start)
            && Written(w, start).p == Some(NewRevision(w.read, base)) && Written(w, start).effect.None?
  {
    var w1 := Wrote(w, Clear);
    var w2 := Wrote(w1, Fresh(w.read));
    var p := NewRevision(w.read, base);
    var w3 := Wrote(w2, Save(p));
    assert w3.leases == [Lease(w.read, false)];
    assert w3.leases[..0] == [];
    assert Recorded(b, w3, p);
    One(b, w, Clear);
    Two(b, w1, Fresh(w.read), Save(p));
    KeepsBoth(b, w, [Clear], [Fresh(w.read), Save(p)]);
    assert [Clear] + [Fresh(w.read), Save(p)] == [Clear, Fresh(w.read), Save(p)];
  }

  lemma SessionIsGood(b: Bounds, w: World, i: Input, q: Revision, to: State)
    requires Inv(b, w) && w.effect.None? && w.p.Some? && SameWork(w.p.value, q) && (to.Revising? || to.Gating?)
    ensures Good(b, w, Decision([Leave(i.left), Save(q)], to, None))
  {
    PutKeeps(b, w, i.left);
    SameWorkKeeps(b, Wrote(w, Leave(i.left)), q);
    Two(b, w, Leave(i.left), Save(q));
  }

  lemma RunIsGood(b: Bounds, w: World, i: Input)
    requires Inv(b, w) && w.effect.None? && w.state.Revising?
    ensures Good(b, w, Run(w, i))
  {
    ClearedIsGood(b, w, HandingBack, Some(Other));
    if Usable(w) || ((w.p.None? || w.p.value.work.pushed == Some(w.read)) && w.remote.Some? && Git.Ancestor(w.read, w.remote.value)) {
      var start := if Usable(w) then [] else [Clear, Fresh(w.read), Save(NewRevision(w.read, i.base))];
      var p := if Usable(w) then w.p.value else NewRevision(w.read, i.base);
      var q := if i.finished then Given(p) else p;
      var to := if i.finished then Gating else Revising;
      if !Usable(w) {
        StartKeeps(b, w, i.base);
      }
      var begun := Written(w, start);
      PrefixKeeps(b, w, start, |start|);
      assert start[..|start|] == start;
      SessionIsGood(b, begun, i, q, to);
      KeepsBoth(b, w, start, [Leave(i.left), Save(q)]);
    }
  }

  lemma GateIsGood(b: Bounds, w: World, i: Input)
    requires Inv(b, w) && w.effect.None?
    ensures Good(b, w, RunGate(b, w, i))
  {
    hide Good, Inv, Stop;
    ClearedIsGood(b, w, HandingBack, Some(Other));
    if w.p.Some? && w.ws.Some? {
      var p, ws := w.p.value, w.ws.value;
      var q := p.(work := Checked(p.work, ws, i.dirty, i.passes, b.gate).1);
      MoveIsGood(b, w, StateOf(Over(p.work.correction, p.work.pushed)), None);
      StopIsGood(b, w, p, i);
      StopIsGood(b, w, q, i);
      SameWorkKeeps(b, w, q);
      SavingIsGood(b, w, q, Pushing, None);
      SavingIsGood(b, w, q, Revising, None);
    }
  }

  lemma SendIsGood(b: Bounds, w: World)
    requires Inv(b, w) && w.effect.None? && w.p.Some? && w.ws.Some? && Git.Ancestor(KeptHead(w.p.value), w.ws.value.head)
    ensures var p, head := w.p.value, w.ws.value.head;
            Good(b, w, Decision([Save(p.(work := p.work.(head := Some(head))))], Pushed, Some(Push(head, p.work.pushed))))
  {
    var p, head := w.p.value, w.ws.value.head;
    if Running(p.work.correction) {
      Git.AncestorIsTransitive(w.read, p.work.correction.value.reviewed, head);
    }
    var q := p.(work := p.work.(head := Some(head)));
    var w1 := Wrote(w, Save(q));
    assert w1.leases == w.leases;
    assert Recorded(b, w1, q);
    One(b, w, Save(q));
  }

  lemma PushIsGood(b: Bounds, w: World, i: Input)
    requires Inv(b, w) && w.effect.None?
    ensures Good(b, w, RunPush(w, i))
  {
    hide Good, Inv, Stop;
    ClearedIsGood(b, w, HandingBack, Some(Other));
    if w.p.Some? && w.ws.Some? {
      MoveIsGood(b, w, Delivered, None);
      StopIsGood(b, w, w.p.value, i);
      if Git.Ancestor(KeptHead(w.p.value), w.ws.value.head) {
        SendIsGood(b, w);
      }
    }
  }

  /** The lease moves to a head with the head that was read, by a landing. */
  lemma LandingKeeps(b: Bounds, w: World, now: Time)
    requires Inv(b, w) && w.effect.None? && w.p.Some? && w.p.value.work.head.Some? && w.p.value.work.head != w.p.value.work.pushed
    ensures var p := w.p.value; Inv(b, Wrote(w, Save(p.(work := p.work.(pushed := p.work.head, pushedAt := now)))))
  {
    var p := w.p.value;
    var q := p.(work := p.work.(pushed := p.work.head, pushedAt := now));
    LeaseMoves(b, w, q);
  }

  lemma ChainGrows(read: Commit, leases: seq<Lease>, next: Lease)
    requires Chained(read, leases) && leases != [] && Git.Ancestor(read, next.at)
    requires next.replayed ==> Git.Ancestor(leases[|leases| - 1].at, next.at) && leases[|leases| - 1].at != next.at
    ensures Chained(read, leases + [next])
    ensures Replays(leases + [next]) == Replays(leases) + if next.replayed then 1 else 0
  {
    hide Git.Ancestor;
    var all := leases + [next];
    assert all[..|all| - 1] == leases;
    assert forall k :: 0 <= k < |leases| ==> all[k] == leases[k];
  }

  /** What moving a lease on to `q` asks of it. */
  ghost predicate MovesLease(b: Bounds, w: World, q: Revision) {
    && w.p.Some?
    && q.read == w.p.value.read && q.work.head == w.p.value.work.head && q.work.correction == w.p.value.work.correction
    && w.p.value.work.pushed.Some? && q.work.pushed.Some? && q.work.pushed != w.p.value.work.pushed
    && if q.replays == w.p.value.replays then Git.Ancestor(w.read, q.work.pushed.value)
       else q.replays == w.p.value.replays + 1 <= b.replays && Git.Ancestor(w.p.value.work.pushed.value, q.work.pushed.value)
  }

  lemma LeaseRecorded(b: Bounds, w: World, q: Revision)
    requires w.p.Some? && Recorded(b, w, w.p.value) && MovesLease(b, w, q) && Git.Ancestor(w.read, q.work.pushed.value)
    ensures Recorded(b, Wrote(w, Save(q)), q)
  {
    hide Git.Ancestor, Chained, Replays;
    var next := Lease(q.work.pushed.value, q.replays != w.p.value.replays);
    ChainGrows(w.read, w.leases, next);
    assert Wrote(w, Save(q)).leases == w.leases + [next];
  }

  /** The lease moves on: one more in the chain. */
  lemma LeaseMoves(b: Bounds, w: World, q: Revision)
    requires Inv(b, w) && w.effect.None? && MovesLease(b, w, q)
    ensures Inv(b, Wrote(w, Save(q)))
  {
    LeaseHasRead(b, w);
    if q.replays != w.p.value.replays {
      Git.AncestorIsTransitive(w.read, w.p.value.work.pushed.value, q.work.pushed.value);
    }
    LeaseRecorded(b, w, q);
    hide Recorded;
  }

  lemma PushedIsGood(b: Bounds, w: World, i: Input)
    requires Inv(b, w) && w.effect.None? && w.state.Pushed?
    ensures Good(b, w, RunPushed(w, i))
  {
    assert w.p.Some? ==> w.p.value.work.pushed.Some? && w.p.value.work.head.Some?;
    hide Good, Inv;
    ClearedIsGood(b, w, HandingBack, Some(Other));
    MoveIsGood(b, w, Pushed, Some(Other));
    MoveIsGood(b, w, Delivered, None);
    MoveIsGood(b, w, Pushing, None);
    MoveIsGood(b, w, Replaying, None);
    if w.p.Some? && w.p.value.work.pushed != w.p.value.work.head {
      var p := w.p.value;
      var (landing, work) := Land(p.work, w.remote, i.now);
      var q := p.(work := work);
      if landing.Landed? {
        LandingKeeps(b, w, i.now);
        SavingIsGood(b, w, q, Pushed, Some(Other));
        SavingIsGood(b, w, q, Delivered, None);
      }
    }
  }

  lemma ToppedIsGood(b: Bounds, w: World, head: Commit)
    requires Inv(b, w) && w.effect.None? && w.p.Some? && Some(w.p.value.work.pushed.value) == w.p.value.work.pushed
    requires Git.Ancestor(w.p.value.work.pushed.value, head)
    ensures Good(b, w, Decision([OnTop(head)], Gating, None))
  {
    One(b, w, OnTop(head));
  }

  lemma {:induction false} AfterIsGood(b: Bounds, w: World, a: Write, d: Decision)
    requires Inv(b, w) && Good(b, Wrote(w, a), d)
    ensures Good(b, w, Decision([a] + d.writes, d.to, d.effect))
  {
    assert ([a] + d.writes)[1..] == d.writes;
  }

  /** The lease moves onto their head, and then the work does. */
  lemma CountedIsGood(b: Bounds, w: World, i: Input)
    requires Inv(b, w) && w.effect.None? && w.p.Some? && w.remote.Some? && w.state.Replaying? && Replayed(w, i)
    requires w.p.value.work.pushed.Some? && Git.Ancestor(w.p.value.work.pushed.value, w.remote.value)
    requires w.remote != w.p.value.work.pushed && w.p.value.replays < b.replays
    ensures var q := w.p.value.(work := w.p.value.work.(pushed := w.remote), replays := w.p.value.replays + 1);
            if i.replay.None? then Good(b, w, Decision([Save(q)] + [Clear], HandingBack, Some(Other)))
            else Good(b, w, Decision([Save(q)] + [OnTop(i.replay.value)], Gating, None))
  {
    var q := w.p.value.(work := w.p.value.work.(pushed := w.remote), replays := w.p.value.replays + 1);
    LeaseMoves(b, w, q);
    var w1 := Wrote(w, Save(q));
    assert w1.effect.None? && w1.p == Some(q);
    hide Good, Inv;
    if i.replay.None? {
      ClearedIsGood(b, w1, HandingBack, Some(Other));
      AfterIsGood(b, w, Save(q), Decision([Clear], HandingBack, Some(Other)));
    } else {
      ToppedIsGood(b, w1, i.replay.value);
      AfterIsGood(b, w, Save(q), Decision([OnTop(i.replay.value)], Gating, None));
    }
  }

  lemma ReplayIsGood(b: Bounds, w: World, i: Input)
    requires Inv(b, w) && w.effect.None? && w.state.Replaying? && Replayed(w, i)
    ensures Good(b, w, RunReplay(b, w, i))
  {
    assert w.p.Some? ==> w.p.value.work.pushed.Some?;
    hide Good, Inv;
    ClearedIsGood(b, w, HandingBack, Some(Other));
    if w.p.Some? && w.ws.Some? && w.remote.Some? {
      var p, at := w.p.value, w.remote.value;
      if p.work.head.Some? && p.work.head != p.work.pushed && Git.Ancestor(p.work.head.value, at) {
        LandingKeeps(b, w, i.now);
        SavingIsGood(b, w, p.(work := p.work.(pushed := p.work.head, pushedAt := i.now)), Pushed, None);
      } else if Git.Ancestor(p.work.pushed.value, at) {
        if w.remote == p.work.pushed {
          assert [] + [Clear] == [Clear];
          if i.replay.Some? {
            assert [] + [OnTop(i.replay.value)] == [OnTop(i.replay.value)];
            ToppedIsGood(b, w, i.replay.value);
          }
        } else if p.replays < b.replays {
          CountedIsGood(b, w, i);
        }
      }
    }
  }

  lemma DeliveredIsGood(b: Bounds, w: World, i: Input)
    requires Inv(b, w) && w.effect.None?
    ensures Good(b, w, RunDelivered(w, i))
  {
    hide Good, Inv;
    ClearedIsGood(b, w, HandingBack, Some(Other));
    ClearedIsGood(b, w, Resting, None);
    MoveIsGood(b, w, Delivered, None);
    if w.p.Some? {
      var p := w.p.value;
      MoveIsGood(b, w, StateOf(Over(p.work.correction, p.work.pushed)), None);
      var d := RunDelivered(w, i);
      if i.onward.Red? || i.onward.Begin? {
        if d.writes != [] {
          SameWorkKeeps(b, w, d.writes[0].p);
          SavingIsGood(b, w, d.writes[0].p, Revising, None);
        }
      } else if Running(p.work.correction) {
        FailureIsGood(b, w, p, i);
      }
    }
  }

  lemma DecisionIsGood(b: Bounds, w: World, i: Input)
    requires Inv(b, w) && w.effect.None? && Replayed(w, i)
    ensures Good(b, w, Decide(b, w, i))
  {
    hide Good, Inv;
    ClearedIsGood(b, w, Revising, None);
    ClearedIsGood(b, w, Resting, None);
    match w.state
    case Resting =>
    case Revising => RunIsGood(b, w, i);
    case Gating => GateIsGood(b, w, i);
    case Pushing => PushIsGood(b, w, i);
    case Pushed => PushedIsGood(b, w, i);
    case Replaying => ReplayIsGood(b, w, i);
    case Delivered => DeliveredIsGood(b, w, i);
    case HandingBack =>
  }

  // ---- Runs ----

  lemma PerformKeepsInv(b: Bounds, w: World)
    requires Inv(b, w) && w.effect.Some?
    ensures Inv(b, Performed(w, w.effect.value))
  {
  }

  lemma StepKeepsInv(b: Bounds, w: World, s: Event)
    requires Inv(b, w) && Enabled(b, w, s)
    ensures Inv(b, Revise.Next(b, w, s))
  {
    match s
    case Transition(i) => DecisionIsGood(b, w, i);
    case Killed(i, n) =>
      DecisionIsGood(b, w, i);
      PrefixKeeps(b, w, Decide(b, w, i).writes, n);
    case Perform => PerformKeepsInv(b, w);
    case Lose =>
    case Foreign(_) =>
  }

  lemma {:induction false} RunKeepsInv(b: Bounds, w: World, steps: seq<Event>)
    requires Inv(b, w) && Runs(b, w, steps)
    ensures Inv(b, After(b, w, steps))
    decreases |steps|
  {
    if steps != [] {
      StepKeepsInv(b, w, steps[0]);
      RunKeepsInv(b, Revise.Next(b, w, steps[0]), steps[1..]);
    }
  }

  /** Whatever anyone pushes or deletes, and wherever the revision is killed: what it pushes and what it is leased on both
      have the head the operator read, so that head is in the branch's history after any push of the agent's. */
  lemma WhatWasReadIsKept(b: Bounds, w: World, steps: seq<Event>)
    requires Init(w) && Runs(b, w, steps)
    ensures var v := After(b, w, steps);
            v.effect.Some? && v.effect.value.Push? ==>
              var (head, lease) := (v.effect.value.head, v.effect.value.lease);
              && Git.Ancestor(v.read, head)
              && lease.Some? && Git.Ancestor(v.read, lease.value)
              && (v.remote == lease ==> Performed(v, v.effect.value).remote == Some(head))
              && (v.remote != lease ==> Performed(v, v.effect.value).remote == v.remote)
  {
    RunKeepsInv(b, w, steps);
    LeaseHasReadIf(b, After(b, w, steps));
  }

  lemma LeaseHasReadIf(b: Bounds, w: World)
    requires Inv(b, w)
    ensures w.p.Some? ==> w.p.value.work.pushed.Some? && Git.Ancestor(w.read, w.p.value.work.pushed.value)
  {
    if w.p.Some? {
      LeaseHasRead(b, w);
    }
  }

  /** Every lease ever held has the head that was read, each replay moved it strictly on, and there were as many of them
      as are counted, through every kill: never more than the bound. */
  lemma ReplaysAreCounted(b: Bounds, w: World, steps: seq<Event>)
    requires Init(w) && Runs(b, w, steps)
    ensures var v := After(b, w, steps);
            v.p.Some? ==> Chained(v.read, v.leases) && Replays(v.leases) == v.p.value.replays <= b.replays
  {
    RunKeepsInv(b, w, steps);
  }

  /** A push decided with no session run since the last replay drops nothing anyone else pushed. */
  lemma ReplayedPushesKeepTheLease(b: Bounds, w: World, steps: seq<Event>)
    requires Init(w) && Runs(b, w, steps)
    ensures var v := After(b, w, steps);
            v.effect.Some? && v.effect.value.Push? && v.onTop ==>
              v.effect.value.lease.Some? && Git.Ancestor(v.effect.value.lease.value, v.effect.value.head)
  {
    RunKeepsInv(b, w, steps);
  }
}
