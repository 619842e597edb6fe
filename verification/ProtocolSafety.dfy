/** What every run of the protocol keeps, by rely and guarantee: a step of one holder leaves alone what every other
    holder knows, and keeps what it knows itself. */
module ProtocolSafety {
  import opened Base
  import opened Store
  import opened Decision
  import opened Protocol

  // ---- The history ----

  ghost predicate Reserves(e: Event, k: Key) {
    e.Reserved? && k in e.keys
  }

  /** The commit at `c` is the one that first reserved `k`. */
  ghost predicate FirstReserved(history: seq<Event>, c: int, k: Key) {
    0 <= c < |history| && Reserves(history[c], k) && forall d :: 0 <= d < c ==> !Reserves(history[d], k)
  }

  ghost predicate GrantedTo(history: seq<Event>, h: Holder, k: Key) {
    exists c :: FirstReserved(history, c, k) && history[c].holder == h
  }

  ghost predicate WasPerformed(history: seq<Event>, k: Key) {
    exists i :: 0 <= i < |history| && history[i].Performed? && history[i].key == k
  }

  /** Each key is performed once at most, and only by the holder whose earlier commit first reserved it. */
  ghost predicate AtMostOnce(history: seq<Event>) {
    && (forall i, j :: 0 <= i < j < |history| && history[i].Performed? && history[j].Performed? ==> history[i].key != history[j].key)
    && (forall i :: 0 <= i < |history| && history[i].Performed? ==>
          GrantedTo(history[..i], history[i].holder, history[i].key))
  }

  /** One commit granted `k`, so one holder has it, and for one job. */
  lemma GrantIsUnique(history: seq<Event>, c: int, d: int, k: Key)
    requires FirstReserved(history, c, k) && FirstReserved(history, d, k)
    ensures c == d && history[c].holder == history[d].holder && history[c].job == history[d].job
  {
  }

  lemma HolderIsUnique(history: seq<Event>, g: Holder, h: Holder, k: Key)
    requires GrantedTo(history, g, k) && GrantedTo(history, h, k)
    ensures g == h
  {
    var c :| FirstReserved(history, c, k) && history[c].holder == g;
    var d :| FirstReserved(history, d, k) && history[d].holder == h;
    GrantIsUnique(history, c, d, k);
  }

  lemma GrantLasts(history: seq<Event>, e: Event, h: Holder, k: Key)
    ensures GrantedTo(history, h, k) ==> GrantedTo(history + [e], h, k)
  {
    if GrantedTo(history, h, k) {
      var c :| FirstReserved(history, c, k) && history[c].holder == h;
      assert FirstReserved(history + [e], c, k);
    }
  }

  lemma NewGrant(history: seq<Event>, e: Event, k: Key)
    requires Reserves(e, k) && forall i :: 0 <= i < |history| ==> !Reserves(history[i], k)
    ensures GrantedTo(history + [e], e.holder, k)
  {
    assert FirstReserved(history + [e], |history|, k);
  }

  lemma PerformedAppend(history: seq<Event>, e: Event, k: Key)
    ensures WasPerformed(history + [e], k) <==> WasPerformed(history, k) || (e.Performed? && e.key == k)
  {
    if WasPerformed(history, k) {
      var i :| 0 <= i < |history| && history[i].Performed? && history[i].key == k;
      assert (history + [e])[i] == history[i];
    }
    assert (history + [e])[|history|] == e;
  }

  // ---- The invariant ----

  ghost predicate Knows(p: Phase) {
    p.Taken? || p.Running? || p.Filtering? || p.Timed? || p.Ready? || p.Performing? || p.Doing?
  }

  ghost predicate OnJob(p: Phase) {
    !p.Idle?
  }

  /** While the store records `h` on its job, the row is what `h` last read or committed. */
  ghost predicate RowIsKnown(w: World, h: Holder) {
    var p := w.Of(h);
    && (OnJob(p) ==> p.id in w.db.jobs)
    && (Knows(p) && w.db.jobs[p.id].HeldBy(h) ==> w.db.jobs[p.id].SameWork(p.job))
  }

  ghost predicate AllOwned(w: World, id: JobId, effects: seq<Effect>) {
    forall e :: e in effects ==> w.Owns(id, e)
  }

  /** What the filter kept is still unreserved, as long as the tenure is unbroken. */
  ghost predicate Unreserved(w: World, h: Holder, id: JobId, todo: seq<Effect>) {
    && id in w.db.jobs
    && DistinctKeys(todo) && AllOwned(w, id, todo)
    && (w.db.jobs[id].HeldBy(h) ==> forall e :: e in todo ==> e.key !in w.db.keys)
  }

  ghost predicate Filtered(w: World, h: Holder) {
    var p := w.Of(h);
    p.Filtering? ==>
      && DistinctKeys(p.outcome.effects) && AllOwned(w, p.id, p.outcome.effects)
      && p.next <= |p.outcome.effects|
      && Unreserved(w, h, p.id, p.todo)
      && (forall e, i :: e in p.todo && p.next <= i < |p.outcome.effects| ==> p.outcome.effects[i].key != e.key)
  }

  ghost predicate Committable(w: World, h: Holder) {
    var p := w.Of(h);
    && (p.Timed? ==> Unreserved(w, h, p.id, p.todo) && p.todo != [] && p.deadline <= w.clock + w.ttl)
    && (p.Ready? ==>
          && Unreserved(w, h, p.id, p.todo)
          && p.commit.job == p.id && p.commit.holder == h
          && (forall k :: k in p.commit.keys ==> w.owner(k) == p.id)
          && (p.commit.release <==> p.todo == [])
          && (p.todo != [] ==> p.commit.keys == KeysOf(p.todo) && p.commit.leaseUntil.Some? && p.deadline <= p.commit.leaseUntil.value))
  }

  /** Effects not begun yet: granted to this holder and to nobody else. */
  ghost predicate Granted(w: World, h: Holder, effects: seq<Effect>) {
    && DistinctKeys(effects)
    && forall e :: e in effects ==> GrantedTo(w.history, h, e.key) && !WasPerformed(w.history, e.key)
  }

  /** Until the deadline, the lease is this holder's and does not lapse before it. */
  ghost predicate Exclusive(w: World, h: Holder, id: JobId, deadline: Time) {
    w.clock < deadline ==>
      && id in w.db.jobs && w.db.jobs[id].HeldBy(h) && deadline <= w.db.jobs[id].lease.value.expiresAt
  }

  ghost predicate InFlight(w: World, h: Holder) {
    var p := w.Of(h);
    (p.Performing? || p.Doing?) ==>
      && AllOwned(w, p.id, p.todo) && Granted(w, h, p.todo) && Exclusive(w, h, p.id, p.deadline)
      && (p.Doing? ==> w.Owns(p.id, p.effect))
      && (p.Doing? && p.absent && w.clock < p.deadline ==> p.effect.act.Say? && p.effect.act.marker !in w.said)
  }

  ghost predicate Local(w: World, h: Holder) {
    RowIsKnown(w, h) && Filtered(w, h) && Committable(w, h) && InFlight(w, h)
  }

  ghost predicate Global(w: World) {
    && (forall i, k :: 0 <= i < |w.history| && Reserves(w.history[i], k) ==> k in w.db.keys)
    && AtMostOnce(w.history)
    && (forall m :: w.said[m] <= 1)
  }

  ghost predicate Inv(w: World) {
    Global(w) && forall h :: Local(w, h)
  }

  // ---- The guarantee every step gives every other holder ----

  ghost predicate RowsKept(w: World, v: World, g: Holder) {
    && w.db.jobs.Keys <= v.db.jobs.Keys
    && (forall id :: id in w.db.jobs && v.db.jobs[id].HeldBy(g) ==> w.db.jobs[id].HeldBy(g) && v.db.jobs[id].SameWork(w.db.jobs[id]))
    && (forall id :: id in w.db.jobs && w.db.jobs[id].HeldBy(g) && w.clock < w.db.jobs[id].lease.value.expiresAt
          ==> v.db.jobs[id].lease == w.db.jobs[id].lease)
  }

  ghost predicate KeysKept(w: World, v: World, g: Holder) {
    && w.db.keys.Keys <= v.db.keys.Keys
    && (forall k :: k in v.db.keys && k !in w.db.keys ==> w.owner(k) in w.db.jobs && !w.db.jobs[w.owner(k)].HeldBy(g))
  }

  ghost predicate HistoryKept(w: World, v: World, g: Holder) {
    || v.history == w.history
    || (exists e :: v.history == w.history + [e] && (e.Performed? ==> !GrantedTo(w.history, g, e.key)))
  }

  ghost predicate SaidKept(w: World, v: World, g: Holder) {
    forall m :: m in v.said && m !in w.said ==> w.speaker(m) in w.db.jobs && !w.db.jobs[w.speaker(m)].HeldBy(g)
  }

  ghost predicate Guaranteed(w: World, v: World, g: Holder) {
    && v.Of(g) == w.Of(g) && v.owner == w.owner && v.speaker == w.speaker && v.ttl == w.ttl && w.clock <= v.clock
    && RowsKept(w, v, g) && KeysKept(w, v, g) && HistoryKept(w, v, g) && SaidKept(w, v, g)
  }

  lemma GrantedIsStable(w: World, v: World, g: Holder, effects: seq<Effect>)
    requires Granted(w, g, effects) && HistoryKept(w, v, g)
    ensures Granted(v, g, effects)
  {
    if v.history != w.history {
      var e :| v.history == w.history + [e] && (e.Performed? ==> !GrantedTo(w.history, g, e.key));
      forall x | x in effects ensures GrantedTo(v.history, g, x.key) && !WasPerformed(v.history, x.key) {
        GrantLasts(w.history, e, g, x.key);
        PerformedAppend(w.history, e, x.key);
      }
    }
  }

  lemma UnreservedIsStable(w: World, v: World, g: Holder, id: JobId, todo: seq<Effect>)
    requires Unreserved(w, g, id, todo) && Guaranteed(w, v, g)
    ensures Unreserved(v, g, id, todo)
  {
    forall e | e in todo ensures v.Owns(id, e) {
      assert w.Owns(id, e);
    }
  }

  lemma LocalIsStable(w: World, v: World, g: Holder)
    requires Local(w, g) && Guaranteed(w, v, g)
    ensures Local(v, g)
  {
    var p := w.Of(g);
    if p.Filtering? || p.Timed? || p.Ready? {
      UnreservedIsStable(w, v, g, p.id, p.todo);
    }
    if p.Filtering? {
      forall e | e in p.outcome.effects ensures v.Owns(p.id, e) { assert w.Owns(p.id, e); }
    }
    if p.Performing? || p.Doing? {
      GrantedIsStable(w, v, g, p.todo);
      forall e | e in p.todo ensures v.Owns(p.id, e) { assert w.Owns(p.id, e); }
    }
  }

  function Actor(s: Step): Option<Holder> {
    match s
    case Tick(_) => None
    case Ensure(_, _, _, _) => None
    case Kill(h) => Some(h)
    case Due(h, _, _) => Some(h)
    case GiveBack(h) => Some(h)
    case Reschedule(h, _) => Some(h)
    case Acquire(h, _, _) => Some(h)
    case ReadJob(h) => Some(h)
    case Decide(h, _) => Some(h)
    case Fail(h, _) => Some(h)
    case Arm(h, _, _, _) => Some(h)
    case Look(h) => Some(h)
    case StartTimer(h) => Some(h)
    case Stamp(h) => Some(h)
    case Apply(h) => Some(h)
    case Begin(h) => Some(h)
    case ReadBack(h) => Some(h)
    case Post(h) => Some(h)
    case Done(h) => Some(h)
    case Leave(h) => Some(h)
    case Release(h) => Some(h)
  }

  lemma CommittingGuarantees(w: World, h: Holder, c: Commit, applied: Phase, refused: Phase, g: Holder)
    requires g != h && c.holder == h && forall k :: k in c.keys ==> w.owner(k) == c.job
    ensures Guaranteed(w, Committing(w, h, c, applied, refused), g)
  {
    var v := Committing(w, h, c, applied, refused);
    if w.db.Committed(c).Ok? {
      assert v.history == w.history + [Reserved(h, c.job, c.keys)];
    }
  }

  lemma EnsuringGuarantees(w: World, s: Step, g: Holder)
    requires Inv(w) && Enabled(w, s) && s.Ensure?
    ensures Guaranteed(w, Next(w, s), g)
  {
  }

  lemma TakingGuarantees(w: World, s: Step, g: Holder)
    requires Inv(w) && Enabled(w, s) && Actor(s) != Some(g) && s.Due?
    ensures Guaranteed(w, Next(w, s), g)
  {
  }

  lemma AcquiringGuarantees(w: World, s: Step, g: Holder)
    requires Inv(w) && Enabled(w, s) && Actor(s) != Some(g) && s.Acquire?
    ensures Guaranteed(w, Next(w, s), g)
  {
  }

  lemma FreeingGuarantees(w: World, s: Step, g: Holder)
    requires Inv(w) && Enabled(w, s) && Actor(s) != Some(g) && (s.GiveBack? || s.Release?)
    ensures Guaranteed(w, Next(w, s), g)
  {
  }

  /** A step that touches neither the store nor the tracker. */
  predicate Private(s: Step) {
    s.Tick? || s.Kill? || s.ReadJob? || s.Decide? || s.Fail? || s.Arm? || s.Look? || s.StartTimer? || s.Stamp?
    || s.ReadBack? || s.Done? || s.Leave?
  }

  lemma PrivateTouchesNothing(w: World, s: Step, g: Holder)
    requires Enabled(w, s) && Actor(s) != Some(g) && Private(s)
    ensures var v := Next(w, s);
            && v.db == w.db && v.history == w.history && v.said == w.said && v.Of(g) == w.Of(g)
            && v.owner == w.owner && v.speaker == w.speaker && v.ttl == w.ttl && w.clock <= v.clock
  {
  }

  lemma PrivateGuarantees(w: World, s: Step, g: Holder)
    requires Inv(w) && Enabled(w, s) && Actor(s) != Some(g) && Private(s)
    ensures Guaranteed(w, Next(w, s), g)
  {
    PrivateTouchesNothing(w, s, g);
    hide Next, Enabled, Inv, Actor;
  }

  lemma OutwardGuarantees(w: World, s: Step, g: Holder)
    requires Inv(w) && Enabled(w, s) && Actor(s) != Some(g) && (s.Begin? || s.Post?)
    ensures Guaranteed(w, Next(w, s), g)
  {
    assert Local(w, s.h);
    var p := w.Of(s.h);
    if s.Begin? {
      assert p.todo[0] in p.todo;
      if GrantedTo(w.history, g, p.todo[0].key) {
        HolderIsUnique(w.history, g, s.h, p.todo[0].key);
      }
      assert Next(w, s).history == w.history + [Performed(s.h, p.todo[0].key)];
    } else {
      assert w.Owns(p.id, p.effect);
      assert Next(w, s).history == w.history + [Said(p.effect.act.marker)];
    }
  }

  lemma StepGuarantees(w: World, s: Step, g: Holder)
    requires Inv(w) && Enabled(w, s) && Actor(s) != Some(g)
    ensures Guaranteed(w, Next(w, s), g)
  {
    if Private(s) {
      PrivateGuarantees(w, s, g);
    } else if s.Begin? || s.Post? {
      OutwardGuarantees(w, s, g);
    } else if s.Reschedule? {
      assert Local(w, s.h);
      CommittingGuarantees(w, s.h, RescheduleCommit(w.Of(s.h).id, s.h, w.Of(s.h).job, s.runAt), Idle, Idle, g);
    } else if s.Apply? {
      assert Local(w, s.h);
      CommittingGuarantees(w, s.h, w.Of(s.h).commit, Applied(w.Of(s.h)), Leaving(w.Of(s.h).id), g);
    } else if s.Ensure? {
      EnsuringGuarantees(w, s, g);
    } else if s.Due? {
      TakingGuarantees(w, s, g);
    } else if s.Acquire? {
      AcquiringGuarantees(w, s, g);
    } else {
      FreeingGuarantees(w, s, g);
    }
  }

  // ---- What the acting holder keeps ----

  lemma LookKeepsFilter(w: World, h: Holder)
    requires Inv(w) && Enabled(w, Look(h))
    ensures Local(Next(w, Look(h)), h)
  {
    var v := Next(w, Look(h));
    var p, q := w.Of(h), v.Of(h);
    assert Local(w, h);
    var e := p.outcome.effects[p.next];
    assert e in p.outcome.effects;
    forall x | x in p.outcome.effects ensures v.Owns(p.id, x) { assert w.Owns(p.id, x); }
    forall x | x in q.todo ensures v.Owns(p.id, x) { assert x in p.todo || x == e; assert w.Owns(p.id, x); }
    if e.key !in w.db.keys {
      assert q.todo == p.todo + [e];
      forall i | 0 <= i < |p.todo| ensures p.todo[i].key != e.key { assert p.todo[i] in p.todo; }
    }
  }

  lemma StampKeeps(w: World, h: Holder)
    requires Inv(w) && Enabled(w, Stamp(h))
    ensures Local(Next(w, Stamp(h)), h)
  {
    var v := Next(w, Stamp(h));
    var p := w.Of(h);
    assert Local(w, h);
    forall x | x in p.todo ensures v.Owns(p.id, x) { assert w.Owns(p.id, x); }
    forall k | k in KeysOf(p.todo) ensures w.owner(k) == p.id {
      var i :| 0 <= i < |p.todo| && KeysOf(p.todo)[i] == k;
      assert w.Owns(p.id, p.todo[i]);
    }
  }

  /** The keys of an applied commit are this holder's to perform: none was reserved before it. */
  lemma CommitGrants(w: World, h: Holder)
    requires Inv(w) && Enabled(w, Apply(h))
    ensures Local(Next(w, Apply(h)), h)
  {
    var v := Next(w, Apply(h));
    var p := w.Of(h);
    assert Local(w, h);
    if w.db.CanCommit(p.commit) && !p.commit.release {
      var e := Reserved(h, p.id, p.commit.keys);
      assert v.history == w.history + [e];
      forall x | x in p.todo ensures v.Owns(p.id, x) && GrantedTo(v.history, h, x.key) && !WasPerformed(v.history, x.key) {
        assert w.Owns(p.id, x);
        var i :| 0 <= i < |p.todo| && p.todo[i] == x;
        assert KeysOf(p.todo)[i] == x.key;
        NewGrant(w.history, e, x.key);
        PerformedAppend(w.history, e, x.key);
        if WasPerformed(w.history, x.key) {
          PerformedIsReserved(w, x.key);
        }
      }
    }
  }

  lemma PerformedIsReserved(w: World, k: Key)
    requires Global(w) && WasPerformed(w.history, k)
    ensures k in w.db.keys
  {
    var i :| 0 <= i < |w.history| && w.history[i].Performed? && w.history[i].key == k;
    assert GrantedTo(w.history[..i], w.history[i].holder, k);
    var c :| FirstReserved(w.history[..i], c, k) && w.history[..i][c].holder == w.history[i].holder;
    assert w.history[..i][c] == w.history[c];
  }

  lemma BeginKeeps(w: World, h: Holder)
    requires Inv(w) && Enabled(w, Begin(h))
    ensures Local(Next(w, Begin(h)), h)
  {
    var v := Next(w, Begin(h));
    var p := w.Of(h);
    assert Local(w, h);
    var e := Performed(h, p.todo[0].key);
    assert v.history == w.history + [e];
    assert p.todo[0] in p.todo && w.Owns(p.id, p.todo[0]);
    forall x | x in p.todo[1..] ensures v.Owns(p.id, x) && GrantedTo(v.history, h, x.key) && !WasPerformed(v.history, x.key) {
      var i :| 1 <= i < |p.todo| && p.todo[i] == x;
      assert w.Owns(p.id, x);
      GrantLasts(w.history, e, h, x.key);
      PerformedAppend(w.history, e, x.key);
    }
  }

  lemma EffectKeeps(w: World, s: Step)
    requires Inv(w) && Enabled(w, s) && (s.ReadBack? || s.Post? || s.Done?)
    ensures Local(Next(w, s), s.h)
  {
    var v := Next(w, s);
    var p := w.Of(s.h);
    assert Local(w, s.h);
    assert w.Owns(p.id, p.effect);
    forall x | x in p.todo ensures v.Owns(p.id, x) && GrantedTo(v.history, s.h, x.key) && !WasPerformed(v.history, x.key) {
      assert w.Owns(p.id, x);
      if s.Post? {
        GrantLasts(w.history, Said(p.effect.act.marker), s.h, x.key);
        PerformedAppend(w.history, Said(p.effect.act.marker), x.key);
      }
    }
  }

  lemma LeaseStepKeeps(w: World, s: Step)
    requires Inv(w) && Enabled(w, s)
    requires s.Due? || s.GiveBack? || s.Reschedule? || s.Acquire? || s.Release?
    ensures Local(Next(w, s), s.h)
  {
    assert Local(w, s.h);
  }

  lemma PlainStepKeeps(w: World, s: Step)
    requires Inv(w) && Enabled(w, s)
    requires s.Kill? || s.ReadJob? || s.Fail? || s.Arm? || s.Leave?
    ensures Local(Next(w, s), s.h)
  {
    assert Local(w, s.h);
  }

  lemma DecideKeeps(w: World, s: Step)
    requires Inv(w) && Enabled(w, s) && (s.Decide? || s.StartTimer?)
    ensures Local(Next(w, s), s.h)
  {
    assert Local(w, s.h);
    var v := Next(w, s);
    var p := w.Of(s.h);
    if s.StartTimer? {
      forall x | x in p.todo ensures v.Owns(p.id, x) { assert w.Owns(p.id, x); }
    } else {
      forall x | x in s.outcome.effects ensures v.Owns(p.id, x) { assert w.Owns(p.id, x); }
    }
  }

  lemma ActorKeepsLocal(w: World, s: Step)
    requires Inv(w) && Enabled(w, s) && Actor(s).Some?
    ensures Local(Next(w, s), Actor(s).value)
  {
    hide Local, Next, Inv;
    match s
    case Look(h) => LookKeepsFilter(w, h);
    case Stamp(h) => StampKeeps(w, h);
    case Apply(h) => CommitGrants(w, h);
    case Begin(h) => BeginKeeps(w, h);
    case ReadBack(_) => EffectKeeps(w, s);
    case Post(_) => EffectKeeps(w, s);
    case Done(_) => EffectKeeps(w, s);
    case Decide(_, _) => DecideKeeps(w, s);
    case StartTimer(_) => DecideKeeps(w, s);
    case _ =>
      if s.Kill? || s.ReadJob? || s.Fail? || s.Arm? || s.Leave? {
        PlainStepKeeps(w, s);
      } else {
        LeaseStepKeeps(w, s);
      }
  }

  // ---- What every step keeps of the history and the tracker ----

  lemma PerformKeepsOrder(history: seq<Event>, h: Holder, k: Key)
    requires AtMostOnce(history) && GrantedTo(history, h, k) && !WasPerformed(history, k)
    ensures AtMostOnce(history + [Performed(h, k)])
  {
    var after := history + [Performed(h, k)];
    forall i | 0 <= i < |after| && after[i].Performed? ensures GrantedTo(after[..i], after[i].holder, after[i].key) {
      if i < |history| {
        assert after[..i] == history[..i];
      } else {
        assert after[..i] == history;
      }
    }
  }

  lemma OtherEventKeepsOrder(history: seq<Event>, e: Event)
    requires AtMostOnce(history) && !e.Performed?
    ensures AtMostOnce(history + [e])
  {
    var after := history + [e];
    forall i | 0 <= i < |after| && after[i].Performed? ensures GrantedTo(after[..i], after[i].holder, after[i].key) {
      assert after[..i] == history[..i];
    }
  }

  lemma CommittingKeepsGlobal(w: World, h: Holder, c: Commit, applied: Phase, refused: Phase)
    requires Global(w)
    ensures Global(Committing(w, h, c, applied, refused))
  {
    if w.db.Committed(c).Ok? {
      OtherEventKeepsOrder(w.history, Reserved(h, c.job, c.keys));
    }
  }

  lemma QuietKeepsGlobal(w: World, s: Step)
    requires Global(w) && Enabled(w, s) && !s.Reschedule? && !s.Apply? && !s.Begin? && !s.Post?
    ensures Global(Next(w, s))
  {
    assert Next(w, s).history == w.history && Next(w, s).said == w.said;
  }

  lemma StepKeepsGlobal(w: World, s: Step)
    requires Inv(w) && Enabled(w, s)
    ensures Global(Next(w, s))
  {
    if Actor(s).Some? {
      assert Local(w, Actor(s).value);
    }
    match s
    case Reschedule(h, runAt) =>
      CommittingKeepsGlobal(w, h, RescheduleCommit(w.Of(h).id, h, w.Of(h).job, runAt), Idle, Idle);
    case Apply(h) =>
      var p, c := w.Of(h), w.Of(h).commit;
      CommittingKeepsGlobal(w, h, c, Applied(p), Leaving(p.id));
    case Begin(h) =>
      assert w.Of(h).todo[0] in w.Of(h).todo;
      PerformKeepsOrder(w.history, h, w.Of(h).todo[0].key);
    case Post(h) =>
      OtherEventKeepsOrder(w.history, Said(w.Of(h).effect.act.marker));
    case _ => QuietKeepsGlobal(w, s);
  }

  lemma StepKeepsInv(w: World, s: Step)
    requires Inv(w) && Enabled(w, s)
    ensures Inv(Next(w, s))
  {
    StepKeepsGlobal(w, s);
    forall g ensures Local(Next(w, s), g) {
      if Actor(s) == Some(g) {
        ActorKeepsLocal(w, s);
      } else {
        StepGuarantees(w, s, g);
        assert Local(w, g);
        LocalIsStable(w, Next(w, s), g);
      }
    }
  }

  lemma {:induction false} RunKeepsInv(w: World, steps: seq<Step>)
    requires Inv(w) && Runs(w, steps)
    ensures Inv(After(w, steps))
    decreases |steps|
  {
    if steps != [] {
      StepKeepsInv(w, steps[0]);
      RunKeepsInv(Next(w, steps[0]), steps[1..]);
    }
  }

  lemma InitIsInv(w: World)
    requires Init(w)
    ensures Inv(w)
  {
    forall h ensures Local(w, h) { assert w.Of(h) == Idle; }
  }

  // ---- The theorems ----

  /** In every run, each key is performed at most once, and only after the commit that first reserved it. */
  lemma EffectsArePerformedAtMostOnce(w: World, steps: seq<Step>)
    requires Init(w) && Runs(w, steps)
    ensures AtMostOnce(After(w, steps).history)
  {
    InitIsInv(w);
    RunKeepsInv(w, steps);
  }

  /** In every run, each marker is on the tracker at most once, across every round and every kill. */
  lemma MarkersAreSaidAtMostOnce(w: World, steps: seq<Step>, m: Marker)
    requires Init(w) && Runs(w, steps)
    ensures After(w, steps).said[m] <= 1
  {
    InitIsInv(w);
    RunKeepsInv(w, steps);
  }

  /** While an effect is in flight before its deadline, nobody else can lease its job, and its lease outlives it. */
  lemma EffectsRunUnderTheirLease(w: World, steps: seq<Step>, h: Holder, g: Holder, now: Time)
    requires Init(w) && Runs(w, steps)
    requires var v := After(w, steps); (v.Of(h).Performing? || v.Of(h).Doing?) && v.clock < v.Of(h).deadline
    requires g != h && now <= After(w, steps).clock
    ensures var v := After(w, steps); var id := v.Of(h).id;
            && id in v.db.jobs && v.db.jobs[id].HeldBy(h)
            && v.Of(h).deadline <= v.db.jobs[id].lease.value.expiresAt
            && !v.db.CanAcquire(id, g, now) && !v.db.CanTake(id, g, now)
            && !((v.Of(g).Performing? || v.Of(g).Doing?) && v.Of(g).id == id && v.clock < v.Of(g).deadline)
  {
    InitIsInv(w);
    RunKeepsInv(w, steps);
    assert Local(After(w, steps), h) && Local(After(w, steps), g);
  }

  /** As long as the store records a holder on its job, the job is as that holder last read it or wrote it, wherever in
      its work it is. */
  lemma WhatIsHeldIsKnown(w: World, steps: seq<Step>, h: Holder)
    requires Init(w) && Runs(w, steps) && Knows(After(w, steps).Of(h))
    ensures var v := After(w, steps); var p := v.Of(h);
            p.id in v.db.jobs && (v.db.jobs[p.id].HeldBy(h) ==> v.db.jobs[p.id].SameWork(p.job))
  {
    InitIsInv(w);
    RunKeepsInv(w, steps);
    assert Local(After(w, steps), h);
  }

  /** What a holder's next step commits, if it commits anything: the runner's and the armer's from where they are ready,
      the dispatcher's straight from the job it took. */
  function CommitOf(w: World, h: Holder, s: Step): Option<Commit> {
    match s
    case Apply(g) => if g == h && w.Of(h).Ready? then Some(w.Of(h).commit) else None
    case Reschedule(g, at) => if g == h && w.Of(h).Taken? then Some(RescheduleCommit(w.Of(h).id, h, w.Of(h).job, at)) else None
    case _ => None
  }

  /** Whatever a holder commits - a move, a failure, a park, a deferral or an arming - it writes over the row it read: an
      accepted commit never replaces what another holder wrote, and a refused one changes nothing. */
  lemma CommitsReplaceWhatWasRead(w: World, steps: seq<Step>, h: Holder, s: Step)
    requires Init(w) && Runs(w, steps) && CommitOf(After(w, steps), h, s).Some?
    ensures var v := After(w, steps); var p, c := v.Of(h), CommitOf(v, h, s).value;
            && Enabled(v, s) && p.id in v.db.jobs && c.job == p.id && c.holder == h
            && (v.db.Committed(c).Ok? ==>
                  && v.db.jobs[p.id].HeldBy(h) && v.db.jobs[p.id].SameWork(p.job)
                  && Next(v, s).db == v.db.Committed(c).value
                  && Next(v, s).history == v.history + [Reserved(h, p.id, c.keys)])
            && (v.db.Committed(c).Err? ==> Next(v, s).db == v.db && Next(v, s).history == v.history)
  {
    WhatIsHeldIsKnown(w, steps, h);
    InitIsInv(w);
    RunKeepsInv(w, steps);
    assert Local(After(w, steps), h);
  }
}
