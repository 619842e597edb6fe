/** What a row's two counts say, over every run of any number of holders: its attempts are the failures committed, and its
    stays the stays, since the job last moved or was armed. Counted here by what each holder set out to commit, and not by
    what its commits hold. */
module ProtocolCounts {
  import opened Base
  import opened Store
  import opened Decision
  import opened Protocol
  import opened ProtocolSafety

  /** What a holder is about to commit: an error, a job made due afresh, or a decision that keeps its state or moves it. */
  datatype Cause = Failing | Arming | Staying | Moving

  /** Each holder's cause, and the counts of each job so far. */
  datatype Tally = Tally(causes: map<Holder, Cause>, attempts: map<JobId, nat>, stays: map<JobId, nat>)

  const NOTHING := Tally(map[], map[], map[])

  function Count(counts: map<JobId, nat>, id: JobId): nat {
    if id in counts then counts[id] else 0
  }

  /** The tally once a commit for `cause` is made of job `id`. */
  function Made(t: Tally, id: JobId, cause: Cause): Tally {
    match cause
    case Failing => t.(attempts := t.attempts[id := Count(t.attempts, id) + 1])
    case Staying => t.(stays := t.stays[id := Count(t.stays, id) + 1])
    case _ => t.(attempts := t.attempts[id := 0], stays := t.stays[id := 0])
  }

  /** The tally after one step: a holder sets out to commit, or what it set out to is committed. */
  function Tallied(w: World, s: Step, t: Tally): Tally
    requires Enabled(w, s)
  {
    match s
    case Fail(h, _) => t.(causes := t.causes[h := Failing])
    case Arm(h, _, _, _) => t.(causes := t.causes[h := Arming])
    case Stamp(h) =>
      t.(causes := t.causes[h := if w.Of(h).outcome.state == w.Of(h).job.state then Staying else Moving])
    case Apply(h) =>
      if h in t.causes && w.Of(h).id in w.db.jobs && w.db.jobs[w.Of(h).id].HeldBy(h) then Made(t, w.Of(h).id, t.causes[h]) else t
    case _ => t
  }

  function TallyOf(w: World, steps: seq<Step>, t: Tally): Tally
    requires Runs(w, steps)
    decreases |steps|
  {
    if steps == [] then t else TallyOf(Next(w, steps[0]), steps[1..], Tallied(w, steps[0], t))
  }

  // ---- What holds on the way ----

  /** The counts, and all else but the schedule, that a commit for `cause` writes over `job`. */
  predicate Writes(cause: Cause, job: Job, c: Commit) {
    match cause
    case Failing => c.attempts == job.attempts + 1 && c.stays == job.stays && c.state == job.state && c.keys == []
    case Staying => c.attempts == job.attempts && c.stays == job.stays + 1 && c.state == job.state
    case Moving => c.attempts == 0 && c.stays == 0 && c.state != job.state
    case Arming => c.attempts == 0 && c.stays == 0
  }

  ghost predicate Tells(w: World, t: Tally) {
    && (forall id :: id in w.db.jobs ==> w.db.jobs[id].attempts == Count(t.attempts, id) && w.db.jobs[id].stays == Count(t.stays, id))
    && (forall id :: id !in w.db.jobs ==> Count(t.attempts, id) == 0 && Count(t.stays, id) == 0)
  }

  ghost predicate Causes(w: World, t: Tally, h: Holder) {
    w.Of(h).Ready? ==> h in t.causes && w.Of(h).commit.job == w.Of(h).id && w.Of(h).commit.holder == h
                       && Writes(t.causes[h], w.Of(h).job, w.Of(h).commit)
  }

  ghost predicate Accounts(w: World, t: Tally) {
    Tells(w, t) && forall h :: Causes(w, t, h)
  }

  // ---- Each step ----

  lemma KnownToHolder(w: World, h: Holder)
    requires Inv(w) && (w.Of(h).Ready? || w.Of(h).Taken?)
    ensures w.Of(h).id in w.db.jobs && (w.db.jobs[w.Of(h).id].HeldBy(h) ==> w.db.jobs[w.Of(h).id].SameWork(w.Of(h).job))
  {
    assert Local(w, h);
    hide Inv;
  }

  lemma CommitTells(db: Db, t: Tally, c: Commit, cause: Cause)
    requires c.job in db.jobs && db.jobs[c.job].HeldBy(c.holder) && Writes(cause, db.jobs[c.job], c)
    requires forall id :: id in db.jobs ==> db.jobs[id].attempts == Count(t.attempts, id) && db.jobs[id].stays == Count(t.stays, id)
    ensures db.Committed(c).Ok?
    ensures var after, made := db.Committed(c).value, Made(t, c.job, cause);
            && after.jobs.Keys == db.jobs.Keys
            && (forall id :: id in after.jobs ==> after.jobs[id].attempts == Count(made.attempts, id) && after.jobs[id].stays == Count(made.stays, id))
            && (forall id :: id != c.job ==> Count(made.attempts, id) == Count(t.attempts, id) && Count(made.stays, id) == Count(t.stays, id))
  {
    hide Reserving;
  }

  lemma WritesAlike(cause: Cause, job: Job, other: Job, c: Commit)
    requires Writes(cause, job, c) && other.SameWork(job)
    ensures Writes(cause, other, c)
  {
  }

  /** An applied commit leaves the counts its cause says. */
  lemma ApplyTells(w: World, t: Tally, h: Holder)
    requires Inv(w) && Tells(w, t) && Causes(w, t, h) && w.Of(h).Ready?
    ensures Tells(Next(w, Apply(h)), Tallied(w, Apply(h), t))
  {
    KnownToHolder(w, h);
    var p := w.Of(h);
    hide Inv, Writes, Made, Applied;
    if w.db.jobs[p.id].HeldBy(h) {
      WritesAlike(t.causes[h], p.job, w.db.jobs[p.id], p.commit);
      CommitTells(w.db, t, p.commit, t.causes[h]);
    }
  }

  lemma RescheduleTells(w: World, t: Tally, h: Holder, at: Option<Time>)
    requires Inv(w) && Tells(w, t) && w.Of(h).Taken?
    ensures Tells(Next(w, Reschedule(h, at)), t)
  {
    hide Inv, Reserving, Applied;
    KnownToHolder(w, h);
  }

  /** A step that leases, frees or adds a row, and commits nothing. */
  predicate Leases(s: Step) {
    s.Ensure? || s.Due? || s.GiveBack? || s.Acquire? || s.Release?
  }

  /** Each row's counts are as they were, and a new one's are none. */
  ghost predicate SameCounts(db: Db, after: Db) {
    && db.jobs.Keys <= after.jobs.Keys
    && forall id :: id in after.jobs ==>
         after.jobs[id].attempts == (if id in db.jobs then db.jobs[id].attempts else 0)
         && after.jobs[id].stays == (if id in db.jobs then db.jobs[id].stays else 0)
  }

  lemma LeasingCounts(w: World, s: Step)
    requires Enabled(w, s) && Leases(s)
    ensures SameCounts(w.db, Next(w, s).db)
  {
    match s
    case Ensure(_, _, _, _) =>
    case Due(_, _, _) =>
    case GiveBack(_) =>
    case Acquire(_, _, _) =>
    case Release(_) =>
  }

  lemma LeasingTells(w: World, t: Tally, s: Step)
    requires Tells(w, t) && Enabled(w, s) && Leases(s)
    ensures Tells(Next(w, s), t)
  {
    LeasingCounts(w, s);
    hide Enabled, Next;
  }

  lemma NothingIsWritten(w: World, s: Step)
    requires Enabled(w, s) && !Leases(s) && !s.Apply? && !s.Reschedule?
    ensures Next(w, s).db == w.db
  {
    hide MoveCommit, FailCommit, ArmCommit;
  }

  lemma OthersTell(w: World, t: Tally, s: Step)
    requires Tells(w, t) && Enabled(w, s) && !s.Apply? && !s.Reschedule?
    ensures Tells(Next(w, s), Tallied(w, s, t))
  {
    hide Enabled, Next;
    if Leases(s) {
      LeasingTells(w, t, s);
    } else {
      NothingIsWritten(w, s);
    }
  }

  lemma StepTells(w: World, t: Tally, s: Step)
    requires Inv(w) && Accounts(w, t) && Enabled(w, s)
    ensures Tells(Next(w, s), Tallied(w, s, t))
  {
    hide Inv, Tells, Next;
    match s
    case Apply(h) => assert Causes(w, t, h); ApplyTells(w, t, h);
    case Reschedule(h, at) => RescheduleTells(w, t, h, at);
    case _ => OthersTell(w, t, s);
  }

  /** What a holder sets out to commit is what it will. */
  lemma SetsOut(w: World, t: Tally, s: Step)
    requires Enabled(w, s) && (s.Fail? || s.Arm? || s.Stamp?)
    ensures Causes(Next(w, s), Tallied(w, s, t), s.h)
  {
  }

  predicate IsSettingOut(s: Step, h: Holder) {
    (s.Fail? || s.Arm? || s.Stamp?) && s.h == h
  }

  lemma ReadyIsSetOut(w: World, s: Step, h: Holder)
    requires Enabled(w, s) && !IsSettingOut(s, h)
    ensures Next(w, s).Of(h).Ready? ==> Next(w, s).Of(h) == w.Of(h)
  {
    hide MoveCommit, FailCommit, ArmCommit, RescheduleCommit;
  }

  lemma OthersCause(w: World, t: Tally, s: Step, h: Holder)
    requires Causes(w, t, h) && Enabled(w, s) && !IsSettingOut(s, h)
    ensures Causes(Next(w, s), Tallied(w, s, t), h)
  {
    hide Enabled, Next, Writes;
    ReadyIsSetOut(w, s, h);
  }

  lemma StepCauses(w: World, t: Tally, s: Step, h: Holder)
    requires Causes(w, t, h) && Enabled(w, s)
    ensures Causes(Next(w, s), Tallied(w, s, t), h)
  {
    hide Next, Causes, Enabled, Tallied;
    if IsSettingOut(s, h) {
      SetsOut(w, t, s);
    } else {
      OthersCause(w, t, s, h);
    }
  }

  lemma {:induction false} RunAccounts(w: World, steps: seq<Step>, t: Tally)
    requires Inv(w) && Accounts(w, t) && Runs(w, steps)
    ensures Tells(After(w, steps), TallyOf(w, steps, t))
    decreases |steps|
  {
    if steps != [] {
      StepKeepsInv(w, steps[0]);
      StepTells(w, t, steps[0]);
      forall h ensures Causes(Next(w, steps[0]), Tallied(w, steps[0], t), h) {
        StepCauses(w, t, steps[0], h);
      }
      hide Inv, Enabled, Next, Tallied, Tells, Causes;
      RunAccounts(Next(w, steps[0]), steps[1..], Tallied(w, steps[0], t));
    }
  }

  /** Over every run, whoever works, whenever leases lapse and wherever they are killed: a job's attempts are exactly the
      failures committed of it since it last moved, or was armed, and its stays the stays. */
  lemma CountsAreWhatHappened(w: World, steps: seq<Step>, id: JobId)
    requires Init(w) && Runs(w, steps) && id in After(w, steps).db.jobs
    ensures After(w, steps).db.jobs[id].attempts == Count(TallyOf(w, steps, NOTHING).attempts, id)
    ensures After(w, steps).db.jobs[id].stays == Count(TallyOf(w, steps, NOTHING).stays, id)
  {
    InitIsInv(w);
    RunAccounts(w, steps, NOTHING);
  }
}
