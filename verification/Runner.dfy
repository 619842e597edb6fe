/** The runner, the dispatcher and the armer as they run when nobody else touches the store in between: each is a loop
    over the store's transactions, proved against one function of the database it started from. Protocol has the same
    steps interleaved; SoloRunMatches ties the two. */
module Runner {
  import opened Base
  import opened Store
  import opened Decision

  datatype Transition = Transition(name: string, kind: Kind, from: State)

  datatype Ending = WrongKind | WrongState | Refused | Failed | EffectFailed | Finished

  /** What one run leaves: the database, and the effects it performed, in order. */
  datatype Report = Report(ending: Ending, db: Db, performed: seq<Key>, skipped: seq<Key>)

  /** The failed run's own commit, and the release of a lease that commit did not give back. */
  function FailedRun(db: Db, holder: Holder, id: JobId, job: Job, retry: Option<Time>): Report {
    match db.Committed(FailCommit(id, holder, job, retry))
    case Ok(after) => Report(Failed, after, [], [])
    case Err(_) => Report(Failed, db.Release(id, holder), [], [])
  }

  predicate WellFormed(o: Outcome) {
    o.state != "" && forall i :: 0 <= i < |o.effects| ==> !o.effects[i].Malformed()
  }

  function Least(a: nat, b: nat): nat {
    if a < b then a else b
  }

  /** One run of `t` on the job as it was leased: `decided` is what the transition's own code returned, `retry` what the
      backoff says of one more attempt, `until` the renewed expiry, and `works` how many effects come off before one
      errors. */
  function Ran(db: Db, holder: Holder, t: Transition, id: JobId, job: Job, decided: Option<Outcome>,
               retry: Option<Time>, until: Time, works: nat): Report {
    if job.kind != t.kind then Report(WrongKind, db.Release(id, holder), [], [])
    else if job.state != t.from then Report(WrongState, db.Release(id, holder), [], [])
    else if decided.None? || !WellFormed(decided.value) then FailedRun(db, holder, id, job, retry)
    else
      var todo := Todo(db.keys, decided.value.effects);
      var skipped := Skipped(db.keys, decided.value.effects);
      match db.Committed(MoveCommit(id, holder, job, decided.value, todo, if todo == [] then None else Some(until)))
      case Ok(after) =>
        Report(if works < |todo| then EffectFailed else Finished, after.Release(id, holder),
               KeysOf(todo[..Least(works, |todo|)]), skipped)
      case Err(_) => Report(Refused, db.Release(id, holder), [], skipped)
  }

  // ---- What a run leaves, column by column ----

  /** The keys `id` has reserved since, and no others: those of `effects`. */
  ghost predicate ReservedFor(was: map<Key, JobId>, effects: seq<Effect>, id: JobId, now: map<Key, JobId>) {
    && (forall k :: k in now <==> k in was || exists e :: e in effects && e.key == k)
    && (forall k :: k in was ==> now[k] == was[k])
    && (forall k :: k in now && k !in was ==> now[k] == id)
  }

  /** The row a run of `t` on `job` leaves of `row`, which it holds: as it was, for a job that is not the transition's; one
      more attempt and its next time, for a run that errs; one more stay, for one that stays; and both counts begun again,
      for one that moves. */
  ghost predicate Counted(row: Job, t: Transition, job: Job, decided: Option<Outcome>, retry: Option<Time>, now: Job) {
    && now.kind == row.kind && now.lease.None?
    && if job.kind != t.kind || job.state != t.from then
         now.SameWork(row)
       else if decided.None? || decided.value.state == "" || (exists e :: e in decided.value.effects && (e.key == "" || e.act == Nothing)) then
         now.state == job.state && now.attempts == job.attempts + 1 && now.stays == job.stays && now.nextRunAt == retry
       else if decided.value.state == job.state then
         now.state == job.state && now.attempts == job.attempts && now.stays == job.stays + 1 && now.nextRunAt == decided.value.runAt
       else
         now.state == decided.value.state && now.attempts == 0 && now.stays == 0 && now.nextRunAt == decided.value.runAt
  }

  /** What a run leaves of the database: its own row counted and its lease free, the keys of a decision that was committed,
      and nothing else; or nothing at all once the row is no longer its holder's. */
  ghost predicate Leaves(was: Db, holder: Holder, t: Transition, id: JobId, job: Job, decided: Option<Outcome>, retry: Option<Time>, now: Db) {
    if id in was.jobs && was.jobs[id].HeldBy(holder) then
      && id in now.jobs && now.jobs == was.jobs[id := now.jobs[id]]
      && Counted(was.jobs[id], t, job, decided, retry, now.jobs[id])
      && (if job.kind == t.kind && job.state == t.from && decided.Some? && WellFormed(decided.value)
          then ReservedFor(was.keys, decided.value.effects, id, now.keys) else now.keys == was.keys)
    else
      now == was
  }

  lemma FailureLeaves(db: Db, holder: Holder, t: Transition, id: JobId, job: Job, decided: Option<Outcome>, retry: Option<Time>)
    requires job.kind == t.kind && job.state == t.from && (decided.None? || !WellFormed(decided.value))
    ensures Leaves(db, holder, t, id, job, decided, retry, FailedRun(db, holder, id, job, retry).db)
  {
    if decided.Some? {
      WellFormedAll(decided.value);
    }
    hide WellFormed;
    assert Reserving(db.keys, [], id) == db.keys;
  }

  lemma MoveLeaves(db: Db, holder: Holder, t: Transition, id: JobId, job: Job, o: Outcome, retry: Option<Time>, until: Time, works: nat)
    requires job.kind == t.kind && job.state == t.from && WellFormed(o)
    ensures Leaves(db, holder, t, id, job, Some(o), retry, Ran(db, holder, t, id, job, Some(o), retry, until, works).db)
  {
    WellFormedAll(o);
    KeysReserved(db, id, o);
    hide WellFormed, ReservedFor, Todo, Skipped, Reserving, KeysOf, Least;
  }

  /** Whatever it was given, and whatever became of its effects, a run leaves its own row counted, and nothing else. */
  lemma RanLeaves(db: Db, holder: Holder, t: Transition, id: JobId, job: Job, decided: Option<Outcome>,
                  retry: Option<Time>, until: Time, works: nat)
    ensures Leaves(db, holder, t, id, job, decided, retry, Ran(db, holder, t, id, job, decided, retry, until, works).db)
  {
    if job.kind == t.kind && job.state == t.from {
      hide Leaves, WellFormed;
      if decided.None? || !WellFormed(decided.value) {
        FailureLeaves(db, holder, t, id, job, decided, retry);
      } else {
        MoveLeaves(db, holder, t, id, job, decided.value, retry, until, works);
      }
    }
  }

  lemma WellFormedAll(o: Outcome)
    ensures WellFormed(o) <==> o.state != "" && !exists e :: e in o.effects && (e.key == "" || e.act == Nothing)
  {
    if !WellFormed(o) && o.state != "" {
      var i :| 0 <= i < |o.effects| && o.effects[i].Malformed();
      assert o.effects[i] in o.effects;
    }
  }

  lemma KeysReserved(db: Db, id: JobId, o: Outcome)
    ensures ReservedFor(db.keys, o.effects, id, Reserving(db.keys, KeysOf(Todo(db.keys, o.effects)), id))
  {
    var todo := Todo(db.keys, o.effects);
    var now := Reserving(db.keys, KeysOf(todo), id);
    TodoAre(db.keys, o.effects);
    forall k ensures k in now <==> k in db.keys || exists e :: e in o.effects && e.key == k {
      if k in KeysOf(todo) {
        var i :| 0 <= i < |todo| && KeysOf(todo)[i] == k;
        assert todo[i] in o.effects;
      }
      if e :| e in o.effects && e.key == k {
        if k !in db.keys {
          assert e in todo;
          var i :| 0 <= i < |todo| && todo[i] == e;
          assert KeysOf(todo)[i] == k;
        }
      }
    }
  }

  class Runner {
    const store: SqliteStore
    const holder: Holder
    const ttl: Time
    var performed: seq<Key>

    constructor (store: SqliteStore, holder: Holder, ttl: Time)
      ensures this.store == store && this.holder == holder && this.ttl == ttl && performed == []
    {
      this.store, this.holder, this.ttl := store, holder, ttl;
      performed := [];
    }

    method Fail(id: JobId, job: Job, retry: Option<Time>) returns (report: Report)
      modifies store
      ensures report == FailedRun(old(store.Contents()), holder, id, job, retry) && store.Contents() == report.db
      ensures report.ending == Failed && report.performed == [] && report.skipped == [] && store.keys == old(store.keys)
      ensures id in old(store.jobs) && old(store.jobs)[id].HeldBy(holder) ==>
                store.jobs == old(store.jobs)[id := Job(old(store.jobs)[id].kind, job.state, job.attempts + 1, job.stays, retry, None)]
      ensures !(id in old(store.jobs) && old(store.jobs)[id].HeldBy(holder)) ==> store.jobs == old(store.jobs)
    {
      var r := store.Commit(FailCommit(id, holder, job, retry));
      if r.Err? {
        store.Release(id, holder);
      }
      report := Report(Failed, store.Contents(), [], []);
    }

    /** Takes the lease, and applies the transition to the row it got. None is a job a live holder has. */
    method Run(t: Transition, id: JobId, now: Time, decided: Option<Outcome>, retry: Option<Time>, stamp: Time, works: nat)
      returns (r: Result<Option<Report>, Error>)
      modifies store, this`performed
      ensures id !in old(store.Contents()).jobs ==> r == Err(NoJob)
      ensures id in old(store.Contents()).jobs && !old(store.Contents()).CanAcquire(id, holder, now) ==> r == Ok(None)
      ensures !(r.Ok? && r.value.Some?) ==> store.Contents() == old(store.Contents()) && performed == old(performed)
      ensures old(store.Contents()).CanAcquire(id, holder, now) ==>
                var leased := old(store.Contents()).Acquire(id, holder, now, ttl);
                && r == Ok(Some(Ran(leased, holder, t, id, leased.jobs[id], decided, retry, stamp + ttl, works)))
                && store.Contents() == r.value.value.db
                && performed == old(performed) + r.value.value.performed
                && Leaves(leased, holder, t, id, leased.jobs[id], decided, retry, store.Contents())
    {
      var got := store.Acquire(id, holder, now, ttl);
      if got.Err? {
        return Err(got.error);
      }
      if got.value.None? {
        return Ok(None);
      }
      var report := Apply(t, id, got.value.value, decided, retry, stamp, works);
      r := Ok(Some(report));
    }

    /** Decide, filter, commit, perform, release, in that order. */
    method Apply(t: Transition, id: JobId, job: Job, decided: Option<Outcome>, retry: Option<Time>, stamp: Time, works: nat)
      returns (report: Report)
      modifies store, this`performed
      ensures report == Ran(old(store.Contents()), holder, t, id, job, decided, retry, stamp + ttl, works)
      ensures store.Contents() == report.db && performed == old(performed) + report.performed
      ensures Leaves(old(store.Contents()), holder, t, id, job, decided, retry, store.Contents())
    {
      hide Leaves, Todo, Skipped;
      RanLeaves(store.Contents(), holder, t, id, job, decided, retry, stamp + ttl, works);
      if job.kind != t.kind {
        store.Release(id, holder);
        return Report(WrongKind, store.Contents(), [], []);
      }
      if job.state != t.from {
        store.Release(id, holder);
        return Report(WrongState, store.Contents(), [], []);
      }
      if decided.None? || decided.value.state == "" {
        report := Fail(id, job, retry);
        return;
      }
      var kept := Filter(decided.value.effects);
      if kept.None? {
        report := Fail(id, job, retry);
        assert performed + report.performed == performed;
        return;
      }
      var (todo, skipped) := kept.value;
      var until := if todo == [] then None else Some(stamp + ttl);
      var r := store.Commit(MoveCommit(id, holder, job, decided.value, todo, until));
      if r.Err? {
        store.Release(id, holder);
        return Report(Refused, store.Contents(), [], skipped);
      }
      var done := Perform(todo, works);
      store.Release(id, holder);
      report := Report(if done < |todo| then EffectFailed else Finished, store.Contents(), KeysOf(todo[..done]), skipped);
    }

    /** The effects whose key no commit has reserved, and the keys of the others; nothing if any effect is malformed. */
    method Filter(effects: seq<Effect>) returns (kept: Option<(seq<Effect>, seq<Key>)>)
      ensures kept.Some? <==> forall e :: e in effects ==> !e.Malformed()
      ensures kept.Some? ==> kept.value == (Todo(store.keys, effects), Skipped(store.keys, effects))
    {
      var todo: seq<Effect> := [];
      var skipped: seq<Key> := [];
      for i := 0 to |effects|
        invariant todo == Todo(store.keys, effects[..i]) && skipped == Skipped(store.keys, effects[..i])
        invariant forall j :: 0 <= j < i ==> !effects[j].Malformed()
      {
        if effects[i].Malformed() {
          return None;
        }
        assert effects[..i + 1][..i] == effects[..i];
        var reserved := store.Reserved(effects[i].key);
        if reserved {
          skipped := skipped + [effects[i].key];
        } else {
          todo := todo + [effects[i]];
        }
      }
      assert effects[..|effects|] == effects;
      kept := Some((todo, skipped));
    }

    /** The effects, in order, until one errors. */
    method Perform(todo: seq<Effect>, works: nat) returns (done: nat)
      modifies this`performed
      ensures done == Least(works, |todo|)
      ensures performed == old(performed) + KeysOf(todo[..done])
    {
      done := 0;
      while done < |todo| && done < works
        invariant done <= |todo| && done <= works
        invariant performed == old(performed) + KeysOf(todo[..done])
      {
        performed := performed + [todo[done].key];
        assert KeysOf(todo[..done + 1]) == KeysOf(todo[..done]) + [todo[done].key];
        done := done + 1;
      }
    }
  }

  /** What admission control says of starting work now. */
  datatype Admission = Starts | Waits | Defers(until: Time)

  /** One pass of a worker: the longest-waiting due job, if there is one, and what becomes of it. */
  class Worker {
    const runner: Runner

    constructor (runner: Runner)
      ensures this.runner == runner
    {
      this.runner := runner;
    }

    /** Moves when the job is next due, leaving its state and both its counts alone. No time parks it. */
    method Reschedule(id: JobId, job: Job, at: Option<Time>) returns (took: bool)
      modifies runner.store
      ensures took <==> old(runner.store.Contents()).CanCommit(RescheduleCommit(id, runner.holder, job, at))
      ensures !took ==> runner.store.Contents() == old(runner.store.Contents())
      ensures took ==> runner.store.Contents() == old(runner.store.Contents()).Committed(RescheduleCommit(id, runner.holder, job, at)).value
    {
      var r := runner.store.Commit(RescheduleCommit(id, runner.holder, job, at));
      took := r.Ok?;
    }

    /** One pass: what it took, and what it left of it. */
    method Work(now: Time, next: Option<Transition>, input: Input) returns (took: Option<JobId>)
      modifies runner.store, runner`performed
      ensures took.None? ==> runner.store.Contents() == old(runner.store.Contents())
                             && forall id :: !old(runner.store.Contents()).CanTake(id, runner.holder, now)
      ensures took.Some? ==>
                && old(runner.store.Contents()).LongestWaiting(took.value, runner.holder, now)
                && var leased := old(runner.store.Contents()).Acquire(took.value, runner.holder, now, runner.ttl);
                   var report := Dispatched(leased, runner.holder, took.value, now, runner.ttl, next, input);
                   && runner.store.Contents() == report.db && runner.performed == old(runner.performed) + report.performed
                   && PassLeaves(leased, runner.holder, took.value, next, input, report.db, report.performed)
    {
      hide PassLeaves, Dispatched;
      var due := runner.store.Due(runner.holder, now, runner.ttl);
      if due.None? {
        return None;
      }
      took := Some(due.value.0);
      Dispatch(due.value.0, due.value.1, now, next, input);
    }

    method Dispatch(id: JobId, job: Job, now: Time, next: Option<Transition>, input: Input)
      requires id in runner.store.jobs && runner.store.jobs[id] == job && job.HeldBy(runner.holder)
      modifies runner.store, runner`performed
      ensures var report := Dispatched(old(runner.store.Contents()), runner.holder, id, now, runner.ttl, next, input);
              && runner.store.Contents() == report.db && runner.performed == old(runner.performed) + report.performed
              && PassLeaves(old(runner.store.Contents()), runner.holder, id, next, input, report.db, report.performed)
    {
      hide Ran, PassLeaves, Leaves;
      DispatchedLeaves(runner.store.Contents(), runner.holder, id, now, runner.ttl, next, input);
      match input.admission
      case Defers(until) =>
        var _ := Reschedule(id, job, Some(until));
        assert runner.performed + [] == runner.performed;
      case Waits =>
        runner.store.Release(id, runner.holder);
        assert runner.performed + [] == runner.performed;
      case Starts =>
        if next.None? {
          var _ := Reschedule(id, job, None);
          assert runner.performed + [] == runner.performed;
        } else if !input.free {
          runner.store.Release(id, runner.holder);
          assert runner.performed + [] == runner.performed;
        } else {
          var _ := runner.Run(next.value, id, now, input.decided, input.retry, input.stamp, input.works);
        }
    }
  }

  /** What a pass meets: admission, whether the transition's tokens came free in time, and the run's own inputs. */
  datatype Input = Input(admission: Admission, free: bool, decided: Option<Outcome>, retry: Option<Time>, stamp: Time, works: nat)

  /** A leased job and what the pass makes of it. `next` is the transition its state calls for, if there is one. */
  function Dispatched(leased: Db, holder: Holder, id: JobId, now: Time, ttl: Time, next: Option<Transition>, input: Input): Report
    requires id in leased.jobs && leased.jobs[id].HeldBy(holder)
  {
    var job := leased.jobs[id];
    if input.admission.Defers? then
      Report(Refused, leased.Committed(RescheduleCommit(id, holder, job, Some(input.admission.until))).value, [], [])
    else if input.admission.Starts? && next.None? then
      Report(Refused, leased.Committed(RescheduleCommit(id, holder, job, None)).value, [], [])
    else if input.admission.Waits? || !input.free then
      Report(Refused, leased.Release(id, holder), [], [])
    else
      var again := leased.Acquire(id, holder, now, ttl);
      Ran(again, holder, next.value, id, again.jobs[id], input.decided, input.retry, input.stamp + ttl, input.works)
  }

  /** When a job that was not run is next due: at the deferral's time, never for a job nothing can move, and otherwise
      when it already was. */
  function PutOff(job: Job, admission: Admission, next: Option<Transition>): Option<Time> {
    if admission.Defers? then Some(admission.until)
    else if admission.Starts? && next.None? then None
    else job.nextRunAt
  }

  /** A job that was taken and not run costs it nothing: its state, attempts and stays are as they were, no effect is
      performed, no key reserved, and the lease is free. */
  lemma SetAsideCostsNothing(leased: Db, holder: Holder, id: JobId, now: Time, ttl: Time, next: Option<Transition>, input: Input)
    requires id in leased.jobs && leased.jobs[id].HeldBy(holder)
    requires !(input.admission.Starts? && next.Some? && input.free)
    ensures var report := Dispatched(leased, holder, id, now, ttl, next, input);
            && report.performed == [] && report.db.keys == leased.keys
            && report.db.jobs == leased.jobs[id := leased.jobs[id].(nextRunAt := PutOff(leased.jobs[id], input.admission, next), lease := None)]
  {
    assert Reserving(leased.keys, [], id) == leased.keys;
  }

  /** What one pass leaves of the job it took: a run's row if it started one, and otherwise the row as it was but for when it
      is next due, with nothing performed. */
  ghost predicate PassLeaves(leased: Db, holder: Holder, id: JobId, next: Option<Transition>, input: Input, now: Db, performed: seq<Key>)
    requires id in leased.jobs
  {
    if input.admission.Starts? && next.Some? && input.free then
      Leaves(leased, holder, next.value, id, leased.jobs[id], input.decided, input.retry, now)
    else
      && now.keys == leased.keys && performed == [] && id in now.jobs
      && now.jobs == leased.jobs[id := leased.jobs[id].(nextRunAt := now.jobs[id].nextRunAt, lease := None)]
      && now.jobs[id].nextRunAt == match input.admission {
           case Defers(until) => Some(until)
           case Waits => leased.jobs[id].nextRunAt
           case Starts => if next.None? then None else leased.jobs[id].nextRunAt
         }
  }

  lemma CountedAlike(row: Job, t: Transition, lease: Option<Lease>, decided: Option<Outcome>, retry: Option<Time>, now: Job)
    requires Counted(row.(lease := lease), t, row.(lease := lease), decided, retry, now)
    ensures Counted(row, t, row, decided, retry, now)
  {
  }

  /** The lease taken again, by the holder that has it, changes nothing of what a run leaves. */
  lemma LeavesAlike(leased: Db, again: Db, holder: Holder, t: Transition, id: JobId, decided: Option<Outcome>, retry: Option<Time>, now: Db)
    requires id in leased.jobs && leased.jobs[id].HeldBy(holder) && id in again.jobs && again.jobs[id].HeldBy(holder)
    requires again == leased.(jobs := leased.jobs[id := leased.jobs[id].(lease := again.jobs[id].lease)])
    requires Leaves(again, holder, t, id, again.jobs[id], decided, retry, now)
    ensures Leaves(leased, holder, t, id, leased.jobs[id], decided, retry, now)
  {
    hide Counted, ReservedFor, WellFormed;
    CountedAlike(leased.jobs[id], t, again.jobs[id].lease, decided, retry, now.jobs[id]);
    assert now.jobs == leased.jobs[id := now.jobs[id]];
  }

  lemma StartedLeaves(leased: Db, holder: Holder, id: JobId, now: Time, ttl: Time, next: Transition, input: Input)
    requires id in leased.jobs && leased.jobs[id].HeldBy(holder) && input.admission.Starts? && input.free
    ensures Leaves(leased, holder, next, id, leased.jobs[id], input.decided, input.retry,
                   Dispatched(leased, holder, id, now, ttl, Some(next), input).db)
  {
    hide Ran, Leaves;
    var again := leased.Acquire(id, holder, now, ttl);
    RanLeaves(again, holder, next, id, again.jobs[id], input.decided, input.retry, input.stamp + ttl, input.works);
    LeavesAlike(leased, again, holder, next, id, input.decided, input.retry, Dispatched(leased, holder, id, now, ttl, Some(next), input).db);
  }

  lemma DispatchedLeaves(leased: Db, holder: Holder, id: JobId, now: Time, ttl: Time, next: Option<Transition>, input: Input)
    requires id in leased.jobs && leased.jobs[id].HeldBy(holder)
    ensures var report := Dispatched(leased, holder, id, now, ttl, next, input);
            PassLeaves(leased, holder, id, next, input, report.db, report.performed)
  {
    hide Dispatched, Leaves;
    if input.admission.Starts? && next.Some? && input.free {
      StartedLeaves(leased, holder, id, now, ttl, next.value, input);
    } else {
      SetAsideCostsNothing(leased, holder, id, now, ttl, next, input);
    }
  }

  /** Makes jobs due under a lease of its own. */
  class Armer {
    const store: SqliteStore
    const holder: Holder
    const ttl: Time

    constructor (store: SqliteStore, holder: Holder, ttl: Time)
      ensures this.store == store && this.holder == holder && this.ttl == ttl
    {
      this.store, this.holder, this.ttl := store, holder, ttl;
    }

    /** A human asking for the work afresh: whatever state the job rests in, it starts over, and `key` is reserved by
        the commit that made it due. A job that is queued or held is left as it is. */
    method Restart(id: JobId, kind: Kind, start: State, now: Time, key: Key) returns (armed: bool)
      modifies store
      ensures var before := old(store.Contents()).Ensure(id, kind, start, None);
              && (armed <==> before.jobs[id].nextRunAt.None? && before.CanAcquire(id, holder, now))
              && (armed ==> store.jobs == before.jobs[id := Job(before.jobs[id].kind, start, 0, 0, Some(now), None)]
                            && store.keys == Reserving(before.keys, [key], id))
              && (!armed ==> store.Contents() == before)
    {
      var job := store.Ensure(id, kind, start, None);
      if job.nextRunAt.None? {
        armed := Arm(id, start, now, [key], false);
      } else {
        armed := false;
      }
    }

    /** Another job asking for the work: only a job at rest in `start` is made due, and one that is not there yet is
        created due. */
    method Ask(id: JobId, kind: Kind, start: State, now: Time) returns (armed: bool)
      modifies store
      ensures var before := old(store.Contents()).Ensure(id, kind, start, Some(now));
              && (armed <==> before.jobs[id].nextRunAt.None? && before.jobs[id].state == start && before.CanAcquire(id, holder, now))
              && (armed ==> store.jobs == before.jobs[id := Job(before.jobs[id].kind, start, 0, 0, Some(now), None)]
                            && store.keys == before.keys)
              && (!armed ==> store.Contents() == before)
    {
      var job := store.Ensure(id, kind, start, Some(now));
      if job.nextRunAt.None? && job.state == start {
        armed := Arm(id, start, now, [], true);
        assert forall m: map<Key, JobId> :: Reserving(m, [], id) == m;
      } else {
        armed := false;
      }
    }

    /** The lease, the check again under it, and the commit that makes the job due. */
    method Arm(id: JobId, start: State, now: Time, keys: seq<Key>, onlyFromStart: bool) returns (armed: bool)
      requires id in store.jobs
      modifies store
      ensures armed <==> old(store.Contents()).CanAcquire(id, holder, now) && old(store.jobs)[id].nextRunAt.None?
                         && (onlyFromStart ==> old(store.jobs)[id].state == start)
      ensures armed ==> store.jobs == old(store.jobs)[id := Job(old(store.jobs)[id].kind, start, 0, 0, Some(now), None)]
                        && store.keys == Reserving(old(store.keys), keys, id)
      ensures !armed && !old(store.Contents()).CanAcquire(id, holder, now) ==> store.Contents() == old(store.Contents())
      ensures !armed && old(store.Contents()).CanAcquire(id, holder, now) ==>
                store.jobs == old(store.jobs)[id := old(store.jobs)[id].(lease := None)] && store.keys == old(store.keys)
    {
      var got := store.Acquire(id, holder, now, ttl);
      if got.Err? || got.value.None? {
        return false;
      }
      var job := got.value.value;
      if !(job.nextRunAt.None? && (onlyFromStart ==> job.state == start)) {
        store.Release(id, holder);
        return false;
      }
      // Refused only when the lease was lost in between, which Protocol covers and one holder alone never sees.
      var r := store.Commit(ArmCommit(id, holder, start, now, keys));
      armed := r.Ok?;
    }
  }
}
