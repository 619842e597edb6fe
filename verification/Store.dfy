/** The job store: leases, schedules and the idempotency keys, as one database value and the operations
    that each change it in one transaction (internal/store/sqlite.go). */
module Store {
  import opened Base
  import opened Order

  type Time = int
  type JobId = string
  type Holder = string
  type State = string
  type Key = string

  datatype Kind = Implement | Review | Revise

  datatype Lease = Lease(holder: Holder, expiresAt: Time) {
    predicate Expired(now: Time) {
      expiresAt <= now
    }
  }

  /** A row of the jobs table. No next run is a job nothing will pick up. */
  datatype Job = Job(kind: Kind, state: State, attempts: nat, stays: nat, nextRunAt: Option<Time>, lease: Option<Lease>) {
    predicate HeldBy(holder: Holder) {
      lease.Some? && lease.value.holder == holder
    }

    /** Whether `holder` may take the lease: nothing holds it, what holds it has expired, or the asker does. */
    predicate Leasable(holder: Holder, now: Time) {
      lease.None? || lease.value.Expired(now) || lease.value.holder == holder
    }

    predicate Due(now: Time) {
      nextRunAt.Some? && nextRunAt.value <= now
    }

    /** The columns a commit writes, apart from the lease. */
    predicate SameWork(other: Job) {
      kind == other.kind && state == other.state && attempts == other.attempts && stays == other.stays
      && nextRunAt == other.nextRunAt
    }
  }

  /** One job's state change. `leaseUntil` moves a kept lease's expiry; a release ignores it. */
  datatype Commit = Commit(
    job: JobId, holder: Holder,
    state: State, attempts: nat, stays: nat, nextRunAt: Option<Time>,
    keys: seq<Key>, release: bool, leaseUntil: Option<Time>)

  datatype Error = NoJob | NotHeld

  /** The two tables: the jobs, and each reserved key with the job that reserved it. */
  datatype Db = Db(jobs: map<JobId, Job>, keys: map<Key, JobId>) {

    function Ensure(id: JobId, kind: Kind, initial: State, runAt: Option<Time>): Db {
      if id in jobs then this else this.(jobs := jobs[id := Job(kind, initial, 0, 0, runAt, None)])
    }

    predicate CanAcquire(id: JobId, holder: Holder, now: Time) {
      id in jobs && jobs[id].Leasable(holder, now)
    }

    function Acquire(id: JobId, holder: Holder, now: Time, ttl: Time): Db
      requires CanAcquire(id, holder, now)
    {
      this.(jobs := jobs[id := jobs[id].(lease := Some(Lease(holder, now + ttl)))])
    }

    predicate CanTake(id: JobId, holder: Holder, now: Time) {
      CanAcquire(id, holder, now) && jobs[id].Due(now)
    }

    /** `id` is what Due takes: of the jobs it may take, the longest waiting, and of those the least id. */
    ghost predicate LongestWaiting(id: JobId, holder: Holder, now: Time) {
      && CanTake(id, holder, now)
      && (forall other :: other in jobs && CanTake(other, holder, now) ==> !Before(other, id))
    }

    /** The order of the queue: by next run, then by id. */
    predicate Before(a: JobId, b: JobId)
      requires a in jobs && jobs[a].nextRunAt.Some? && b in jobs && jobs[b].nextRunAt.Some?
    {
      || jobs[a].nextRunAt.value < jobs[b].nextRunAt.value
      || (jobs[a].nextRunAt.value == jobs[b].nextRunAt.value && Less(a, b))
    }

    predicate CanCommit(c: Commit) {
      c.job in jobs && jobs[c.job].HeldBy(c.holder)
    }

    function Committed(c: Commit): Result<Db, Error> {
      if c.job !in jobs then Err(NoJob)
      else if !CanCommit(c) then Err(NotHeld)
      else Ok(Db(jobs[c.job := Written(jobs[c.job], c)], Reserving(keys, c.keys, c.job)))
    }

    function Release(id: JobId, holder: Holder): Db {
      if id in jobs && jobs[id].HeldBy(holder) then this.(jobs := jobs[id := jobs[id].(lease := None)]) else this
    }
  }

  /** The row a commit leaves, given the lease it was checked against. */
  function Written(row: Job, c: Commit): Job
    requires row.lease.Some?
  {
    Job(row.kind, c.state, c.attempts, c.stays, c.nextRunAt,
        if c.release then None
        else if c.leaseUntil.Some? then Some(row.lease.value.(expiresAt := c.leaseUntil.value))
        else row.lease)
  }

  /** The key table with `added` reserved by `id`. A key already reserved keeps the job that reserved it. */
  function Reserving(keys: map<Key, JobId>, added: seq<Key>, id: JobId): map<Key, JobId> {
    map k | k in keys.Keys + (set x | x in added) :: if k in keys then keys[k] else id
  }

  lemma ReservingOneMore(keys: map<Key, JobId>, added: seq<Key>, k: Key, id: JobId)
    ensures Reserving(keys, added + [k], id)
         == if k in Reserving(keys, added, id) then Reserving(keys, added, id) else Reserving(keys, added, id)[k := id]
  {
    forall x ensures x in added + [k] <==> x in added || x == k {
      if x in added {
        var i :| 0 <= i < |added| && added[i] == x;
        assert (added + [k])[i] == x;
      }
      assert (added + [k])[|added|] == k;
    }
  }

  /** Two askers cannot both be given a job: what Due takes, nobody else may take before it lapses. */
  lemma DueIsExclusive(db: Db, id: JobId, first: Holder, second: Holder, now: Time, ttl: Time, later: Time)
    requires db.LongestWaiting(id, first, now) && first != second && later < now + ttl
    ensures !db.Acquire(id, first, now, ttl).CanAcquire(id, second, later)
  {
  }

  /** What Due takes is one job and no other: the queue's order leaves no choice. */
  lemma DueIsDetermined(db: Db, a: JobId, b: JobId, holder: Holder, now: Time)
    requires db.LongestWaiting(a, holder, now) && db.LongestWaiting(b, holder, now)
    ensures a == b
  {
    LessIsTotal(a, b);
  }

  class SqliteStore {
    var jobs: map<JobId, Job>
    var keys: map<Key, JobId>

    function Contents(): Db
      reads this
    {
      Db(jobs, keys)
    }

    constructor ()
      ensures Contents() == Db(map[], map[])
    {
      jobs, keys := map[], map[];
    }

    method Ensure(id: JobId, kind: Kind, initial: State, runAt: Option<Time>) returns (job: Job)
      modifies this
      ensures Contents() == old(Contents()).Ensure(id, kind, initial, runAt)
      ensures keys == old(keys) && id in jobs && job == jobs[id]
      ensures jobs == if id in old(jobs) then old(jobs) else old(jobs)[id := Job(kind, initial, 0, 0, runAt, None)]
    {
      if id !in jobs {
        jobs := jobs[id := Job(kind, initial, 0, 0, runAt, None)];
      }
      job := jobs[id];
    }

    /** The lease until now + ttl, or None if a live holder has it. */
    method Acquire(id: JobId, holder: Holder, now: Time, ttl: Time) returns (r: Result<Option<Job>, Error>)
      modifies this
      ensures id !in old(jobs) ==> r == Err(NoJob)
      ensures id in old(jobs) && !old(Contents()).CanAcquire(id, holder, now) ==> r == Ok(None)
      ensures !old(Contents()).CanAcquire(id, holder, now) ==> Contents() == old(Contents())
      ensures old(Contents()).CanAcquire(id, holder, now) ==>
                Contents() == old(Contents()).Acquire(id, holder, now, ttl) && r == Ok(Some(jobs[id]))
      ensures keys == old(keys)
      ensures r.Ok? && r.value.Some? <==>
                id in old(jobs) && (old(jobs)[id].lease.None? || old(jobs)[id].lease.value.expiresAt <= now || old(jobs)[id].lease.value.holder == holder)
      ensures jobs == if r.Ok? && r.value.Some? then old(jobs)[id := old(jobs)[id].(lease := Some(Lease(holder, now + ttl)))] else old(jobs)
    {
      if id !in jobs {
        return Err(NoJob);
      }
      if !jobs[id].Leasable(holder, now) {
        return Ok(None);
      }
      jobs := jobs[id := jobs[id].(lease := Some(Lease(holder, now + ttl)))];
      r := Ok(Some(jobs[id]));
    }

    /** The lease on the longest-waiting due job, if there is one. */
    method Due(holder: Holder, now: Time, ttl: Time) returns (r: Option<(JobId, Job)>)
      modifies this
      ensures r.None? ==> Contents() == old(Contents()) && forall id :: !old(Contents()).CanTake(id, holder, now)
      ensures r.Some? ==> old(Contents()).LongestWaiting(r.value.0, holder, now)
                          && Contents() == old(Contents()).Acquire(r.value.0, holder, now, ttl)
                          && r.value.1 == jobs[r.value.0]
      ensures keys == old(keys)
      ensures r.Some? ==>
                && Takable(old(jobs), r.value.0, holder, now)
                && jobs == old(jobs)[r.value.0 := old(jobs)[r.value.0].(lease := Some(Lease(holder, now + ttl)))]
                && forall id :: Takable(old(jobs), id, holder, now) ==>
                     || old(jobs)[r.value.0].nextRunAt.value < old(jobs)[id].nextRunAt.value
                     || (old(jobs)[r.value.0].nextRunAt == old(jobs)[id].nextRunAt && !Less(id, r.value.0))
      ensures r.None? ==> forall id :: !Takable(old(jobs), id, holder, now)
    {
      var best: Option<JobId> := None;
      var rest := jobs.Keys;
      while rest != {}
        invariant rest <= jobs.Keys && jobs == old(jobs) && keys == old(keys)
        invariant best.Some? ==> best.value !in rest && Contents().CanTake(best.value, holder, now)
        invariant forall id :: id in jobs && id !in rest && Contents().CanTake(id, holder, now) ==>
                                 best.Some? && !Contents().Before(id, best.value)
        decreases rest
      {
        var id :| id in rest;
        rest := rest - {id};
        if Contents().CanTake(id, holder, now) {
          if best.None? || Contents().Before(id, best.value) {
            forall other | other in jobs && other !in rest && Contents().CanTake(other, holder, now)
              ensures !Contents().Before(other, id)
            {
              OrderSteps(Contents(), other, id, best);
            }
            best := Some(id);
          }
        }
      }
      if best.None? {
        return None;
      }
      jobs := jobs[best.value := jobs[best.value].(lease := Some(Lease(holder, now + ttl)))];
      r := Some((best.value, jobs[best.value]));
    }

    /** Applies the change and reserves its keys, or refuses and applies nothing. */
    method Commit(c: Commit) returns (r: Result<(), Error>)
      modifies this
      ensures r.Ok? <==> old(Contents()).Committed(c).Ok?
      ensures r.Ok? ==> Contents() == old(Contents()).Committed(c).value
      ensures r.Err? ==> Contents() == old(Contents()) && old(Contents()).Committed(c) == Err(r.error)
      ensures r.Ok? <==> c.job in old(jobs) && old(jobs)[c.job].lease.Some? && old(jobs)[c.job].lease.value.holder == c.holder
      ensures r.Ok? ==>
                && jobs == old(jobs)[c.job := Job(old(jobs)[c.job].kind, c.state, c.attempts, c.stays, c.nextRunAt, jobs[c.job].lease)]
                && jobs[c.job].lease == (if c.release then None
                                         else if c.leaseUntil.Some? then Some(Lease(c.holder, c.leaseUntil.value))
                                         else old(jobs)[c.job].lease)
                && (forall k :: k in keys <==> k in old(keys) || k in c.keys)
                && (forall k :: k in keys ==> keys[k] == if k in old(keys) then old(keys)[k] else c.job)
    {
      if c.job !in jobs {
        return Err(NoJob);
      }
      var row := jobs[c.job];
      if !row.HeldBy(c.holder) {
        return Err(NotHeld);
      }
      var lease := row.lease;
      if c.release {
        lease := None;
      } else if c.leaseUntil.Some? {
        lease := Some(Lease(c.holder, c.leaseUntil.value));
      }
      jobs := jobs[c.job := Job(row.kind, c.state, c.attempts, c.stays, c.nextRunAt, lease)];
      Reserve(c.keys, c.job);
      r := Ok(());
    }

    /** The keys of a commit, each inserted unless it is there already. */
    method Reserve(added: seq<Key>, id: JobId)
      modifies `keys
      ensures keys == Reserving(old(keys), added, id)
    {
      for i := 0 to |added|
        invariant keys == Reserving(old(keys), added[..i], id)
      {
        ReservingOneMore(old(keys), added[..i], added[i], id);
        assert added[..i + 1] == added[..i] + [added[i]];
        if added[i] !in keys {
          keys := keys[added[i] := id];
        }
      }
      assert added[..|added|] == added;
    }

    method Reserved(key: Key) returns (reserved: bool)
      ensures reserved <==> key in keys
    {
      reserved := key in keys;
    }

    method Release(id: JobId, holder: Holder)
      modifies this
      ensures Contents() == old(Contents()).Release(id, holder)
      ensures keys == old(keys)
      ensures jobs == if id in old(jobs) && old(jobs)[id].lease.Some? && old(jobs)[id].lease.value.holder == holder
                      then old(jobs)[id := old(jobs)[id].(lease := None)] else old(jobs)
    {
      if id in jobs && jobs[id].HeldBy(holder) {
        jobs := jobs[id := jobs[id].(lease := None)];
      }
    }
  }

  /** A job due and free to be taken: its next run is not ahead of now, and no live lease of anyone else's is on it. */
  ghost predicate Takable(jobs: map<JobId, Job>, id: JobId, holder: Holder, now: Time) {
    && id in jobs && jobs[id].nextRunAt.Some? && jobs[id].nextRunAt.value <= now
    && (jobs[id].lease.Some? ==> jobs[id].lease.value.expiresAt <= now || jobs[id].lease.value.holder == holder)
  }

  /** The steps of the queue's order Due's scan takes: from a least `best` to a job before it. */
  lemma OrderSteps(db: Db, other: JobId, id: JobId, best: Option<JobId>)
    requires other in db.jobs && db.jobs[other].nextRunAt.Some? && id in db.jobs && db.jobs[id].nextRunAt.Some?
    requires best.Some? ==> best.value in db.jobs && db.jobs[best.value].nextRunAt.Some? && db.Before(id, best.value)
    requires other == id || (best.Some? && !db.Before(other, best.value))
    ensures !db.Before(other, id)
  {
    LessIsTotal(id, id);
    if other != id && db.Before(other, id) {
      if Less(other, id) && Less(id, best.value) {
        LessIsTransitive(other, id, best.value);
      }
    }
  }

  /** A commit that is refused leaves the store as it was, and one that is applied was made by the recorded holder:
      another holder's row, and every other row, is never written. */
  lemma CommitWritesOnlyItsHoldersRow(db: Db, c: Commit)
    ensures db.Committed(c).Ok? <==> c.job in db.jobs && db.jobs[c.job].HeldBy(c.holder)
    ensures db.Committed(c).Ok? ==>
              var after := db.Committed(c).value;
              && after.jobs.Keys == db.jobs.Keys
              && (forall id :: id in db.jobs && id != c.job ==> after.jobs[id] == db.jobs[id])
              && (forall k :: k in after.keys <==> k in db.keys || k in c.keys)
              && (forall k :: k in db.keys ==> after.keys[k] == db.keys[k])
              && (after.jobs[c.job].lease.Some? ==> after.jobs[c.job].HeldBy(c.holder))
  {
  }
}
