/** The lease, commit and effect protocol as a machine: any number of holders, each running the runner's, the
    dispatcher's or the armer's steps against one store, with a clock that only goes forward and a kill possible
    between any two steps. Every store access is a step of its own. */
module Protocol {
  import opened Base
  import opened Store
  import opened Decision

  /** Where one holder's process is. A holder that is not in the machine's map is Idle: dead, or between jobs. */
  datatype Phase =
    | Idle
    | Taken(id: JobId, job: Job)                                  // the dispatcher, after Due
    | Leased(id: JobId)                                           // the lease written, the row not read yet
    | Running(id: JobId, job: Job)                                // the transition's own code, or the armer's check
    | Filtering(id: JobId, job: Job, outcome: Outcome, next: nat, todo: seq<Effect>)
    | Timed(id: JobId, job: Job, outcome: Outcome, todo: seq<Effect>, deadline: Time)
    | Ready(id: JobId, job: Job, commit: Commit, todo: seq<Effect>, deadline: Time)
    | Performing(id: JobId, job: Job, todo: seq<Effect>, deadline: Time)
    | Doing(id: JobId, job: Job, effect: Effect, todo: seq<Effect>, deadline: Time, absent: bool)
    | Leaving(id: JobId)                                          // about to give the lease back

  datatype Event =
    | Reserved(holder: Holder, job: JobId, keys: seq<Key>)        // a commit that was applied
    | Performed(holder: Holder, key: Key)                         // an effect's Do was called
    | Said(marker: Marker)                                        // a comment reached the tracker

  datatype World = World(
    db: Db,
    at: map<Holder, Phase>,
    clock: Time,
    history: seq<Event>,
    said: multiset<Marker>,       // the tracker's comments, by the marker each carries
    ttl: Time,
    owner: Key -> JobId,          // the one job whose transitions make a key
    speaker: Marker -> JobId)     // the one job that says a marker
  {
    function Of(h: Holder): Phase {
      if h in at then at[h] else Idle
    }

    function Moved(h: Holder, p: Phase): World {
      this.(at := at[h := p])
    }

    /** An effect is the job's own when its key and its marker are. */
    predicate Owns(id: JobId, e: Effect) {
      owner(e.key) == id && (e.act.Say? ==> speaker(e.act.marker) == id)
    }
  }

  datatype Step =
    | Tick(dt: nat)
    | Kill(h: Holder)
    | Ensure(id: JobId, kind: Kind, initial: State, runAt: Option<Time>)
    | Due(h: Holder, id: JobId, now: Time)
    | GiveBack(h: Holder)
    | Reschedule(h: Holder, runAt: Option<Time>)
    | Acquire(h: Holder, id: JobId, now: Time)
    | ReadJob(h: Holder)
    | Decide(h: Holder, outcome: Outcome)
    | Fail(h: Holder, runAt: Option<Time>)
    | Arm(h: Holder, start: State, now: Time, keys: seq<Key>)
    | Look(h: Holder)
    | StartTimer(h: Holder)
    | Stamp(h: Holder)
    | Apply(h: Holder)
    | Begin(h: Holder)
    | ReadBack(h: Holder)
    | Post(h: Holder)
    | Done(h: Holder)
    | Leave(h: Holder)
    | Release(h: Holder)

  /** Whether a step can be taken. `now` is a clock reading made at or before the step that uses it. */
  predicate Enabled(w: World, s: Step) {
    match s
    case Tick(_) => true
    case Kill(_) => true
    case Ensure(_, _, _, _) => true
    case Due(h, id, now) => w.Of(h).Idle? && now <= w.clock && w.db.CanTake(id, h, now)
    case GiveBack(h) => w.Of(h).Taken?
    case Reschedule(h, _) => w.Of(h).Taken?
    case Acquire(h, id, now) =>
      now <= w.clock && id in w.db.jobs && (w.Of(h).Idle? || (w.Of(h).Taken? && w.Of(h).id == id))
    case ReadJob(h) => w.Of(h).Leased? && w.Of(h).id in w.db.jobs
    case Decide(h, o) =>
      w.Of(h).Running? && o.state != ""
      && (forall e :: e in o.effects ==> !e.Malformed() && w.Owns(w.Of(h).id, e))
      && (forall i, j :: 0 <= i < j < |o.effects| ==> o.effects[i].key != o.effects[j].key)
    case Fail(h, _) => w.Of(h).Running? || w.Of(h).Filtering?
    case Arm(h, _, _, keys) =>
      w.Of(h).Running? && w.Of(h).job.nextRunAt.None? && forall k :: k in keys ==> w.owner(k) == w.Of(h).id
    case Look(h) => w.Of(h).Filtering? && w.Of(h).next < |w.Of(h).outcome.effects|
    case StartTimer(h) => w.Of(h).Filtering? && w.Of(h).next >= |w.Of(h).outcome.effects| && w.Of(h).todo != []
    case Stamp(h) => w.Of(h).Timed? || (w.Of(h).Filtering? && w.Of(h).next >= |w.Of(h).outcome.effects| && w.Of(h).todo == [])
    case Apply(h) => w.Of(h).Ready?
    case Begin(h) => w.Of(h).Performing? && w.Of(h).todo != []
    case ReadBack(h) => w.Of(h).Doing? && w.Of(h).effect.act.Say? && w.clock < w.Of(h).deadline
    case Post(h) => w.Of(h).Doing? && w.Of(h).effect.act.Say? && w.Of(h).absent && w.clock < w.Of(h).deadline
    case Done(h) => w.Of(h).Doing?
    case Leave(h) => !w.Of(h).Idle? && !w.Of(h).Taken?
    case Release(h) => w.Of(h).Leaving?
  }

  function Next(w: World, s: Step): World
    requires Enabled(w, s)
  {
    match s
    case Tick(dt) => w.(clock := w.clock + dt)
    case Kill(h) => w.Moved(h, Idle)
    case Ensure(id, kind, initial, runAt) => w.(db := w.db.Ensure(id, kind, initial, runAt))
    case Due(h, id, now) =>
      var db := w.db.Acquire(id, h, now, w.ttl);
      w.(db := db).Moved(h, Taken(id, db.jobs[id]))
    case GiveBack(h) => w.(db := w.db.Release(w.Of(h).id, h)).Moved(h, Idle)
    case Reschedule(h, runAt) => Committing(w, h, RescheduleCommit(w.Of(h).id, h, w.Of(h).job, runAt), Idle, Idle)
    case Acquire(h, id, now) =>
      if w.db.CanAcquire(id, h, now) then w.(db := w.db.Acquire(id, h, now, w.ttl)).Moved(h, Leased(id)) else w.Moved(h, Idle)
    case ReadJob(h) => w.Moved(h, Running(w.Of(h).id, w.db.jobs[w.Of(h).id]))
    case Decide(h, o) => w.Moved(h, Filtering(w.Of(h).id, w.Of(h).job, o, 0, []))
    case Fail(h, runAt) =>
      var p := w.Of(h);
      w.Moved(h, Ready(p.id, p.job, FailCommit(p.id, h, p.job, runAt), [], w.clock))
    case Arm(h, start, now, keys) =>
      var p := w.Of(h);
      w.Moved(h, Ready(p.id, p.job, ArmCommit(p.id, h, start, now, keys), [], w.clock))
    case Look(h) =>
      var p := w.Of(h);
      var e := p.outcome.effects[p.next];
      w.Moved(h, p.(next := p.next + 1, todo := if e.key in w.db.keys then p.todo else p.todo + [e]))
    case StartTimer(h) =>
      var p := w.Of(h);
      w.Moved(h, Timed(p.id, p.job, p.outcome, p.todo, w.clock + w.ttl))
    case Stamp(h) =>
      var p := w.Of(h);
      var until := if p.Timed? then Some(w.clock + w.ttl) else None;
      w.Moved(h, Ready(p.id, p.job, MoveCommit(p.id, h, p.job, p.outcome, p.todo, until), p.todo,
                       if p.Timed? then p.deadline else w.clock))
    case Apply(h) =>
      Committing(w, h, w.Of(h).commit, Applied(w.Of(h)), Leaving(w.Of(h).id))
    case Begin(h) =>
      var p := w.Of(h);
      w.(history := w.history + [Performed(h, p.todo[0].key)])
       .Moved(h, Doing(p.id, p.job, p.todo[0], p.todo[1..], p.deadline, false))
    case ReadBack(h) =>
      var p := w.Of(h);
      w.Moved(h, p.(absent := p.effect.act.marker !in w.said))
    case Post(h) =>
      var p := w.Of(h);
      w.(said := w.said + multiset{p.effect.act.marker}, history := w.history + [Said(p.effect.act.marker)])
       .Moved(h, Performing(p.id, p.job, p.todo, p.deadline))
    case Done(h) =>
      var p := w.Of(h);
      w.Moved(h, Performing(p.id, p.job, p.todo, p.deadline))
    case Leave(h) => w.Moved(h, Leaving(w.Of(h).id))
    case Release(h) => w.(db := w.db.Release(w.Of(h).id, h)).Moved(h, Idle)
  }

  /** Where an applied commit leaves its process: free, or with its effects to perform under the renewed lease. */
  function Applied(p: Phase): Phase
    requires p.Ready?
  {
    var c := p.commit;
    if c.release then Idle
    else Performing(p.id, p.job.(state := c.state, attempts := c.attempts, stays := c.stays, nextRunAt := c.nextRunAt),
                    p.todo, p.deadline)
  }

  /** One transaction: the change and its keys together, or neither. */
  function Committing(w: World, h: Holder, c: Commit, applied: Phase, refused: Phase): World {
    match w.db.Committed(c)
    case Ok(db) => w.(db := db, history := w.history + [Reserved(h, c.job, c.keys)]).Moved(h, applied)
    case Err(_) => w.Moved(h, refused)
  }

  /** An empty store with nobody at work. */
  ghost predicate Init(w: World) {
    w.db == Db(map[], map[]) && w.at == map[] && w.history == [] && w.said == multiset{} && w.ttl > 0
  }

  /** Every step of the run could be taken when its turn came. */
  predicate Runs(w: World, steps: seq<Step>)
    decreases |steps|
  {
    steps == [] || (Enabled(w, steps[0]) && Runs(Next(w, steps[0]), steps[1..]))
  }

  function After(w: World, steps: seq<Step>): World
    requires Runs(w, steps)
    decreases |steps|
  {
    if steps == [] then w else After(Next(w, steps[0]), steps[1..])
  }
}
