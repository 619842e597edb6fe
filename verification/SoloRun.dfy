/** The runner's own code and the machine agree: a holder that is left alone takes, in the machine, exactly the steps
    the runner's methods take, and leaves the database they leave. */
module SoloRun {
  import opened Base
  import opened Store
  import opened Decision
  import opened Protocol
  import Runner

  function Performances(history: seq<Event>): seq<Key> {
    if history == [] then []
    else
      var last := |history| - 1;
      Performances(history[..last]) + (if history[last].Performed? then [history[last].key] else [])
  }

  lemma PerformancesAppend(history: seq<Event>, e: Event)
    ensures Performances(history + [e]) == Performances(history) + (if e.Performed? then [e.key] else [])
  {
    assert (history + [e])[..|history|] == history;
  }

  lemma {:induction false} Chain(w: World, a: seq<Step>, b: seq<Step>)
    requires Runs(w, a) && Runs(After(w, a), b)
    ensures Runs(w, a + b) && After(w, a + b) == After(After(w, a), b)
    decreases |a|
  {
    if a == [] {
      assert a + b == b;
    } else {
      Chain(Next(w, a[0]), a[1..], b);
      assert (a + b)[0] == a[0] && (a + b)[1..] == a[1..] + b;
    }
  }

  lemma MovedAgain(w: World, h: Holder, p: Phase, q: Phase)
    ensures w.Moved(h, p).Moved(h, q) == w.Moved(h, q)
  {
    assert w.at[h := p][h := q] == w.at[h := q];
  }

  function Times(s: Step, n: nat): seq<Step> {
    if n == 0 then [] else [s] + Times(s, n - 1)
  }

  lemma LookOne(w: World, h: Holder, id: JobId, job: Job, o: Outcome, k: nat)
    requires k < |o.effects| && w.Of(h) == Filtering(id, job, o, k, Todo(w.db.keys, o.effects[..k]))
    ensures Enabled(w, Look(h))
    ensures Next(w, Look(h)) == w.Moved(h, Filtering(id, job, o, k + 1, Todo(w.db.keys, o.effects[..k + 1])))
  {
    var seen := o.effects[..k + 1];
    assert seen[..k] == o.effects[..k] && seen[k] == o.effects[k] && |seen| - 1 == k;
    assert Enabled(w, Look(h));
    assert Next(w, Look(h)).Of(h).todo == Todo(w.db.keys, seen);
  }

  lemma TimesThen(w: World, s: Step, n: nat)
    requires n > 0 && Enabled(w, s) && Runs(Next(w, s), Times(s, n - 1))
    ensures Runs(w, Times(s, n)) && After(w, Times(s, n)) == After(Next(w, s), Times(s, n - 1))
  {
    assert Times(s, n)[0] == s && Times(s, n)[1..] == Times(s, n - 1);
  }

  lemma {:induction false} LookAll(w: World, h: Holder, id: JobId, job: Job, o: Outcome, k: nat)
    requires k <= |o.effects| && w.Of(h) == Filtering(id, job, o, k, Todo(w.db.keys, o.effects[..k]))
    ensures Runs(w, Times(Look(h), |o.effects| - k))
    ensures After(w, Times(Look(h), |o.effects| - k)) == w.Moved(h, Filtering(id, job, o, |o.effects|, Todo(w.db.keys, o.effects)))
    decreases |o.effects| - k
  {
    if k == |o.effects| {
      assert o.effects[..k] == o.effects;
      assert w.at == w.at[h := w.at[h]];
    } else {
      LookOne(w, h, id, job, o, k);
      hide Enabled, Next, Runs, After, Todo;
      var v := Next(w, Look(h));
      LookAll(v, h, id, job, o, k + 1);
      MovedAgain(w, h, v.Of(h), Filtering(id, job, o, |o.effects|, Todo(w.db.keys, o.effects)));
      TimesThen(w, Look(h), |o.effects| - k);
    }
  }

  /** The effects a run begins: those that come off, and the one that errors. */
  function Tried(todo: seq<Effect>, works: nat): seq<Key> {
    if todo == [] then [] else [todo[0].key] + (if works == 0 then [] else Tried(todo[1..], works - 1))
  }

  lemma {:induction false} TriedIsPrefix(todo: seq<Effect>, works: nat)
    ensures Tried(todo, works) == KeysOf(todo[..Runner.Least(works + 1, |todo|)])
  {
    var n := Runner.Least(works + 1, |todo|);
    if todo != [] {
      if works > 0 {
        TriedIsPrefix(todo[1..], works - 1);
      }
      assert todo[..n] == [todo[0]] + todo[1..][..n - 1];
    }
  }

  /** The effects of a commit, until one errors. */
  function EffectSteps(h: Holder, n: nat, works: nat): seq<Step> {
    if n == 0 then [Leave(h)] + [Release(h)]
    else if works == 0 then [Begin(h), Leave(h)] + [Release(h)]
    else [Begin(h), Done(h)] + EffectSteps(h, n - 1, works - 1)
  }

  lemma PerformOne(w: World, h: Holder)
    requires w.Of(h).Performing? && w.Of(h).todo != []
    ensures Enabled(w, Begin(h)) && Enabled(Next(w, Begin(h)), Done(h)) && Enabled(Next(w, Begin(h)), Leave(h))
    ensures var p := w.Of(h); var u := Next(Next(w, Begin(h)), Done(h));
            && u.db == w.db && u.Of(h) == Performing(p.id, p.job, p.todo[1..], p.deadline)
            && Performances(u.history) == Performances(w.history) + [p.todo[0].key]
    ensures var p := w.Of(h); var u := Next(Next(w, Begin(h)), Leave(h));
            && u.db == w.db && u.Of(h) == Leaving(p.id)
            && Performances(u.history) == Performances(w.history) + [p.todo[0].key]
  {
    PerformancesAppend(w.history, Performed(h, w.Of(h).todo[0].key));
  }

  lemma LetGo(w: World, h: Holder)
    requires w.Of(h).Leaving?
    ensures Runs(w, [Release(h)])
    ensures var v := After(w, [Release(h)]);
            v.db == w.db.Release(w.Of(h).id, h) && v.Of(h) == Idle && v.history == w.history
  {
    OneStep(w, Release(h));
  }

  lemma LeaveAndLetGo(w: World, h: Holder)
    requires w.Of(h).Performing? || w.Of(h).Running?
    ensures Runs(w, [Leave(h)] + [Release(h)])
    ensures var v := After(w, [Leave(h)] + [Release(h)]);
            v.db == w.db.Release(w.Of(h).id, h) && v.Of(h) == Idle && v.history == w.history
  {
    OneStep(w, Leave(h));
    LetGo(Next(w, Leave(h)), h);
    Chain(w, [Leave(h)], [Release(h)]);
  }

  lemma PerformFailing(w: World, h: Holder)
    requires w.Of(h).Performing? && w.Of(h).todo != []
    ensures Runs(w, [Begin(h), Leave(h)] + [Release(h)])
    ensures var v := After(w, [Begin(h), Leave(h)] + [Release(h)]);
            && v.db == w.db.Release(w.Of(h).id, h) && v.Of(h) == Idle
            && Performances(v.history) == Performances(w.history) + [w.Of(h).todo[0].key]
  {
    PerformOne(w, h);
    TwoSteps(w, Begin(h), Leave(h));
    LetGo(After(w, [Begin(h), Leave(h)]), h);
    Chain(w, [Begin(h), Leave(h)], [Release(h)]);
  }

  lemma Unrolled(h: Holder, todo: seq<Effect>, works: nat)
    requires todo != [] && works > 0
    ensures EffectSteps(h, |todo|, works) == [Begin(h), Done(h)] + EffectSteps(h, |todo| - 1, works - 1)
    ensures Tried(todo, works) == [todo[0].key] + Tried(todo[1..], works - 1)
  {
  }

  /** One effect that came off, and whatever `rest` does after it. */
  lemma PerformThen(w: World, h: Holder, p: Phase, rest: seq<Step>) returns (u: World)
    requires p.Performing? && p.todo != [] && w.Of(h) == p
    ensures u.db == w.db && u.Of(h) == Performing(p.id, p.job, p.todo[1..], p.deadline)
    ensures Performances(u.history) == Performances(w.history) + [p.todo[0].key]
    ensures Runs(u, rest) ==> Runs(w, [Begin(h), Done(h)] + rest) && After(w, [Begin(h), Done(h)] + rest) == After(u, rest)
  {
    PerformOne(w, h);
    TwoSteps(w, Begin(h), Done(h));
    u := Next(Next(w, Begin(h)), Done(h));
    if Runs(u, rest) {
      Chain(w, [Begin(h), Done(h)], rest);
    }
  }

  lemma {:induction false} PerformAll(w: World, h: Holder, id: JobId, job: Job, todo: seq<Effect>, deadline: Time, works: nat)
    requires w.Of(h) == Performing(id, job, todo, deadline)
    ensures Runs(w, EffectSteps(h, |todo|, works))
    ensures var v := After(w, EffectSteps(h, |todo|, works));
            v.db == w.db.Release(id, h) && v.Of(h) == Idle
            && Performances(v.history) == Performances(w.history) + Tried(todo, works)
    decreases |todo|, 1
  {
    hide Enabled, Next, Runs, After, Performances;
    if todo == [] {
      LeaveAndLetGo(w, h);
    } else if works == 0 {
      PerformFailing(w, h);
    } else {
      PerformMore(w, h, id, job, todo, deadline, works);
    }
  }

  lemma {:induction false} PerformMore(w: World, h: Holder, id: JobId, job: Job, todo: seq<Effect>, deadline: Time, works: nat)
    requires w.Of(h) == Performing(id, job, todo, deadline) && todo != [] && works > 0
    ensures Runs(w, EffectSteps(h, |todo|, works))
    ensures var v := After(w, EffectSteps(h, |todo|, works));
            v.db == w.db.Release(id, h) && v.Of(h) == Idle
            && Performances(v.history) == Performances(w.history) + Tried(todo, works)
    decreases |todo|, 0
  {
    hide Enabled, Next, Runs, After, Performances, EffectSteps, Tried;
    var rest, tried := EffectSteps(h, |todo| - 1, works - 1), Tried(todo[1..], works - 1);
    var u := PerformThen(w, h, w.Of(h), rest);
    assert |todo[1..]| == |todo| - 1;
    PerformAll(u, h, id, job, todo[1..], deadline, works - 1);
    Unrolled(h, todo, works);
    assert Performances(w.history) + [todo[0].key] + tried == Performances(w.history) + ([todo[0].key] + tried);
  }

  lemma TwoSteps(w: World, a: Step, b: Step)
    requires Enabled(w, a) && Enabled(Next(w, a), b)
    ensures Runs(w, [a, b]) && After(w, [a, b]) == Next(Next(w, a), b)
  {
    OneStep(w, a);
    OneStep(Next(w, a), b);
    Chain(w, [a], [b]);
    assert [a] + [b] == [a, b];
  }

  lemma OneStep(w: World, a: Step)
    requires Enabled(w, a)
    ensures Runs(w, [a]) && After(w, [a]) == Next(w, a)
  {
    assert [a][1..] == [];
  }

  function MoveScript(w: World, h: Holder, o: Outcome, works: nat): seq<Step>
    requires w.Of(h).Running?
  {
    var p := w.Of(h);
    var todo := Todo(w.db.keys, o.effects);
    [Decide(h, o)] + Times(Look(h), |o.effects|) + StampSteps(h, todo)
    + ([Apply(h)] + (if !(p.id in w.db.jobs && w.db.jobs[p.id].HeldBy(h)) then [Release(h)]
                     else if todo == [] then [] else EffectSteps(h, |todo|, works)))
  }

  function FailScript(w: World, h: Holder, retry: Option<Time>): seq<Step>
    requires w.Of(h).Running?
  {
    var p := w.Of(h);
    [Step.Fail(h, retry), Apply(h)] + (if w.db.CanCommit(FailCommit(p.id, h, p.job, retry)) then [] else [Release(h)])
  }

  /** The steps a lone run takes from the row it leased. */
  function Script(w: World, h: Holder, t: Runner.Transition, decided: Option<Outcome>, retry: Option<Time>, works: nat): seq<Step>
    requires w.Of(h).Running?
  {
    var p := w.Of(h);
    if p.job.kind != t.kind || p.job.state != t.from then [Leave(h)] + [Release(h)]
    else if decided.None? || !Runner.WellFormed(decided.value) then FailScript(w, h, retry)
    else MoveScript(w, h, decided.value, works)
  }

  /** What the runner assumes of a decision: its effects are the job's own and told apart by their keys. */
  ghost predicate Assumed(w: World, id: JobId, decided: Option<Outcome>) {
    decided.Some? ==> DistinctKeys(decided.value.effects) && forall e :: e in decided.value.effects ==> w.Owns(id, e)
  }

  lemma SoloFail(w: World, h: Holder, retry: Option<Time>)
    requires w.Of(h).Running? && w.Of(h).id in w.db.jobs
    ensures var p := w.Of(h); var steps := FailScript(w, h, retry);
            && Runs(w, steps) && After(w, steps).db == Runner.FailedRun(w.db, h, p.id, p.job, retry).db
            && After(w, steps).Of(h) == Idle && Performances(After(w, steps).history) == Performances(w.history)
  {
    var p := w.Of(h);
    var a := [Step.Fail(h, retry), Apply(h)];
    TwoSteps(w, Step.Fail(h, retry), Apply(h));
    var v := After(w, a);
    if w.db.CanCommit(FailCommit(p.id, h, p.job, retry)) {
      PerformancesAppend(w.history, Reserved(h, p.id, []));
      assert a + [] == a;
    } else {
      LetGo(v, h);
      Chain(w, a, [Release(h)]);
    }
  }

  lemma SoloFiltered(w: World, h: Holder, o: Outcome)
    requires w.Of(h).Running? && Runner.WellFormed(o) && Assumed(w, w.Of(h).id, Some(o))
    ensures var p := w.Of(h); var steps := [Decide(h, o)] + Times(Look(h), |o.effects|);
            && Runs(w, steps)
            && After(w, steps) == w.Moved(h, Filtering(p.id, p.job, o, |o.effects|, Todo(w.db.keys, o.effects)))
  {
    var p := w.Of(h);
    forall e | e in o.effects ensures !e.Malformed() {
      var i :| 0 <= i < |o.effects| && o.effects[i] == e;
    }
    OneStep(w, Decide(h, o));
    var v := Next(w, Decide(h, o));
    assert o.effects[..0] == [];
    LookAll(v, h, p.id, p.job, o, 0);
    Chain(w, [Decide(h, o)], Times(Look(h), |o.effects|));
    MovedAgain(w, h, v.Of(h), Filtering(p.id, p.job, o, |o.effects|, Todo(w.db.keys, o.effects)));
  }

  function StampSteps(h: Holder, todo: seq<Effect>): seq<Step> {
    if todo == [] then [Stamp(h)] else [StartTimer(h), Stamp(h)]
  }

  lemma SoloStamped(w: World, h: Holder, id: JobId, job: Job, o: Outcome, todo: seq<Effect>)
    requires w.Of(h) == Filtering(id, job, o, |o.effects|, todo)
    ensures var c := MoveCommit(id, h, job, o, todo, if todo == [] then None else Some(w.clock + w.ttl));
            && Runs(w, StampSteps(h, todo))
            && After(w, StampSteps(h, todo)) == w.Moved(h, Ready(id, job, c, todo, if todo == [] then w.clock else w.clock + w.ttl))
  {
    if todo == [] {
      OneStep(w, Stamp(h));
    } else {
      TwoSteps(w, StartTimer(h), Stamp(h));
      MovedAgain(w, h, Next(w, StartTimer(h)).Of(h), After(w, StampSteps(h, todo)).Of(h));
    }
  }

  /** From a decision to the commit it is ready to make. */
  lemma SoloReady(w: World, h: Holder, o: Outcome)
    requires w.Of(h).Running? && Runner.WellFormed(o) && Assumed(w, w.Of(h).id, Some(o))
    ensures var p := w.Of(h); var todo := Todo(w.db.keys, o.effects);
            var steps := [Decide(h, o)] + Times(Look(h), |o.effects|) + StampSteps(h, todo);
            var c := MoveCommit(p.id, h, p.job, o, todo, if todo == [] then None else Some(w.clock + w.ttl));
            && Runs(w, steps)
            && After(w, steps) == w.Moved(h, Ready(p.id, p.job, c, todo, if todo == [] then w.clock else w.clock + w.ttl))
  {
    var p := w.Of(h);
    var todo := Todo(w.db.keys, o.effects);
    SoloFiltered(w, h, o);
    var a := [Decide(h, o)] + Times(Look(h), |o.effects|);
    SoloStamped(After(w, a), h, p.id, p.job, o, todo);
    MovedAgain(w, h, After(w, a).Of(h), After(After(w, a), StampSteps(h, todo)).Of(h));
    Chain(w, a, StampSteps(h, todo));
  }

  /** The commit a holder is ready to make, and what follows it. */
  function CommitSteps(w: World, h: Holder, works: nat): seq<Step>
    requires w.Of(h).Ready?
  {
    var p := w.Of(h);
    [Apply(h)] + (if !w.db.CanCommit(p.commit) then [Release(h)] else if p.todo == [] then [] else EffectSteps(h, |p.todo|, works))
  }

  lemma SoloRefused(w: World, h: Holder)
    requires w.Of(h).Ready? && !w.db.CanCommit(w.Of(h).commit)
    ensures Runs(w, [Apply(h)] + [Release(h)])
    ensures var v := After(w, [Apply(h)] + [Release(h)]);
            v.db == w.db.Release(w.Of(h).id, h) && v.Of(h) == Idle && v.history == w.history
  {
    OneStep(w, Apply(h));
    LetGo(Next(w, Apply(h)), h);
    Chain(w, [Apply(h)], [Release(h)]);
  }

  lemma SoloApplied(w: World, h: Holder) returns (v: World)
    requires w.Of(h).Ready? && w.db.CanCommit(w.Of(h).commit)
    ensures Runs(w, [Apply(h)]) && After(w, [Apply(h)]) == v
    ensures var p := w.Of(h);
            && v.db == w.db.Committed(p.commit).value && v.Of(h) == Applied(p)
            && Performances(v.history) == Performances(w.history)
  {
    var p := w.Of(h);
    OneStep(w, Apply(h));
    v := Next(w, Apply(h));
    PerformancesAppend(w.history, Reserved(h, p.commit.job, p.commit.keys));
  }

  lemma SoloCommitted(w: World, h: Holder, works: nat)
    requires w.Of(h).Ready? && w.Of(h).commit.job == w.Of(h).id && (w.Of(h).commit.release <==> w.Of(h).todo == [])
    ensures Runs(w, CommitSteps(w, h, works))
    ensures var p := w.Of(h); var v := After(w, CommitSteps(w, h, works)); var after := w.db.Committed(p.commit);
            && v.Of(h) == Idle
            && v.db == (if after.Ok? then after.value.Release(p.id, h) else w.db.Release(p.id, h))
            && Performances(v.history) == Performances(w.history) + (if after.Ok? then Tried(p.todo, works) else [])
  {
    hide Enabled, Next, Runs, After, Performances;
    var p := w.Of(h);
    if !w.db.CanCommit(p.commit) {
      SoloRefused(w, h);
    } else {
      var v := SoloApplied(w, h);
      if p.todo == [] {
        assert [Apply(h)] + [] == [Apply(h)];
      } else {
        PerformAll(v, h, p.id, v.Of(h).job, p.todo, p.deadline, works);
        Chain(w, [Apply(h)], EffectSteps(h, |p.todo|, works));
      }
    }
  }

  lemma SoloMove(w: World, h: Holder, o: Outcome, works: nat)
    requires w.Of(h).Running? && w.Of(h).id in w.db.jobs && Runner.WellFormed(o) && Assumed(w, w.Of(h).id, Some(o))
    ensures Runs(w, MoveScript(w, h, o, works))
    ensures var p := w.Of(h); var todo := Todo(w.db.keys, o.effects);
            var c := MoveCommit(p.id, h, p.job, o, todo, if todo == [] then None else Some(w.clock + w.ttl));
            var after := w.db.Committed(c);
            var v := After(w, MoveScript(w, h, o, works));
            && v.Of(h) == Idle
            && v.db == (if after.Ok? then after.value.Release(p.id, h) else w.db.Release(p.id, h))
            && Performances(v.history) == Performances(w.history) +
                 (if after.Ok? then Tried(todo, works) else [])
  {
    var p := w.Of(h);
    var todo := Todo(w.db.keys, o.effects);
    var a := [Decide(h, o)] + Times(Look(h), |o.effects|) + StampSteps(h, todo);
    SoloReady(w, h, o);
    SoloCommitted(After(w, a), h, works);
    Chain(w, a, CommitSteps(After(w, a), h, works));
    assert MoveScript(w, h, o, works) == a + CommitSteps(After(w, a), h, works);
  }

  /** Left alone, a holder's steps in the machine leave what the runner's method leaves: the same database, and the
      same effects performed, but for the one that was begun and errored. */
  lemma SoloRunMatches(w: World, h: Holder, id: JobId, job: Job, t: Runner.Transition, decided: Option<Outcome>,
                       retry: Option<Time>, works: nat)
    requires w.Of(h) == Running(id, job) && id in w.db.jobs && Assumed(w, id, decided)
    ensures Runs(w, Script(w, h, t, decided, retry, works))
    ensures var v := After(w, Script(w, h, t, decided, retry, works));
            var report := Runner.Ran(w.db, h, t, id, job, decided, retry, w.clock + w.ttl, works);
            && v.db == report.db && v.Of(h) == Idle
            && Performances(w.history) + report.performed <= Performances(v.history)
            && |Performances(v.history)|
               == |Performances(w.history)| + |report.performed| + (if report.ending.EffectFailed? then 1 else 0)
  {
    hide Enabled, Next, Runs, After, Performances;
    if job.kind != t.kind || job.state != t.from {
      LeaveAndLetGo(w, h);
    } else if decided.None? || !Runner.WellFormed(decided.value) {
      SoloFail(w, h, retry);
    } else {
      SoloMove(w, h, decided.value, works);
      TriedHoldsPerformed(Todo(w.db.keys, decided.value.effects), works);
    }
  }

  lemma TriedHoldsPerformed(todo: seq<Effect>, works: nat)
    ensures var performed := KeysOf(todo[..Runner.Least(works, |todo|)]);
            performed <= Tried(todo, works) && |Tried(todo, works)| == |performed| + (if works < |todo| then 1 else 0)
  {
    TriedIsPrefix(todo, works);
  }
}
