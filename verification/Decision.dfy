/** What a transition decides, and the commits the runner, the dispatcher and the armer make of it. Shared by the
    runner's own code (Runner) and by the machine of many holders (Protocol), so that both write the same rows. */
module Decision {
  import opened Base
  import opened Store

  type Marker = string

  /** What an effect does: nothing at all is malformed, saying a marker is a comment read back before it is posted. */
  datatype Act = Nothing | Say(marker: Marker) | Outward

  datatype Effect = Effect(key: Key, act: Act) {
    predicate Malformed() {
      key == "" || act == Nothing
    }
  }

  datatype Outcome = Outcome(state: State, runAt: Option<Time>, effects: seq<Effect>)

  function KeysOf(effects: seq<Effect>): (keys: seq<Key>)
    ensures |keys| == |effects| && forall i :: 0 <= i < |keys| ==> keys[i] == effects[i].key
  {
    seq(|effects|, i requires 0 <= i < |effects| => effects[i].key)
  }

  /** The effects whose key is not reserved yet, in order. */
  function Todo(keys: map<Key, JobId>, effects: seq<Effect>): seq<Effect> {
    if effects == [] then []
    else
      var last := |effects| - 1;
      Todo(keys, effects[..last]) + (if effects[last].key in keys then [] else [effects[last]])
  }

  /** The keys of the effects a previous run had reserved, in order. */
  function Skipped(keys: map<Key, JobId>, effects: seq<Effect>): seq<Key> {
    if effects == [] then []
    else
      var last := |effects| - 1;
      Skipped(keys, effects[..last]) + (if effects[last].key in keys then [effects[last].key] else [])
  }

  /** The commit of a decision. A stay keeps the attempts and counts a stay; a move starts both counts again. */
  function MoveCommit(id: JobId, holder: Holder, job: Job, o: Outcome, todo: seq<Effect>, leaseUntil: Option<Time>): Commit {
    var stay := o.state == job.state;
    Commit(id, holder, o.state, if stay then job.attempts else 0, if stay then job.stays + 1 else 0, o.runAt,
           KeysOf(todo), todo == [], leaseUntil)
  }

  /** The commit of a run that returned an error: one more attempt, and nothing else of the job. */
  function FailCommit(id: JobId, holder: Holder, job: Job, runAt: Option<Time>): Commit {
    Commit(id, holder, job.state, job.attempts + 1, job.stays, runAt, [], true, None)
  }

  /** The dispatcher's: when the job is next due, and nothing else of it. No time is a park. */
  function RescheduleCommit(id: JobId, holder: Holder, job: Job, at: Option<Time>): Commit {
    Commit(id, holder, job.state, job.attempts, job.stays, at, [], true, None)
  }

  /** The armer's: the job due now, in `start`, with both counts cleared. */
  function ArmCommit(id: JobId, holder: Holder, start: State, now: Time, keys: seq<Key>): Commit {
    Commit(id, holder, start, 0, 0, Some(now), keys, true, None)
  }

  /** A run's effects are told apart by their keys. */
  ghost predicate DistinctKeys(effects: seq<Effect>) {
    forall i, j :: 0 <= i < j < |effects| ==> effects[i].key != effects[j].key
  }

  lemma TodoOneMore(keys: map<Key, JobId>, front: seq<Effect>, e: Effect)
    ensures Todo(keys, front + [e]) == Todo(keys, front) + (if e.key in keys then [] else [e])
    ensures Skipped(keys, front + [e]) == Skipped(keys, front) + (if e.key in keys then [e.key] else [])
  {
    assert (front + [e])[..|front|] == front;
  }

  lemma TodoOfOne(keys: map<Key, JobId>, e: Effect)
    ensures Todo(keys, []) == [] && Skipped(keys, []) == []
    ensures Todo(keys, [e]) == (if e.key in keys then [] else [e]) && Skipped(keys, [e]) == (if e.key in keys then [e.key] else [])
  {
    TodoOneMore(keys, [], e);
    assert [] + [e] == [e];
  }

  /** In order, one after another: what is left of two lists is what is left of each. */
  lemma {:induction false} TodoInOrder(keys: map<Key, JobId>, front: seq<Effect>, more: seq<Effect>)
    ensures Todo(keys, front + more) == Todo(keys, front) + Todo(keys, more)
    ensures Skipped(keys, front + more) == Skipped(keys, front) + Skipped(keys, more)
    decreases |more|
  {
    hide Todo, Skipped;
    if more == [] {
      assert front + more == front;
      TodoOfOne(keys, Effect("", Nothing));
    } else {
      var last := |more| - 1;
      TodoInOrder(keys, front, more[..last]);
      TodoOneMore(keys, front + more[..last], more[last]);
      TodoOneMore(keys, more[..last], more[last]);
      assert front + more == front + more[..last] + [more[last]] && more == more[..last] + [more[last]];
    }
  }

  /** What the filter leaves is what has an unreserved key. */
  lemma {:induction false} TodoAre(keys: map<Key, JobId>, effects: seq<Effect>)
    ensures forall e :: e in Todo(keys, effects) <==> e in effects && e.key !in keys
    ensures |Todo(keys, effects)| + |Skipped(keys, effects)| == |effects|
  {
    if effects != [] {
      var front, e := effects[..|effects| - 1], effects[|effects| - 1];
      assert effects == front + [e];
      TodoOneMore(keys, front, e);
      hide Todo, Skipped;
      TodoAre(keys, front);
    }
  }

  /** No unreserved key is asked for twice. */
  ghost predicate AskedOnce(keys: map<Key, JobId>, effects: seq<Effect>) {
    forall i, j :: 0 <= i < j < |effects| && effects[i].key == effects[j].key ==> effects[i].key in keys
  }

  ghost predicate HasKey(effects: seq<Effect>, k: Key) {
    exists i :: 0 <= i < |effects| && effects[i].key == k
  }

  lemma AskedOneMore(keys: map<Key, JobId>, front: seq<Effect>, e: Effect)
    ensures AskedOnce(keys, front + [e]) <==> AskedOnce(keys, front) && (e.key in keys || !HasKey(front, e.key))
  {
    var all := front + [e];
    assert forall i :: 0 <= i < |front| ==> all[i] == front[i];
    if HasKey(front, e.key) {
      var i :| 0 <= i < |front| && front[i].key == e.key;
      assert all[i].key == all[|front|].key;
    }
  }

  lemma DistinctOneMore(front: seq<Effect>, e: Effect)
    ensures DistinctKeys(front + [e]) <==> DistinctKeys(front) && !HasKey(front, e.key)
  {
    AskedOneMore(map[], front, e);
    assert forall all :: AskedOnce(map[], all) <==> DistinctKeys(all);
  }

  /** The filter reads each key before the commit reserves any: what it leaves repeats a key exactly if the decision did. */
  lemma {:induction false} TodoRepeatsWhatWasAsked(keys: map<Key, JobId>, effects: seq<Effect>)
    ensures DistinctKeys(Todo(keys, effects)) <==> AskedOnce(keys, effects)
  {
    if effects != [] {
      var last := |effects| - 1;
      var front, e := effects[..last], effects[last];
      TodoRepeatsWhatWasAsked(keys, front);
      assert effects == front + [e];
      AskedOneMore(keys, front, e);
      assert Todo(keys, effects) == if e.key in keys then Todo(keys, front) else Todo(keys, front) + [e];
      if e.key !in keys {
        KeyAmong(keys, front, e.key);
        DistinctOneMore(Todo(keys, front), e);
      }
    }
  }

  lemma KeyAmong(keys: map<Key, JobId>, effects: seq<Effect>, k: Key)
    requires k !in keys
    ensures HasKey(effects, k) <==> HasKey(Todo(keys, effects), k)
  {
    TodoAre(keys, effects);
    var todo := Todo(keys, effects);
    if i :| 0 <= i < |effects| && effects[i].key == k {
      assert effects[i] in todo;
    }
    if i :| 0 <= i < |todo| && todo[i].key == k {
      assert todo[i] in effects;
    }
  }

  /** The filter keeps exactly the effects with an unreserved key, each of the others is reported, and keys told apart
      stay so. */
  lemma TodoKeepsUnreserved(keys: map<Key, JobId>, effects: seq<Effect>)
    ensures forall e :: e in Todo(keys, effects) <==> e in effects && e.key !in keys
    ensures DistinctKeys(effects) ==> DistinctKeys(Todo(keys, effects))
    ensures |Todo(keys, effects)| + |Skipped(keys, effects)| == |effects|
  {
    TodoAre(keys, effects);
    TodoRepeatsWhatWasAsked(keys, effects);
  }
}
