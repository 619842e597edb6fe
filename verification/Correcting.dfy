/** The one correction of a delivery: where it sends the job, in the states where it begins and ends and in those it may
    fail in (internal/correction/correction.go). */
module Correcting {
  import opened Base
  import Git
  import opened Store
  import opened Round

  /** A correction under way, or done with. `from` is where the rounds of a push back count from. */
  datatype Correction = Correction(reviewed: Git.Commit, given: bool, failed: bool, from: nat)

  datatype Step = Making | Session | PushBack | Edit

  predicate Running(c: Option<Correction>) {
    c.Some? && !c.value.failed
  }

  /** In the state that awaits the review. */
  function Next(c: Option<Correction>, pushed: Option<Git.Commit>): Step {
    if c.None? then Making
    else if !Running(c) then Over(c, pushed)
    else if pushed == Some(c.value.reviewed) then Session
    else Edit
  }

  /** In any state a correction may fail in, met again once it has. */
  function Over(c: Option<Correction>, pushed: Option<Git.Commit>): Step {
    if c.None? || Running(c) then Making
    else if pushed != Some(c.value.reviewed) then PushBack
    else Edit
  }

  /** The correction failed, with the rounds of its push back counted from `from`. */
  function Fail(c: Correction, from: nat): Correction {
    c.(failed := true, from := from)
  }

  /** Where the rounds of a push of `head` count from. */
  function PushFrom(c: Option<Correction>, head: Git.Commit): nat {
    if c.None? || Running(c) || head != c.value.reviewed then 0 else c.value.from
  }

  /** A failed correction's push back always has rounds left: they count from the first its head's earlier pushes did not
      reserve, as Round.Next finds it. Any other push counts from the start, whatever those pushes reserved. */
  lemma APushBackHasRounds(keys: map<Key, JobId>, stem: Stem, c: Correction, from: nat, head: Git.Commit, limit: nat)
    requires !c.failed && limit >= 1
    requires RoundKey(stem, from) !in keys && ReservedUpTo(keys, stem, 0, from)
    ensures Free(keys, stem, PushFrom(Some(Fail(c, from)), c.reviewed), limit) == Some(from)
    ensures head != c.reviewed ==> PushFrom(Some(Fail(c, from)), head) == 0
    ensures limit <= from ==> Free(keys, stem, PushFrom(Some(c), c.reviewed), limit) == None
  {
    if limit <= from {
      assert forall j :: 0 <= j < limit ==> RoundKey(stem, j) in keys;
    }
  }
}
