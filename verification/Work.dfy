/** The machinery of a workspace: the local gate and its attempts, the CI watch and its fixes, and the push read back
    (internal/work). */
module Work {
  import opened Base
  import Git
  import Correcting

  type Time = int

  /** How far a delivery has got: what is saved beside the workspace, and outlives a transition. */
  datatype Progress = Progress(
    base: Git.Commit,
    head: Option<Git.Commit>,        // the commit the push was decided for
    pushed: Option<Git.Commit>,      // the commit the agent last saw its push land at, and the next push's lease
    pushedAt: Time,
    attempts: nat,                   // how often the gate has failed in this convergence
    failing: bool,                   // what the gate or CI said the last time, waiting for the session
    fixes: nat,                      // how often CI sent the work back
    fixedHead: Option<Git.Commit>,   // the head the last of those was counted for
    cut: bool, cutting: bool,
    correction: Option<Correcting.Correction>)

  /** A checkout: whether it has left the work's branch, and the commit that branch is at. */
  datatype Checkout = Checkout(switched: bool, head: Git.Commit)

  // ---- The gate ----

  datatype Gate = Passed | Switched | Empty | Failing | Exhausted

  /** Where a fix's work is counted from: the agent's last push, or the base before there is one. */
  function Since(p: Progress): Git.Commit {
    if p.pushed.Some? then p.pushed.value else p.base
  }

  /** Whether the workspace has a commit the agent has not pushed. */
  ghost predicate Made(p: Progress, ws: Checkout) {
    !Git.Ancestor(ws.head, Since(p))
  }

  /** One check of the gate: uncommitted changes fail it unread, and a failure is counted. */
  ghost function Checked(p: Progress, ws: Checkout, dirty: bool, passes: bool, bound: nat): (Gate, Progress) {
    if ws.switched then (Switched, p)
    else if !Made(p, ws) then (Empty, p)
    else if !dirty && passes then (Passed, p.(failing := false))
    else (if p.attempts + 1 >= bound then Exhausted else Failing, p.(attempts := p.attempts + 1, failing := true))
  }

  /** What the gate says, and what it counts, answer by answer. */
  ghost predicate GateSays(was: Progress, switched: bool, made: bool, clean: bool, bound: nat, gate: Gate, now: Progress) {
    && (gate.Switched? <==> switched)
    && (gate.Empty? <==> !switched && !made)
    && (gate.Passed? <==> !switched && made && clean)
    && (gate.Failing? <==> !switched && made && !clean && was.attempts + 1 < bound)
    && (gate.Exhausted? <==> !switched && made && !clean && was.attempts + 1 >= bound)
    && now == if gate.Passed? then was.(failing := false)
              else if gate.Failing? || gate.Exhausted? then was.(attempts := was.attempts + 1, failing := true)
              else was
  }

  lemma CheckedSays(p: Progress, ws: Checkout, dirty: bool, passes: bool, bound: nat)
    ensures var (gate, q) := Checked(p, ws, dirty, passes, bound);
            GateSays(p, ws.switched, Made(p, ws), !dirty && passes, bound, gate, q)
  {
  }

  lemma GateIsSaid(p: Progress, switched: bool, made: bool, clean: bool, bound: nat, gate: Gate, q: Progress)
    requires GateSays(p, switched, made, clean, bound, gate, q)
    ensures gate.Passed? <==> !switched && made && clean
    ensures gate.Failing? <==> !switched && made && !clean && p.attempts + 1 < bound
    ensures q == if gate.Passed? then p.(failing := false)
                 else if !switched && made then p.(attempts := p.attempts + 1, failing := true) else p
  {
  }

  // ---- CI ----

  datatype CheckRun = CheckRun(name: string, completed: bool, conclusion: string)

  predicate Passing(r: CheckRun) {
    r.conclusion == "success" || r.conclusion == "neutral" || r.conclusion == "skipped"
  }

  const APPROVAL := "action_required"

  ghost predicate Failed(r: CheckRun) {
    r.completed && !Passing(r)
  }

  ghost predicate Present(name: string, runs: seq<CheckRun>) {
    exists r :: r in runs && r.name == name
  }

  /** Every run finished and passing, and one for every required check. */
  ghost predicate AllGreen(runs: seq<CheckRun>, required: seq<string>) {
    && runs != []
    && (forall r :: r in runs ==> r.completed && Passing(r))
    && (forall name :: name in required ==> Present(name, runs))
  }

  /** Every run finished, and one of them failed: a missing required check holds back green and never red. */
  ghost predicate SomeRed(runs: seq<CheckRun>) {
    && (forall r :: r in runs ==> r.completed)
    && (exists r :: r in runs && Failed(r))
  }

  ghost predicate WaitsForApproval(runs: seq<CheckRun>) {
    exists r :: r in runs && r.completed && r.conclusion == APPROVAL
  }

  datatype CI = Pending | Green | Red | Spent | Late | Approval | Moved

  /** What the watch makes of a head: of the branch at `at`, the runs on the head, and whether the ceiling is past. */
  ghost function Watched(p: Progress, at: Option<Git.Commit>, runs: seq<CheckRun>, required: seq<string>, late: bool, bound: nat): (CI, Progress) {
    if at != p.pushed then (Moved, p)
    else if AllGreen(runs, required) then (Green, p)
    else if !SomeRed(runs) then (if late then Late else Pending, p)
    else if WaitsForApproval(runs) then (Approval, p)
    else
      var counted := if p.fixedHead != p.pushed then p.(fixes := p.fixes + 1, fixedHead := p.pushed) else p;
      if counted.fixes > bound then (Spent, counted) else (Red, counted.(attempts := 0, failing := true))
  }

  /** Some run is not finished, or there is none, or all of them pass and a required check has none. */
  ghost predicate Unfinished(runs: seq<CheckRun>, required: seq<string>) {
    || runs == []
    || (exists r :: r in runs && !r.completed)
    || ((forall r :: r in runs ==> r.conclusion in {"success", "neutral", "skipped"}) && exists name :: name in required && forall r :: r in runs ==> r.name != name)
  }

  /** Every run is finished, and one of them did not pass. */
  ghost predicate FoundRed(runs: seq<CheckRun>) {
    && (forall r :: r in runs ==> r.completed)
    && (exists r :: r in runs && r.conclusion !in {"success", "neutral", "skipped"})
  }

  /** The fixes once a red run of the last push is counted, which one head is once. */
  function FixesWith(p: Progress): nat {
    p.fixes + if p.fixedHead == p.pushed then 0 else 1
  }

  /** What the watch says of the branch at `at`, and what it counts, answer by answer. */
  ghost predicate WatchSays(was: Progress, at: Option<Git.Commit>, runs: seq<CheckRun>, required: seq<string>, late: bool, bound: nat,
                            ci: CI, now: Progress) {
    && (ci.Moved? <==> at != was.pushed)
    && (ci.Green? <==>
          && at == was.pushed && runs != []
          && (forall r :: r in runs ==> r.completed && r.conclusion in {"success", "neutral", "skipped"})
          && (forall name :: name in required ==> exists r :: r in runs && r.name == name))
    && (ci.Pending? <==> at == was.pushed && Unfinished(runs, required) && !late)
    && (ci.Late? <==> at == was.pushed && Unfinished(runs, required) && late)
    && (ci.Approval? <==> at == was.pushed && FoundRed(runs) && exists r :: r in runs && r.conclusion == APPROVAL)
    && (ci.Red? <==>
          at == was.pushed && FoundRed(runs) && (forall r :: r in runs ==> r.conclusion != APPROVAL) && FixesWith(was) <= bound)
    && (ci.Spent? <==>
          at == was.pushed && FoundRed(runs) && (forall r :: r in runs ==> r.conclusion != APPROVAL) && FixesWith(was) > bound)
    && now == if ci.Red? then was.(fixes := FixesWith(was), fixedHead := was.pushed, attempts := 0, failing := true)
              else if ci.Spent? then was.(fixes := FixesWith(was), fixedHead := was.pushed)
              else was
  }

  lemma WatchedSays(p: Progress, at: Option<Git.Commit>, runs: seq<CheckRun>, required: seq<string>, late: bool, bound: nat)
    ensures var (ci, q) := Watched(p, at, runs, required, late, bound);
            WatchSays(p, at, runs, required, late, bound, ci, q)
  {
    RunsSay(runs, required);
    hide AllGreen, SomeRed, Unfinished, FoundRed;
  }

  lemma RunsSay(runs: seq<CheckRun>, required: seq<string>)
    ensures AllGreen(runs, required) <==>
              && runs != [] && (forall r :: r in runs ==> r.completed && r.conclusion in {"success", "neutral", "skipped"})
              && (forall name :: name in required ==> exists r :: r in runs && r.name == name)
    ensures SomeRed(runs) <==> FoundRed(runs)
    ensures Unfinished(runs, required) <==> !AllGreen(runs, required) && !SomeRed(runs)
    ensures !(AllGreen(runs, required) && SomeRed(runs))
    ensures FoundRed(runs) ==> (WaitsForApproval(runs) <==> exists r :: r in runs && r.conclusion == APPROVAL)
  {
    forall name ensures Present(name, runs) <==> exists r :: r in runs && r.name == name {}
    forall r | r in runs ensures Passing(r) <==> r.conclusion in {"success", "neutral", "skipped"} {}
  }

  /** Decided again over the same head - its commit lost to a kill - a red run is counted once. */
  lemma RedIsCountedOnce(p: Progress, at: Option<Git.Commit>, runs: seq<CheckRun>, required: seq<string>, late: bool, bound: nat,
                         laterRuns: seq<CheckRun>, laterLate: bool)
    requires Watched(p, at, runs, required, late, bound).0.Red? && p.fixes <= bound
    ensures var once := Watched(p, at, runs, required, late, bound).1;
            var (again, twice) := Watched(once, at, laterRuns, required, laterLate, bound);
            twice.fixes == once.fixes <= bound && !again.Spent?
  {
  }

  // ---- The push, read back ----

  datatype Landing = NotLanded | Landed | Elsewhere

  function Land(p: Progress, at: Option<Git.Commit>, now: Time): (Landing, Progress) {
    if at == p.head then (Landed, if p.pushed != at then p.(pushed := at, pushedAt := now) else p)
    else if at == p.pushed then (NotLanded, p)
    else (Elsewhere, p)
  }

  /** The progress of one job, as its transitions hold it in their hands and change it. */
  class Workspace {
    var p: Progress

    constructor (p: Progress)
      ensures this.p == p
    {
      this.p := p;
    }

    /** `made` is how many commits HEAD has since the last push, as git counts them: none exactly when HEAD is in the
        push's history. */
    method Check(ws: Checkout, made: nat, dirty: bool, passes: bool, bound: nat) returns (gate: Gate)
      requires made == 0 <==> !Made(p, ws)
      modifies this
      ensures (gate, p) == Checked(old(p), ws, dirty, passes, bound)
      ensures GateSays(old(p), ws.switched, made > 0, !dirty && passes, bound, gate, p)
    {
      if ws.switched {
        return Switched;
      }
      if made == 0 {
        return Empty;
      }
      if !dirty {
        if passes {
          p := p.(failing := false);
          return Passed;
        }
      }
      p := p.(failing := true);
      p := p.(attempts := p.attempts + 1);
      if p.attempts >= bound {
        return Exhausted;
      }
      gate := Failing;
    }

    /** The names of the required checks no run has, in order. */
    static method Absent(required: seq<string>, runs: seq<CheckRun>) returns (missing: seq<string>)
      ensures forall name :: name in missing <==> name in required && !Present(name, runs)
    {
      var present: set<string> := {};
      for i := 0 to |runs|
        invariant forall name :: name in present <==> Present(name, runs[..i])
      {
        present := present + {runs[i].name};
        PresentOneMore(runs, i);
      }
      assert runs[..|runs|] == runs;
      missing := [];
      for i := 0 to |required|
        invariant forall name :: name in missing <==> name in required[..i] && name !in present
      {
        if required[i] !in present {
          missing := missing + [required[i]];
        }
      }
      assert required[..|required|] == required;
    }

    method Watch(at: Option<Git.Commit>, runs: seq<CheckRun>, required: seq<string>, late: bool, bound: nat) returns (ci: CI)
      modifies this
      ensures (ci, p) == Watched(old(p), at, runs, required, late, bound)
      ensures WatchSays(old(p), at, runs, required, late, bound, ci, p)
    {
      hide WatchSays;
      WatchedSays(p, at, runs, required, late, bound);
      if at != p.pushed {
        return Moved;
      }
      var missing := Absent(required, runs);
      var failed, waiting := 0, 0;
      var finished := |runs| > 0;
      for i := 0 to |runs|
        invariant p == old(p)
        invariant finished <==> |runs| > 0 && forall j :: 0 <= j < i ==> runs[j].completed
        invariant failed > 0 <==> exists j :: 0 <= j < i && Failed(runs[j])
        invariant waiting > 0 <==> exists j :: 0 <= j < i && runs[j].completed && runs[j].conclusion == APPROVAL
      {
        if !runs[i].completed {
          finished := false;
        } else if runs[i].conclusion == APPROVAL {
          waiting := waiting + 1;
          failed := failed + 1;
        } else if !Passing(runs[i]) {
          failed := failed + 1;
        }
      }
      if failed == 0 && missing != [] {
        assert missing[0] in missing;
        finished := false;
      }
      if !finished {
        return if late then Late else Pending;
      }
      if failed == 0 {
        return Green;
      }
      if waiting > 0 {
        return Approval;
      }
      if p.fixedHead != p.pushed {
        p := p.(fixes := p.fixes + 1, fixedHead := p.pushed);
      }
      if p.fixes > bound {
        return Spent;
      }
      p := p.(attempts := 0, failing := true);
      ci := Red;
    }

    /** The push is on the branch exactly where the branch is at `p.head`: then that is the lease too, and CI's ceiling
        counts from the first time it was seen there. Anything else changes nothing: the branch still at the lease is a
        push to make again, and anywhere else is someone else's. */
    method ReadBack(at: Option<Git.Commit>, now: Time) returns (landing: Landing)
      modifies this
      ensures landing.Landed? <==> at == old(p).head
      ensures landing.NotLanded? <==> at != old(p).head && at == old(p).pushed
      ensures landing.Landed? ==> p.pushed == p.head == at && p == old(p).(pushed := p.pushed, pushedAt := p.pushedAt)
      ensures landing.Landed? ==> p.pushedAt == if old(p).pushed == at then old(p).pushedAt else now
      ensures !landing.Landed? ==> p == old(p)
    {
      if at == p.head {
        if p.pushed != at {
          p := p.(pushed := at, pushedAt := now);
        }
        return Landed;
      }
      landing := if at == p.pushed then NotLanded else Elsewhere;
    }
  }

  /** A push seen on the branch again, however much later - the move that followed it lost, or an edit still to be made -
      is landed still, and nothing of it is counted anew. And seen landed, it can be read as nothing else while the branch
      stays there. */
  lemma ALandingIsSeenOnce(p: Progress, at: Option<Git.Commit>, now: Time, later: Time)
    requires Land(p, at, now).0.Landed?
    ensures var once := Land(p, at, now).1;
            && Land(once, at, later) == (Landed, once)
            && once.pushed == once.head == p.head && once.pushedAt in {p.pushedAt, now}
            && Since(once) == if at.Some? then at.value else p.base
  {
  }

  lemma PresentOneMore(runs: seq<CheckRun>, i: nat)
    requires i < |runs|
    ensures forall name :: Present(name, runs[..i + 1]) <==> Present(name, runs[..i]) || runs[i].name == name
  {
    assert runs[..i + 1] == runs[..i] + [runs[i]];
    forall name ensures Present(name, runs[..i + 1]) <==> Present(name, runs[..i]) || runs[i].name == name {
      if Present(name, runs[..i]) {
        var r :| r in runs[..i] && r.name == name;
        assert r in runs[..i + 1];
      }
      assert runs[i] in runs[..i + 1];
    }
  }
}
