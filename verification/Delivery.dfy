/** The delivery of an implement job: its states, its progress file, its workspace and the branch it pushes to. Each
    transition is a list of writes to the state directory, then the commit of the next state, then an effect; a kill can
    fall after any write, before the commit, or between the commit and the effect. */
module Delivery {
  import opened Base
  import Git
  import opened Correcting
  import opened Work

  type Commit = Git.Commit

  datatype State =
    | Resting | Implementing | Deferred | Gating | Pushing | Opening | Watching | Reviewing | HandingOff | HandingBack

  /** How many times the gate may fail, and how many red runs go back to the session. */
  datatype Bounds = Bounds(gate: nat, fixes: nat)

  datatype Write =
    | DropWorkspace
    | DropProgress
    | Fresh(base: Commit)        // a new checkout, on a branch name the remote does not have
    | Leave(ws: Checkout)        // what a session left in the workspace
    | Restore(head: Commit)      // the work's branch checked out at a commit again
    | Save(p: Progress)

  datatype Effect = Push(head: Commit, lease: Option<Commit>) | Label | Other

  /** What a transition saw that the hand-off rests on. */
  datatype Fact = Green(head: Option<Commit>) | Reviewed(head: Option<Commit>) | Kept(at: Option<Commit>) | GateChecked

  datatype Decision = Decision(writes: seq<Write>, to: State, effect: Option<Effect>, facts: seq<Fact>)

  // ---- What a transition meets ----

  datatype SessionEnd = NoCandidate | Transient(defers: bool) | Finished
  datatype Keep = Whole | WholeAgain | CannotKeep
  datatype Review = Found(correctable: bool) | ReviewerHandedBack | NoneComing | Waiting

  datatype Input = Input(
    prOpen: bool,                  // the agent's pull request, as the tracker shows it
    now: Time,
    session: SessionEnd, left: Checkout, base: Commit,
    dirty: bool, passes: bool, gaps: bool,
    from: nat,                     // where a failed correction's push back counts its rounds from
    denied: bool, oversize: bool, keep: Keep, roundsLeft: bool,
    unfinished: bool,              // an edit, a pull request or a first piece's rest still to be made
    tooBig: bool,
    runs: seq<CheckRun>, required: seq<string>, late: bool,
    review: Review, labelled: bool, settled: bool)

  /** One job, what the remote holds of it, and what a run of it has seen and done so far. */
  datatype World = World(
    state: State, p: Option<Progress>, ws: Option<Checkout>,
    remote: Option<Commit>,        // the work's branch, or none
    effect: Option<Effect>,        // committed, and neither made nor lost yet
    green: set<Commit>,            // heads CI was seen green on
    reviewed: set<Commit>,         // heads whose advisory review was seen
    kept: Option<Commit>,          // where the branch was when it was last read before a hand-off
    decided: set<Commit>,          // commits the agent decided to push to this branch
    foreign: bool,                 // someone else changed this branch
    begun: nat,                    // corrections begun in this progress
    made: nat,                     // progress files begun
    checks: nat,                   // gate checks
    killed: bool)

  function Wrote(w: World, write: Write): World {
    match write
    case DropWorkspace => w.(ws := None)
    case DropProgress => w.(p := None)
    case Fresh(base) => w.(ws := Some(Checkout(false, base)), remote := None, decided := {}, foreign := false)
    case Leave(ws) => w.(ws := Some(ws))
    case Restore(head) => w.(ws := Some(Checkout(false, head)))
    case Save(p) =>
      w.(p := Some(p),
         decided := w.decided + (if p.head.Some? then {p.head.value} else {}),
         begun := if w.p.None? then (if p.correction.Some? then 1 else 0)
                  else if w.p.value.correction.None? && p.correction.Some? then w.begun + 1 else w.begun,
         made := if w.p.None? then w.made + 1 else w.made)
  }

  function Written(w: World, writes: seq<Write>): World
    decreases |writes|
  {
    if writes == [] then w else Written(Wrote(w, writes[0]), writes[1..])
  }

  function Saw(w: World, fact: Fact): World {
    match fact
    case Green(head) => if head.Some? then w.(green := w.green + {head.value}) else w
    case Reviewed(head) => if head.Some? then w.(reviewed := w.reviewed + {head.value}) else w
    case Kept(at) => w.(kept := at)
    case GateChecked => w.(checks := w.checks + 1)
  }

  function SawAll(w: World, facts: seq<Fact>): World
    decreases |facts|
  {
    if facts == [] then w else SawAll(Saw(w, facts[0]), facts[1..])
  }

  /** What a decision leaves behind. */
  function Decided(w: World, d: Decision): World {
    Written(SawAll(w, d.facts), d.writes).(state := d.to, effect := d.effect)
  }

  lemma WrittenOne(w: World, a: Write)
    ensures Written(w, [a]) == Wrote(w, a)
  {
    assert [a][1..] == [];
    assert Written(Wrote(w, a), []) == Wrote(w, a);
  }

  lemma WrittenTwo(w: World, a: Write, b: Write)
    ensures Written(w, [a, b]) == Wrote(Wrote(w, a), b)
  {
    assert [a, b][1..] == [b];
    WrittenOne(Wrote(w, a), b);
  }

  lemma SawOne(w: World, a: Fact)
    ensures SawAll(w, [a]) == Saw(w, a)
  {
    assert [a][1..] == [];
    assert SawAll(Saw(w, a), []) == Saw(w, a);
  }

  lemma SawTwo(w: World, a: Fact, b: Fact)
    ensures SawAll(w, [a, b]) == Saw(Saw(w, a), b)
  {
    assert [a, b][1..] == [b];
    SawOne(Saw(w, a), b);
  }

  lemma {:induction false} WrittenBoth(w: World, xs: seq<Write>, ys: seq<Write>)
    ensures Written(w, xs + ys) == Written(Written(w, xs), ys)
    decreases |xs|
  {
    if xs == [] {
      assert xs + ys == ys;
    } else {
      assert (xs + ys)[1..] == xs[1..] + ys;
      WrittenBoth(Wrote(w, xs[0]), xs[1..], ys);
    }
  }

  // ---- The transitions ----

  function To(state: State): Decision {
    Decision([], state, None, [])
  }

  function Saving(p: Progress, to: State): Decision {
    Decision([Save(p)], to, None, [])
  }

  function Cleared(to: State, effect: Option<Effect>): Decision {
    Decision([DropWorkspace, DropProgress], to, effect, [])
  }

  /** The hand-back on the pull request: everything of the work goes before the commit. */
  function HandBackPR(): Decision {
    Cleared(HandingBack, Some(Other))
  }

  /** The hand-back on the issue: the progress stays until it is on the tracker. */
  function HandBackIssue(): Decision {
    Decision([DropWorkspace], HandingBack, Some(Other), [])
  }

  function HandBack(p: Progress, i: Input): Decision {
    if p.pushed.None? then HandBackIssue()
    else if i.prOpen then HandBackPR()
    else Cleared(Resting, None)
  }

  /** Work past its push whose record is gone. */
  function Lost(i: Input): Decision {
    if i.prOpen then HandBackPR() else Cleared(Resting, None)
  }

  /** The state a correction's step goes on in. */
  function StateOf(s: Correcting.Step): State {
    match s
    case Session => Implementing
    case PushBack => Pushing
    case _ => Reviewing
  }

  function AsFailed(p: Progress, from: nat): Progress
    requires Running(p.correction)
  {
    p.(correction := Some(Fail(p.correction.value, from)), failing := false)
  }

  /** A correction that cannot be finished: the workspace back at the head the review read, the correction saved as
      failed, and on to where that leaves the job. */
  function FailCorrection(w: World, p: Progress, i: Input): Decision
    requires Running(p.correction)
  {
    if w.ws.None? then Lost(i)
    else
      var q := AsFailed(p, i.from);
      Decision([Restore(p.correction.value.reviewed), Save(q)], StateOf(Over(q.correction, q.pushed)), None, [])
  }

  /** The work stopped by something it did. */
  function Stop(w: World, p: Progress, i: Input): Decision {
    if Running(p.correction) then FailCorrection(w, p, i) else HandBack(p, i)
  }

  function NewProgress(base: Commit): Progress {
    Progress(base, None, None, 0, 0, false, 0, None, false, false, None)
  }

  predicate Usable(w: World) {
    w.p.Some? && w.ws.Some? && !w.ws.value.switched
  }

  function Given(p: Progress): Progress {
    p.(cutting := false,
       correction := if Running(p.correction) then Some(p.correction.value.(given := true)) else p.correction)
  }

  function Run(w: World, i: Input): Decision {
    if i.session.NoCandidate? then To(Deferred)
    else if !Usable(w) && (if w.p.Some? then w.p.value.pushed.Some? else i.prOpen) then Lost(i)
    else
      var start := if Usable(w) then [] else [DropWorkspace, DropProgress, Fresh(i.base), Save(NewProgress(i.base))];
      var p := if Usable(w) then w.p.value else NewProgress(i.base);
      if i.session.Transient? then
        Decision(start + [Leave(i.left), Save(p)], if i.session.defers then Deferred else Implementing, None, [])
      else
        Decision(start + [Leave(i.left), Save(Given(p))], Gating, None, [])
  }

  function AfterGate(w: World, gate: Gate, q: Progress, i: Input): Decision {
    match gate
    case Passed => Saving(q, Pushing)
    case Failing => Saving(q, Implementing)
    case Empty => if !Running(q.correction) && q.pushed.None? && i.gaps then HandBackIssue() else Stop(w, q, i)
    case _ => Stop(w, q, i)
  }

  ghost function RunGate(b: Bounds, w: World, i: Input): Decision {
    if w.p.None? || w.ws.None? then Cleared(Implementing, None)
    else
      var p, ws := w.p.value, w.ws.value;
      if !Over(p.correction, p.pushed).Making? then To(StateOf(Over(p.correction, p.pushed)))
      else if Running(p.correction) && !ws.switched && !Git.Ancestor(p.correction.value.reviewed, ws.head) then Stop(w, p, i)
      else
        var (gate, q) := Checked(p, ws, i.dirty, i.passes, b.gate);
        AfterGate(w, gate, q, i).(facts := [GateChecked])
  }

  ghost function RunPush(w: World, i: Input): Decision {
    if w.p.None? || w.ws.None? then Cleared(Implementing, None)
    else
      var p, head := w.p.value, w.ws.value.head;
      if p.cutting then To(Implementing)
      else if Over(p.correction, p.pushed).Edit? then To(Reviewing)
      else if Running(p.correction) && !Git.Ancestor(p.correction.value.reviewed, head) then Stop(w, p, i)
      else if i.denied then Stop(w, p, i)
      else if i.oversize && !p.cut && p.pushed.None? && !i.keep.CannotKeep? then
        if i.keep.Whole? then Saving(p.(cut := true, cutting := true, attempts := 0), Implementing)
        else Decision([], Pushing, Some(Other), [])
      else if !i.roundsLeft then Stop(w, p, i)
      else Decision([Save(p.(head := Some(head)))], Opening, Some(Push(head, p.pushed)), [])
  }

  function RunOpen(w: World, i: Input): Decision {
    if w.p.None? then (if i.prOpen then To(Watching) else Cleared(Implementing, None))
    else
      var p := w.p.value;
      var (landing, q) := Land(p, w.remote, i.now);
      match landing
      case Elsewhere => HandBack(p, i)
      case NotLanded => To(Pushing)
      case Landed =>
        if i.prOpen then Decision([Save(q)], if i.unfinished then Opening else Watching, if i.unfinished then Some(Other) else None, [])
        else if i.tooBig || !i.roundsLeft then Decision([Save(q), DropWorkspace], HandingBack, Some(Other), [])
        else Decision([Save(q)], Opening, Some(Other), [])
  }

  ghost function RunWatch(b: Bounds, w: World, i: Input): Decision {
    if w.p.None? then Lost(i)
    else if !i.prOpen then Cleared(Resting, None)
    else
      var p := w.p.value;
      if !Over(p.correction, p.pushed).Making? then To(StateOf(Over(p.correction, p.pushed)))
      else
        var (ci, q) := Watched(p, w.remote, i.runs, i.required, i.late, b.fixes);
        match ci
        case Pending => To(Watching)
        case Green => To(Reviewing).(facts := [Fact.Green(p.pushed)])
        case Red => Saving(q, Implementing)
        case Moved => HandBackPR()
        case _ => if Running(p.correction) then FailCorrection(w, q, i) else HandBackPR()
  }

  function Begin(p: Progress): Progress
    requires p.pushed.Some?
  {
    p.(correction := Some(Correction(p.pushed.value, false, false, 0)),
       attempts := 0, fixes := 0, fixedHead := None, failing := false)
  }

  function RunReview(w: World, i: Input): Decision {
    if w.p.None? then Lost(i)
    else if !i.prOpen then Cleared(Resting, None)
    else
      var p := w.p.value;
      if p.correction.Some? then
        var s := Correcting.Next(p.correction, p.pushed);
        if !s.Edit? then To(StateOf(s))
        else if w.remote != p.pushed then HandBackPR()
        else if i.unfinished then Decision([], Reviewing, Some(Other), [Kept(w.remote)])
        else To(HandingOff).(facts := [Kept(w.remote)])
      else if w.remote != p.pushed then HandBackPR()
      else match i.review
        case Found(correctable) =>
          if correctable && p.pushed.Some? then Saving(Begin(p), Implementing).(facts := [Kept(w.remote), Reviewed(p.pushed)])
          else To(HandingOff).(facts := [Kept(w.remote), Reviewed(p.pushed)])
        case ReviewerHandedBack => Cleared(Resting, None)
        case NoneComing => HandBackPR()
        case Waiting => Decision([], Reviewing, Some(Other), [Kept(w.remote)])
  }

  function RunHandOff(w: World, i: Input): Decision {
    if w.p.None? then Lost(i)
    else if !i.prOpen then Cleared(Resting, None)
    else if i.labelled then Cleared(Resting, None)
    else if !i.roundsLeft then HandBackPR()
    else Decision([], HandingOff, Some(Label), [])
  }

  ghost function Decide(b: Bounds, w: World, i: Input): Decision {
    match w.state
    case Resting => if i.prOpen then To(Resting) else Cleared(Implementing, None)
    case Implementing => Run(w, i)
    case Deferred => To(Implementing)
    case Gating => RunGate(b, w, i)
    case Pushing => RunPush(w, i)
    case Opening => RunOpen(w, i)
    case Watching => RunWatch(b, w, i)
    case Reviewing => RunReview(w, i)
    case HandingOff => RunHandOff(w, i)
    case HandingBack => Cleared(if i.settled then Resting else HandingBack, if i.settled then None else Some(Other))
  }

  // ---- Runs ----

  datatype Event =
    | Transition(i: Input)            // decided, written and committed
    | Killed(i: Input, n: nat)        // killed, or failed, after the first n writes and before the commit
    | Perform                         // the committed effect is made
    | Lose                            // the committed effect is lost: killed, or it errored
    | Foreign(at: Option<Commit>)     // someone else pushes to the branch, or deletes it

  ghost predicate Enabled(b: Bounds, w: World, s: Event) {
    match s
    case Transition(_) => w.effect.None?
    case Killed(i, n) => w.effect.None? && n <= |Decide(b, w, i).writes|
    case Perform => w.effect.Some?
    case Lose => w.effect.Some?
    case Foreign(_) => true
  }

  function Made(w: World, e: Effect): World {
    match e
    case Push(head, lease) => w.(remote := Git.Pushed(w.remote, head, lease), effect := None)
    case _ => w.(effect := None)
  }

  ghost function Next(b: Bounds, w: World, s: Event): World
    requires Enabled(b, w, s)
  {
    match s
    case Transition(i) =>
      var d := Decide(b, w, i);
      Written(SawAll(w, d.facts), d.writes).(state := d.to, effect := d.effect)
    case Killed(i, n) =>
      var d := Decide(b, w, i);
      Written(SawAll(w, d.facts), d.writes[..n]).(killed := true)
    case Perform => Made(w, w.effect.value)
    case Lose => w.(effect := None)
    case Foreign(at) => w.(remote := at, foreign := true)
  }

  /** A job nobody has claimed yet. */
  ghost predicate Init(w: World) {
    && w.state == Resting && w.p.None? && w.ws.None? && w.effect.None?
    && w.begun == 0 && w.made == 0 && w.checks == 0 && !w.killed
  }

  ghost predicate Runs(b: Bounds, w: World, steps: seq<Event>)
    decreases |steps|
  {
    steps == [] || (Enabled(b, w, steps[0]) && Runs(b, Next(b, w, steps[0]), steps[1..]))
  }

  ghost function After(b: Bounds, w: World, steps: seq<Event>): World
    requires Runs(b, w, steps)
    decreases |steps|
  {
    if steps == [] then w else After(b, Next(b, w, steps[0]), steps[1..])
  }
}
