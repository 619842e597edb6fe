/** The push of a revision: on top of the head the send-back was written against, leased on the head the agent last saw
    the branch at, and replayed onto what other people push meanwhile (internal/revise). The watch, the reply, the review
    and the hand-off that follow a push are one state, `Delivered`, which may send the work back in any of their ways. */
module Revise {
  import opened Base
  import Git
  import opened Correcting
  import opened Work

  type Commit = Git.Commit

  datatype State = Resting | Revising | Gating | Pushing | Pushed | Replaying | Delivered | HandingBack

  /** How far a revision has got, on top of `read`, the head the send-back was written against. */
  datatype Revision = Revision(work: Progress, read: Commit, replays: nat)

  /** A head the lease was pinned to, and whether a replay moved it there. */
  datatype Lease = Lease(at: Commit, replayed: bool)

  datatype Bounds = Bounds(gate: nat, replays: nat)

  datatype Write =
    | Clear
    | Fresh(at: Commit)            // a checkout of the send-back's head
    | Leave(ws: Checkout)          // what a session left in the workspace
    | Put(head: Commit)            // the work's branch checked out at a commit again
    | OnTop(head: Commit)          // the work replayed onto the lease, and checked out
    | Save(p: Revision)

  datatype Effect = Push(head: Commit, lease: Option<Commit>) | Other

  datatype Decision = Decision(writes: seq<Write>, to: State, effect: Option<Effect>)

  /** What the revision's later states do to it. */
  datatype Onward = Wait | Red | Begin | Break | Rest

  datatype Input = Input(
    finished: bool, left: Checkout, base: Commit,
    dirty: bool, passes: bool,
    from: nat, denied: bool, roundsLeft: bool, now: Time,
    unfinished: bool,                  // the description's edit, still to be made
    replay: Option<Commit>,            // the work put on top of the lease, or none for a conflict
    onward: Onward)

  datatype World = World(
    read: Commit, state: State, p: Option<Revision>, ws: Option<Checkout>,
    remote: Option<Commit>, effect: Option<Effect>,
    leases: seq<Lease>,                // every lease of this progress, in order
    onTop: bool)                       // no session has run since the work was last replayed

  /** The lease moves with the progress that is saved: by a replay when its count does. */
  function Leased(w: World, p: Revision): seq<Lease> {
    if p.work.pushed.None? then w.leases
    else if w.p.None? then [Lease(p.work.pushed.value, false)]
    else if w.p.value.work.pushed == p.work.pushed then w.leases
    else w.leases + [Lease(p.work.pushed.value, p.replays != w.p.value.replays)]
  }

  function Wrote(w: World, write: Write): World {
    match write
    case Clear => w.(p := None, ws := None, leases := [], onTop := false)
    case Fresh(at) => w.(ws := Some(Checkout(false, at)), onTop := false)
    case Leave(ws) => w.(ws := Some(ws), onTop := false)
    case Put(head) => w.(ws := Some(Checkout(false, head)), onTop := false)
    case OnTop(head) => w.(ws := Some(Checkout(false, head)), onTop := true)
    case Save(p) =>
      w.(p := Some(p), leases := Leased(w, p),
         onTop := w.onTop && w.p.Some? && w.p.value.work.pushed == p.work.pushed)
  }

  function Written(w: World, writes: seq<Write>): World
    decreases |writes|
  {
    if writes == [] then w else Written(Wrote(w, writes[0]), writes[1..])
  }

  lemma WrittenOne(w: World, a: Write)
    ensures Written(w, [a]) == Wrote(w, a)
  {
    assert [a][1..] == [];
    assert Written(Wrote(w, a), []) == Wrote(w, a);
  }

  // ---- The transitions ----

  function To(state: State): Decision {
    Decision([], state, None)
  }

  function Saving(p: Revision, to: State): Decision {
    Decision([Save(p)], to, None)
  }

  /** Returned to a human on the pull request, with everything of the work gone before the commit. */
  function HandBack(): Decision {
    Decision([Clear], HandingBack, Some(Other))
  }

  function StateOf(s: Step): State {
    match s
    case Session => Revising
    case PushBack => Pushing
    case _ => Delivered
  }

  /** The head the revision's commits stay on top of. */
  function KeptHead(p: Revision): Commit {
    if Running(p.work.correction) then p.work.correction.value.reviewed else p.read
  }

  function FailCorrection(w: World, p: Revision, i: Input): Decision
    requires Running(p.work.correction)
  {
    if w.ws.None? then HandBack()
    else
      var c := Correcting.Fail(p.work.correction.value, i.from);
      Decision([Put(c.reviewed), Save(p.(work := p.work.(correction := Some(c), failing := false)))], StateOf(Over(Some(c), p.work.pushed)), None)
  }

  function Stop(w: World, p: Revision, i: Input): Decision {
    if Running(p.work.correction) then FailCorrection(w, p, i) else HandBack()
  }

  predicate Usable(w: World) {
    w.p.Some? && w.ws.Some? && !w.ws.value.switched
  }

  function NewRevision(read: Commit, base: Commit): Revision {
    Revision(Progress(base, None, Some(read), 0, 0, false, 0, None, false, false, None), read, 0)
  }

  function Given(p: Revision): Revision {
    if Running(p.work.correction) then p.(work := p.work.(correction := Some(p.work.correction.value.(given := true)))) else p
  }

  ghost function Run(w: World, i: Input): Decision {
    if !Usable(w) && w.p.Some? && w.p.value.work.pushed != Some(w.read) then HandBack()
    else if !Usable(w) && (w.remote.None? || !Git.Ancestor(w.read, w.remote.value)) then Decision([Clear], HandingBack, Some(Other))
    else
      var start := if Usable(w) then [] else [Clear, Fresh(w.read), Save(NewRevision(w.read, i.base))];
      var p := if Usable(w) then w.p.value else NewRevision(w.read, i.base);
      Decision(start + [Leave(i.left), Save(if i.finished then Given(p) else p)], if i.finished then Gating else Revising, None)
  }

  ghost function RunGate(b: Bounds, w: World, i: Input): Decision {
    if w.p.None? || w.ws.None? then HandBack()
    else
      var p, ws := w.p.value, w.ws.value;
      if !Over(p.work.correction, p.work.pushed).Making? then To(StateOf(Over(p.work.correction, p.work.pushed)))
      else if !ws.switched && !Git.Ancestor(KeptHead(p), ws.head) then Stop(w, p, i)
      else
        var (gate, q) := Checked(p.work, ws, i.dirty, i.passes, b.gate);
        match gate
        case Passed => Saving(p.(work := q), Pushing)
        case Failing => Saving(p.(work := q), Revising)
        case _ => Stop(w, p.(work := q), i)
  }

  ghost function RunPush(w: World, i: Input): Decision {
    if w.p.None? || w.ws.None? then HandBack()
    else
      var p, head := w.p.value, w.ws.value.head;
      if Over(p.work.correction, p.work.pushed).Edit? then To(Delivered)
      else if !Git.Ancestor(KeptHead(p), head) then Stop(w, p, i)
      else if i.denied then Stop(w, p, i)
      else if !i.roundsLeft then Stop(w, p, i)
      else Decision([Save(p.(work := p.work.(head := Some(head))))], Pushed, Some(Push(head, p.work.pushed)))
  }

  /** The description's sensitive line, then on to the watch. */
  function Resensitize(writes: seq<Write>, i: Input): Decision {
    if i.unfinished then Decision(writes, Pushed, Some(Other)) else Decision(writes, Delivered, None)
  }

  function RunPushed(w: World, i: Input): Decision {
    if w.p.None? then HandBack()
    else
      var p := w.p.value;
      if p.work.pushed == p.work.head then Resensitize([], i)
      else
        var (landing, q) := Land(p.work, w.remote, i.now);
        match landing
        case Elsewhere => if w.remote.None? || p.work.correction.Some? then HandBack() else To(Replaying)
        case NotLanded => To(Pushing)
        case Landed => Resensitize([Save(p.(work := q))], i)
  }

  ghost function RunReplay(b: Bounds, w: World, i: Input): Decision {
    if w.p.None? || w.ws.None? || w.remote.None? then HandBack()
    else
      var p, at := w.p.value, w.remote.value;
      if p.work.head.Some? && p.work.head != p.work.pushed && Git.Ancestor(p.work.head.value, at) then
        Saving(p.(work := p.work.(pushed := p.work.head, pushedAt := i.now)), Pushed)
      else if p.work.pushed.None? || !Git.Ancestor(p.work.pushed.value, at) then HandBack()
      else if Some(at) != p.work.pushed && p.replays >= b.replays then HandBack()
      else
        var writes := if Some(at) != p.work.pushed then [Save(p.(work := p.work.(pushed := Some(at)), replays := p.replays + 1))] else [];
        match i.replay
        case None => Decision(writes + [Clear], HandingBack, Some(Other))
        case Some(head) => Decision(writes + [OnTop(head)], Gating, None)
  }

  function RunDelivered(w: World, i: Input): Decision {
    if w.p.None? then HandBack()
    else
      var p := w.p.value;
      match i.onward
      case Wait => To(Delivered)
      case Rest => Decision([Clear], Resting, None)
      case Red => if p.work.correction.None? || Running(p.work.correction) then Saving(p.(work := p.work.(attempts := 0, failing := true)), Revising) else To(Delivered)
      case Begin =>
        if p.work.correction.None? && p.work.pushed.Some? then
          Saving(p.(work := p.work.(correction := Some(Correction(p.work.pushed.value, false, false, 0)), attempts := 0, fixes := 0, fixedHead := None)), Revising)
        else To(Delivered)
      case Break => if Running(p.work.correction) then FailCorrection(w, p, i) else To(StateOf(Over(p.work.correction, p.work.pushed)))
  }

  ghost function Decide(b: Bounds, w: World, i: Input): Decision {
    match w.state
    case Resting => Decision([Clear], Revising, None)
    case Revising => Run(w, i)
    case Gating => RunGate(b, w, i)
    case Pushing => RunPush(w, i)
    case Pushed => RunPushed(w, i)
    case Replaying => RunReplay(b, w, i)
    case Delivered => RunDelivered(w, i)
    case HandingBack => Decision([Clear], Resting, None)
  }

  // ---- Runs ----

  datatype Event =
    | Transition(i: Input)
    | Killed(i: Input, n: nat)
    | Perform
    | Lose
    | Foreign(at: Option<Commit>)

  /** A replay puts the work on top of the head it was made onto, as Replay.ReplayIsOnTop proves. */
  ghost predicate Replayed(w: World, i: Input) {
    w.state.Replaying? && w.remote.Some? && i.replay.Some? ==> Git.Ancestor(w.remote.value, i.replay.value)
  }

  ghost predicate Enabled(b: Bounds, w: World, s: Event) {
    match s
    case Transition(i) => w.effect.None? && Replayed(w, i)
    case Killed(i, n) => w.effect.None? && Replayed(w, i) && n <= |Decide(b, w, i).writes|
    case Perform => w.effect.Some?
    case Lose => w.effect.Some?
    case Foreign(_) => true
  }

  function Performed(w: World, e: Effect): World {
    match e
    case Push(head, lease) => w.(remote := Git.Pushed(w.remote, head, lease), effect := None)
    case Other => w.(effect := None)
  }

  ghost function Next(b: Bounds, w: World, s: Event): World
    requires Enabled(b, w, s)
  {
    match s
    case Transition(i) => var d := Decide(b, w, i); Written(w, d.writes).(state := d.to, effect := d.effect)
    case Killed(i, n) => Written(w, Decide(b, w, i).writes[..n])
    case Perform => Performed(w, w.effect.value)
    case Lose => w.(effect := None)
    case Foreign(at) => w.(remote := at)
  }

  ghost predicate Init(w: World) {
    w.state.Resting? && w.p.None? && w.ws.None? && w.effect.None? && w.leases == [] && !w.onTop
  }

  ghost predicate Runs(b: Bounds, w: World, steps: seq<Event>)
    decreases |steps|
  {
    steps == [] || (Enabled(b, w, steps[0]) && Runs(b, Next(b, w, steps[0]), steps[1..]))
  }

  ghost function After(b: Bounds, w: World, steps: seq<Event>): World
    requires Runs(b, w, steps)
    decreases |steps|
  {
    if steps == [] then w else After(b, Next(b, w, steps[0]), steps[1..])
  }
}
