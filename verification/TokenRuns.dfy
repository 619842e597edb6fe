/** Any number of workers taking tokens from one pool, each in name order and one at a time: no state they reach is a
    deadlock, and what the pool counts is what they hold. */
module TokenRuns {
  import opened Base
  import opened Order
  import opened Tokens

  datatype Phase = Idle | Taking | Running | GivingBack

  /** A worker holds the first `got` of the names it wants. */
  datatype Worker = Worker(phase: Phase, want: seq<Token>, got: nat)

  /** `checked` is whether the registry refuses a transition that declares a name twice, as it does. */
  datatype World = World(capacity: map<Token, nat>, permits: map<Token, nat>, workers: seq<Worker>, checked: bool)

  datatype Step =
    | Ask(i: nat, names: seq<Token>)   // a transition's tokens, sorted
    | Take(i: nat)                     // the next permit, once it is free
    | GiveUp(i: nat)                   // the wait ran out
    | Begin(i: nat)                    // every permit is held
    | Finish(i: nat)
    | Return(i: nat)                   // one permit given back

  /** What a transition may declare: known names and, where that is checked, none of them twice. */
  ghost predicate Declarable(w: World, names: seq<Token>) {
    (w.checked ==> Distinct(names)) && forall t :: t in names ==> t in w.capacity
  }

  predicate InPhase(w: World, i: nat, phase: Phase) {
    i < |w.workers| && w.workers[i].phase == phase
  }

  predicate NextIsFree(w: World, i: nat)
    requires i < |w.workers|
  {
    var u := w.workers[i];
    u.got < |u.want| && u.want[u.got] in w.permits && u.want[u.got] in w.capacity && w.permits[u.want[u.got]] < w.capacity[u.want[u.got]]
  }

  /** What a worker holds is there to give back. */
  predicate LastIsTaken(w: World, u: Worker) {
    u.got <= |u.want| && (u.got > 0 ==> u.want[u.got - 1] in w.permits && w.permits[u.want[u.got - 1]] > 0)
  }

  ghost predicate Enabled(w: World, s: Step) {
    match s
    case Ask(i, names) => InPhase(w, i, Idle) && Declarable(w, names)
    case Take(i) => InPhase(w, i, Taking) && NextIsFree(w, i)
    case GiveUp(i) => InPhase(w, i, Taking) && w.workers[i].got < |w.workers[i].want|
    case Begin(i) => InPhase(w, i, Taking) && w.workers[i].got == |w.workers[i].want|
    case Finish(i) => InPhase(w, i, Running)
    case Return(i) => InPhase(w, i, GivingBack) && LastIsTaken(w, w.workers[i])
  }

  function With(w: World, i: nat, u: Worker): World
    requires i < |w.workers|
  {
    w.(workers := w.workers[i := u])
  }

  ghost function Next(w: World, s: Step): World
    requires Enabled(w, s)
  {
    match s
    case Ask(i, names) => With(w, i, Worker(Taking, Sort(names), 0))
    case Take(i) =>
      var u := w.workers[i];
      With(w, i, u.(got := u.got + 1)).(permits := w.permits[u.want[u.got] := w.permits[u.want[u.got]] + 1])
    case GiveUp(i) => With(w, i, w.workers[i].(phase := GivingBack))
    case Begin(i) => With(w, i, w.workers[i].(phase := Running))
    case Finish(i) => With(w, i, w.workers[i].(phase := GivingBack))
    case Return(i) =>
      var u := w.workers[i];
      if u.got == 0 then With(w, i, Worker(Idle, [], 0))
      else With(w, i, u.(got := u.got - 1)).(permits := w.permits[u.want[u.got - 1] := w.permits[u.want[u.got - 1]] - 1])
  }

  ghost predicate Init(w: World) {
    && (forall i :: 0 <= i < |w.workers| ==> w.workers[i] == Worker(Idle, [], 0))
    && w.permits.Keys == w.capacity.Keys
    && (forall t :: t in w.capacity ==> w.capacity[t] >= 1 && w.permits[t] == 0)
  }

  ghost predicate Runs(w: World, steps: seq<Step>)
    decreases |steps|
  {
    steps == [] || (Enabled(w, steps[0]) && Runs(Next(w, steps[0]), steps[1..]))
  }

  ghost function After(w: World, steps: seq<Step>): World
    requires Runs(w, steps)
    decreases |steps|
  {
    if steps == [] then w else After(Next(w, steps[0]), steps[1..])
  }

  // ---- What is held ----

  function Holds(u: Worker, t: Token): nat {
    if u.got <= |u.want| && t in u.want[..u.got] then 1 else 0
  }

  /** How many of the workers hold `t`. */
  function Holders(workers: seq<Worker>, t: Token): nat {
    if workers == [] then 0 else Holds(workers[0], t) + Holders(workers[1..], t)
  }

  lemma {:induction false} HoldersChange(workers: seq<Worker>, i: nat, u: Worker, t: Token)
    requires i < |workers|
    ensures Holders(workers[i := u], t) == Holders(workers, t) - Holds(workers[i], t) + Holds(u, t)
    decreases |workers|
  {
    if i == 0 {
      assert workers[0 := u][1..] == workers[1..];
    } else {
      assert workers[i := u][1..] == workers[1..][i - 1 := u];
      HoldersChange(workers[1..], i - 1, u, t);
    }
  }

  lemma {:induction false} SomeoneHolds(workers: seq<Worker>, t: Token) returns (i: nat)
    requires Holders(workers, t) > 0
    ensures i < |workers| && Holds(workers[i], t) == 1
    decreases |workers|
  {
    if Holds(workers[0], t) == 1 {
      return 0;
    }
    var j := SomeoneHolds(workers[1..], t);
    i := j + 1;
  }

  // ---- The invariant ----

  /** In order, and none twice. */
  ghost predicate Strict(names: seq<Token>) {
    forall i, j :: 0 <= i < j < |names| ==> Less(names[i], names[j])
  }

  ghost predicate Sound(w: World, u: Worker) {
    && u.got <= |u.want| && Strict(u.want) && (forall t :: t in u.want ==> t in w.capacity)
    && (u.phase.Idle? ==> u.got == 0)
    && (u.phase.Running? ==> u.got == |u.want|)
  }

  ghost predicate Inv(w: World) {
    && w.checked
    && w.permits.Keys == w.capacity.Keys
    && (forall t :: t in w.capacity ==> w.capacity[t] >= 1 && w.permits[t] == Holders(w.workers, t) <= w.capacity[t])
    && (forall i :: 0 <= i < |w.workers| ==> Sound(w, w.workers[i]))
  }

  lemma {:induction false} NobodyHolds(workers: seq<Worker>, t: Token)
    requires forall i :: 0 <= i < |workers| ==> workers[i].got == 0
    ensures Holders(workers, t) == 0
    decreases |workers|
  {
    if workers != [] {
      NobodyHolds(workers[1..], t);
    }
  }

  /** Names declared once each sort into strict order. */
  lemma SortedIsStrict(names: seq<Token>)
    requires Distinct(names)
    ensures Strict(Sort(names)) && forall t :: t in Sort(names) <==> t in names
  {
    SortIsOrdered(names);
    var s := Sort(names);
    forall t ensures t in s <==> t in names {
      assert t in multiset(s) <==> t in multiset(names);
    }
    forall i, j | 0 <= i < j < |s| ensures Less(s[i], s[j]) {
      LessIsTotal(s[i], s[j]);
      if s[i] == s[j] {
        TwiceIsTwo(s, i, j);
        OnceEach(names, s[i]);
      }
    }
  }

  lemma TwiceIsTwo(s: seq<Token>, i: nat, j: nat)
    requires i < j < |s| && s[i] == s[j]
    ensures multiset(s)[s[i]] >= 2
  {
    assert s == s[..i] + [s[i]] + s[i + 1..j] + [s[j]] + s[j + 1..];
  }

  lemma {:induction false} OnceEach(s: seq<Token>, t: Token)
    requires Distinct(s)
    ensures multiset(s)[t] <= 1
    decreases |s|
  {
    if s != [] {
      assert s == [s[0]] + s[1..];
      OnceEach(s[1..], t);
    }
  }

  lemma HeldOneMore(u: Worker, t: Token)
    requires u.got < |u.want| && Strict(u.want)
    ensures Holds(u.(got := u.got + 1), t) == Holds(u, t) + (if t == u.want[u.got] then 1 else 0)
  {
    assert u.want[..u.got + 1] == u.want[..u.got] + [u.want[u.got]];
    if t == u.want[u.got] && t in u.want[..u.got] {
      LessIsTotal(t, t);
    }
  }

  /** A worker changed without a permit changing hands. */
  lemma SameHoldingsKeepInv(w: World, i: nat, u: Worker)
    requires Inv(w) && i < |w.workers| && Sound(w, u)
    requires forall t :: Holds(u, t) == Holds(w.workers[i], t)
    ensures Inv(With(w, i, u))
  {
    forall t | t in w.capacity ensures Holders(w.workers[i := u], t) == Holders(w.workers, t) {
      HoldersChange(w.workers, i, u, t);
    }
  }

  /** A permit taken or given back by a worker. */
  lemma PermitMoves(w: World, i: nat, u: Worker, t: Token, n: nat)
    requires Inv(w) && i < |w.workers| && Sound(w, u) && t in w.capacity && n <= w.capacity[t]
    requires forall x :: Holds(u, x) == Holds(w.workers[i], x) + (if x == t then n - w.permits[t] else 0)
    ensures Inv(With(w, i, u).(permits := w.permits[t := n]))
  {
    hide Strict, Holds;
    var v := With(w, i, u).(permits := w.permits[t := n]);
    forall x | x in w.capacity ensures v.permits[x] == Holders(v.workers, x) <= v.capacity[x] {
      HoldersChange(w.workers, i, u, x);
    }
    forall j | 0 <= j < |v.workers| ensures Sound(v, v.workers[j]) {
      assert j != i ==> Sound(w, w.workers[j]);
    }
  }

  lemma HeldOneLess(u: Worker, t: Token)
    requires 0 < u.got <= |u.want| && Strict(u.want)
    ensures Holds(u.(got := u.got - 1), t) == Holds(u, t) - (if t == u.want[u.got - 1] then 1 else 0)
  {
    HeldOneMore(u.(got := u.got - 1), t);
  }

  lemma SoundOf(w: World, i: nat)
    requires Inv(w) && i < |w.workers|
    ensures Sound(w, w.workers[i]) && w.permits.Keys == w.capacity.Keys
    ensures forall t :: t in w.capacity ==> w.permits[t] <= w.capacity[t]
  {
  }

  lemma TakeKeepsInv(w: World, i: nat)
    requires Inv(w) && Enabled(w, Take(i))
    ensures Inv(Next(w, Take(i)))
  {
    hide Inv, Strict, Holds, Holders;
    SoundOf(w, i);
    var u := w.workers[i];
    var t := u.want[u.got];
    forall x ensures Holds(u.(got := u.got + 1), x) == Holds(u, x) + (if x == t then 1 else 0) {
      HeldOneMore(u, x);
    }
    PermitMoves(w, i, u.(got := u.got + 1), t, w.permits[t] + 1);
  }

  lemma ReturnOneKeepsInv(w: World, i: nat)
    requires Inv(w) && Enabled(w, Return(i)) && w.workers[i].got > 0
    ensures Inv(Next(w, Return(i)))
  {
    hide Inv, Strict, Holds, Holders;
    SoundOf(w, i);
    var u := w.workers[i];
    var t := u.want[u.got - 1];
    forall x ensures Holds(u.(got := u.got - 1), x) == Holds(u, x) - (if x == t then 1 else 0) {
      HeldOneLess(u, x);
    }
    PermitMoves(w, i, u.(got := u.got - 1), t, w.permits[t] - 1);
  }

  lemma ReturnKeepsInv(w: World, i: nat)
    requires Inv(w) && Enabled(w, Return(i))
    ensures Inv(Next(w, Return(i)))
  {
    if w.workers[i].got > 0 {
      ReturnOneKeepsInv(w, i);
    } else {
      SameHoldingsKeepInv(w, i, Worker(Idle, [], 0));
    }
  }

  lemma StepKeepsInv(w: World, s: Step)
    requires Inv(w) && Enabled(w, s)
    ensures Inv(Next(w, s))
  {
    match s
    case Ask(i, names) => SortedIsStrict(names); SameHoldingsKeepInv(w, i, Worker(Taking, Sort(names), 0));
    case Take(i) => TakeKeepsInv(w, i);
    case GiveUp(i) => assert Sound(w, w.workers[i]); SameHoldingsKeepInv(w, i, w.workers[i].(phase := GivingBack));
    case Begin(i) => assert Sound(w, w.workers[i]); SameHoldingsKeepInv(w, i, w.workers[i].(phase := Running));
    case Finish(i) => assert Sound(w, w.workers[i]); SameHoldingsKeepInv(w, i, w.workers[i].(phase := GivingBack));
    case Return(i) => ReturnKeepsInv(w, i);
  }

  lemma {:induction false} RunKeepsInv(w: World, steps: seq<Step>)
    requires Inv(w) && Runs(w, steps)
    ensures Inv(After(w, steps))
    decreases |steps|
  {
    if steps != [] {
      StepKeepsInv(w, steps[0]);
      RunKeepsInv(Next(w, steps[0]), steps[1..]);
    }
  }

  /** What the pool counts of each token is how many workers hold it, never more than its capacity. */
  lemma PermitsAreHeld(w: World, steps: seq<Step>, t: Token)
    requires Init(w) && w.checked && Runs(w, steps) && t in w.capacity
    ensures var v := After(w, steps);
            v.capacity == w.capacity && t in v.permits && v.permits[t] == Holders(v.workers, t) <= w.capacity[t]
  {
    forall u | u in w.capacity ensures Holders(w.workers, u) == 0 {
      NobodyHolds(w.workers, u);
    }
    RunKeepsInv(w, steps);
    CapacityIsKept(w, steps);
  }

  lemma {:induction false} CapacityIsKept(w: World, steps: seq<Step>)
    requires Runs(w, steps)
    ensures After(w, steps).capacity == w.capacity
    decreases |steps|
  {
    if steps != [] {
      CapacityIsKept(Next(w, steps[0]), steps[1..]);
    }
  }

  // ---- No deadlock ----

  /** A worker going on, rather than a new one asking or a wait running out. */
  predicate Progress(s: Step) {
    s.Take? || s.Begin? || s.Finish? || s.Return?
  }

  lemma {:induction false} HolderCounts(workers: seq<Worker>, i: nat, t: Token)
    requires i < |workers|
    ensures Holders(workers, t) >= Holds(workers[i], t)
    decreases |workers|
  {
    if i > 0 {
      HolderCounts(workers[1..], i - 1, t);
    }
  }

  predicate Waits(u: Worker) {
    u.phase.Taking? && u.got < |u.want|
  }

  /** A worker that waits for nothing can go on by itself. */
  lemma GoesOn(w: World, i: nat) returns (s: Step)
    requires Inv(w) && i < |w.workers| && !w.workers[i].phase.Idle? && !Waits(w.workers[i])
    ensures Enabled(w, s) && Progress(s)
  {
    var u := w.workers[i];
    assert Sound(w, u);
    if u.phase.Taking? {
      s := Begin(i);
    } else if u.phase.Running? {
      s := Finish(i);
    } else {
      if u.got > 0 {
        HolderCounts(w.workers, i, u.want[u.got - 1]);
        assert u.want[u.got - 1] in u.want[..u.got];
      }
      s := Return(i);
    }
  }

  /** Someone can go on if `i` waits: it, or whoever holds what it waits for, or whoever holds what they wait for, and so
      on up the order, which ends. */
  lemma {:induction false} Chase(w: World, i: nat, above: set<Token>) returns (s: Step)
    requires Inv(w) && i < |w.workers| && Waits(w.workers[i])
    requires forall t :: t in w.capacity && Less(w.workers[i].want[w.workers[i].got], t) ==> t in above
    ensures Enabled(w, s) && Progress(s)
    decreases |above|
  {
    var u := w.workers[i];
    assert Sound(w, u);
    var t := u.want[u.got];
    assert t in w.capacity;
    if w.permits[t] < w.capacity[t] {
      return Take(i);
    }
    var h := SomeoneHolds(w.workers, t);
    var v := w.workers[h];
    assert Sound(w, v);
    if !Waits(v) {
      s := GoesOn(w, h);
    } else {
      var next := v.want[v.got];
      assert t in v.want[..v.got];
      assert Less(t, next) && next in above;
      forall x | x in w.capacity && Less(next, x) ensures x in above - {next} {
        LessIsTransitive(t, next, x);
        LessIsTotal(x, next);
      }
      s := Chase(w, h, above - {next});
    }
  }

  /** In every state any number of workers reach, as long as one of them is not idle, one of them can go on. */
  lemma NoDeadlock(w: World, steps: seq<Step>, i: nat) returns (s: Step)
    requires Init(w) && w.checked && Runs(w, steps)
    requires i < |After(w, steps).workers| && !After(w, steps).workers[i].phase.Idle?
    ensures Enabled(After(w, steps), s) && Progress(s)
  {
    forall u | u in w.capacity ensures Holders(w.workers, u) == 0 {
      NobodyHolds(w.workers, u);
    }
    RunKeepsInv(w, steps);
    var v := After(w, steps);
    if Waits(v.workers[i]) {
      s := Chase(v, i, v.capacity.Keys);
    } else {
      s := GoesOn(v, i);
    }
  }

  // ---- Why the names are declared once ----

  /** The first `k` workers want a token twice, and each has one of its permits; the others have not asked. */
  ghost predicate Twice(w: World, t: Token, k: nat) {
    && !w.checked && k <= |w.workers|
    && t in w.capacity && t in w.permits && w.permits[t] == k
    && (forall i :: 0 <= i < k ==> w.workers[i] == Worker(Taking, [t, t], 1))
    && (forall i :: k <= i < |w.workers| ==> w.workers[i] == Worker(Idle, [], 0))
  }

  lemma SortTwice(t: Token)
    ensures Sort([t, t]) == [t, t]
  {
    LessIsTotal(t, t);
    assert [t, t][1..] == [t] && [t][1..] == [];
    assert Sort([t]) == Insert(t, []);
  }

  /** One more worker asks, and takes the permit that is free. */
  lemma OneMoreTwice(w: World, t: Token, k: nat)
    requires Twice(w, t, k) && k < |w.workers| && k < w.capacity[t]
    ensures var asked := Ask(k, [t, t]);
            && Enabled(w, asked) && Enabled(Next(w, asked), Take(k))
            && Twice(Next(Next(w, asked), Take(k)), t, k + 1)
            && Next(Next(w, asked), Take(k)).capacity == w.capacity
            && |Next(Next(w, asked), Take(k)).workers| == |w.workers|
  {
    SortTwice(t);
  }

  lemma {:induction false} AllTwice(w: World, t: Token, k: nat) returns (steps: seq<Step>)
    requires Twice(w, t, k) && |w.workers| == w.capacity[t]
    ensures Runs(w, steps) && After(w, steps).capacity == w.capacity && |After(w, steps).workers| == |w.workers|
    ensures Twice(After(w, steps), t, |w.workers|)
    decreases |w.workers| - k
  {
    steps := [];
    if k < |w.workers| {
      OneMoreTwice(w, t, k);
      var v := Next(w, Ask(k, [t, t]));
      var rest := AllTwice(Next(v, Take(k)), t, k + 1);
      steps := [Ask(k, [t, t]), Take(k)] + rest;
      assert steps[1..] == [Take(k)] + rest && steps[1..][1..] == rest;
    }
  }

  lemma NoneGoesOn(w: World, t: Token, s: Step)
    requires Twice(w, t, |w.workers|) && |w.workers| == w.capacity[t] && Enabled(w, s)
    ensures s.GiveUp?
  {
  }

  /** Were a name not refused when it is declared twice, as many workers as it has permits would, each asking for it and
      taking one, reach a state where not one of them can ever go on: nothing is left to happen but a wait running out. */
  lemma DeclaredTwiceDeadlocks(w: World, t: Token) returns (steps: seq<Step>)
    requires Init(w) && !w.checked && t in w.capacity && |w.workers| == w.capacity[t]
    ensures Runs(w, steps) && forall s :: Enabled(After(w, steps), s) ==> s.GiveUp?
  {
    steps := AllTwice(w, t, 0);
    var v := After(w, steps);
    forall s | Enabled(v, s) ensures s.GiveUp? {
      NoneGoesOn(v, t, s);
    }
  }
}
