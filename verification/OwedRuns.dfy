/** Every run of one job's read-back, with kills: how often an owed item is made before the job parks. */
module OwedRuns {
  import opened Base
  import opened Store
  import opened Round
  import opened Owed

  /** A job in its read-back state: what its record says, the keys, the attempts counted since it entered the state,
      and how many kills fell between a record's save and the commit of the failure that saved it. `ends` is how many
      rounds of each item's stem are reserved, and `starts` how many were when it was owed. */
  datatype Run = Run(keys: map<Key, JobId>, items: seq<Item>, attempts: nat, parked: bool, cuts: nat,
                     ends: seq<nat>, starts: seq<nat>)

  /** The job, the rounds an item has at each attempt, and the attempts before the job parks. */
  datatype Bounds = Bounds(id: JobId, rounds: nat, attempts: nat)

  datatype Step =
    | Again(shown: set<Stem>)   // something is missing with rounds left: committed, and its effects made or lost
    | Lost                      // killed before anything was saved or committed
    | Fail(shown: set<Stem>)    // something is missing and out of rounds: saved, and the failure committed
    | Cut(shown: set<Stem>)     // the same, killed between the two
    | Error                     // any other error: an attempt

  predicate IsMissing(item: Item, shown: set<Stem>) {
    item.stem !in shown
  }

  /** The keys an attempt at the missing items reserves: each one's next free round. */
  function MissingKeys(keys: map<Key, JobId>, missing: seq<Item>, limit: nat): seq<Key> {
    if missing == [] then []
    else
      var last := missing[|missing| - 1];
      MissingKeys(keys, missing[..|missing| - 1], limit)
      + match Free(keys, last.stem, last.from, limit) case Some(i) => [RoundKey(last.stem, i)] case None => []
  }

  predicate Enabled(b: Bounds, r: Run, s: Step) {
    && !r.parked
    && match s
       case Again(shown) => Missing(r.items, shown) != [] && SpentOf(r.keys, Missing(r.items, shown), b.rounds) == map[]
       case Fail(shown) => SpentOf(r.keys, Missing(r.items, shown), b.rounds) != map[]
       case Cut(shown) => SpentOf(r.keys, Missing(r.items, shown), b.rounds) != map[]
       case _ => true
  }

  function Next(b: Bounds, r: Run, s: Step): Run
    requires Enabled(b, r, s) && |r.ends| == |r.items|
  {
    match s
    case Again(shown) =>
      r.(keys := Reserving(r.keys, MissingKeys(r.keys, Missing(r.items, shown), b.rounds), b.id),
         ends := seq(|r.ends|, i requires 0 <= i < |r.items| == |r.ends| =>
                   if IsMissing(r.items[i], shown) then r.ends[i] + 1 else r.ends[i]))
    case Lost => r
    case Fail(shown) => Failed(b, r.(items := Moved(r.items, SpentOf(r.keys, Missing(r.items, shown), b.rounds))))
    case Cut(shown) => r.(items := Moved(r.items, SpentOf(r.keys, Missing(r.items, shown), b.rounds)), cuts := r.cuts + 1)
    case Error => Failed(b, r)
  }

  function Failed(b: Bounds, r: Run): Run {
    r.(attempts := r.attempts + 1, parked := r.attempts + 1 >= b.attempts)
  }

  /** The record as it was owed, from a store whose rounds are segments. */
  ghost predicate JustOwed(b: Bounds, r: Run) {
    && b.rounds >= 1 && b.attempts >= 1
    && DistinctStems(r.items) && |r.ends| == |r.starts| == |r.items|
    && r.attempts == 0 && !r.parked && r.cuts == 0
    && forall i :: 0 <= i < |r.items| ==>
         Segment(r.keys, r.items[i].stem, r.ends[i]) && r.starts[i] == r.items[i].from == r.ends[i]
  }

  /** `n` allowances of `rounds` each. */
  function Worth(rounds: nat, n: nat): nat {
    if n == 0 then 0 else Worth(rounds, n - 1) + rounds
  }

  lemma {:induction false} WorthIs(rounds: nat, n: nat)
    ensures Worth(rounds, n) == rounds * n
  {
    if n > 0 {
      WorthIs(rounds, n - 1);
      assert rounds * n == rounds * (n - 1) + rounds;
    }
  }

  lemma {:induction false} WorthMore(rounds: nat, n: nat, m: nat)
    requires n <= m
    ensures Worth(rounds, n) <= Worth(rounds, m)
    decreases m
  {
    if n < m {
      WorthMore(rounds, n, m - 1);
    }
  }

  /** How far an item's allowance has moved is paid for by failures and cuts. */
  ghost predicate Paid(b: Bounds, r: Run, i: nat)
    requires i < |r.items| == |r.ends| == |r.starts|
  {
    && Segment(r.keys, r.items[i].stem, r.ends[i])
    && r.starts[i] <= r.items[i].from <= r.ends[i] <= r.items[i].from + b.rounds
    && r.items[i].from - r.starts[i] <= Worth(b.rounds, r.attempts + r.cuts)
    && r.ends[i] - r.starts[i] <= Worth(b.rounds, b.attempts + r.cuts)
  }

  ghost predicate Inv(b: Bounds, r: Run) {
    && b.rounds >= 1 && b.attempts >= 1
    && DistinctStems(r.items) && |r.ends| == |r.starts| == |r.items|
    && (!r.parked ==> r.attempts < b.attempts)
    && forall i :: 0 <= i < |r.items| ==> Paid(b, r, i)
  }

  lemma MissingIsDistinct(items: seq<Item>, shown: set<Stem>)
    requires DistinctStems(items)
    ensures DistinctStems(Missing(items, shown))
  {
    if items != [] {
      var last := |items| - 1;
      MissingIsDistinct(items[..last], shown);
      var before := Missing(items[..last], shown);
      forall i | 0 <= i < |before| ensures before[i].stem != items[last].stem {
        assert before[i] in before;
        var j :| 0 <= j < last && items[..last][j] == before[i];
      }
    }
  }

  /** `k` is the key of the item's next free round. */
  predicate IsNextKey(keys: map<Key, JobId>, item: Item, limit: nat, k: Key) {
    Free(keys, item.stem, item.from, limit).Some? && k == RoundKey(item.stem, Free(keys, item.stem, item.from, limit).value)
  }

  /** In segments, the keys made for missing items are each its stem's end. */
  lemma {:induction false} MissingKeysAreEnds(keys: map<Key, JobId>, missing: seq<Item>, limit: nat, k: Key)
    ensures k in MissingKeys(keys, missing, limit) <==> exists m :: 0 <= m < |missing| && IsNextKey(keys, missing[m], limit, k)
  {
    if missing != [] {
      var last := |missing| - 1;
      MissingKeysAreEnds(keys, missing[..last], limit, k);
      assert k in MissingKeys(keys, missing, limit) <==> k in MissingKeys(keys, missing[..last], limit) || IsNextKey(keys, missing[last], limit, k);
      hide MissingKeys, IsNextKey;
      assert forall m :: 0 <= m < last ==> missing[..last][m] == missing[m];
    }
  }

  /** While something is missing with rounds left, every missing item has one: its stem's end. */
  lemma MissingHasRound(b: Bounds, r: Run, shown: set<Stem>, i: nat)
    requires Inv(b, r) && Enabled(b, r, Again(shown)) && i < |r.items| && IsMissing(r.items[i], shown)
    ensures Free(r.keys, r.items[i].stem, r.items[i].from, b.rounds) == Some(r.ends[i])
    ensures r.ends[i] < r.items[i].from + b.rounds
  {
    var missing := Missing(r.items, shown);
    MissingIsDistinct(r.items, shown);
    assert r.items[i] in missing;
    var m :| 0 <= m < |missing| && missing[m] == r.items[i];
    SpentOfIsExact(r.keys, missing, b.rounds, m);
    assert Paid(b, r, i);
    FreeInSegment(r.keys, r.items[i].stem, r.ends[i], r.items[i].from, b.rounds);
  }

  /** What an attempt reserves under a stem is its end, and nothing under the stem of an item that shows. */
  lemma ReservedIsEnd(b: Bounds, r: Run, shown: set<Stem>, i: nat, j: nat)
    requires Inv(b, r) && Enabled(b, r, Again(shown)) && i < |r.items|
    ensures RoundKey(r.items[i].stem, j) in MissingKeys(r.keys, Missing(r.items, shown), b.rounds)
            <==> IsMissing(r.items[i], shown) && j == r.ends[i]
  {
    var missing := Missing(r.items, shown);
    var it, k := r.items[i], RoundKey(r.items[i].stem, j);
    MissingKeysAreEnds(r.keys, missing, b.rounds, k);
    if k in MissingKeys(r.keys, missing, b.rounds) {
      var m :| 0 <= m < |missing| && IsNextKey(r.keys, missing[m], b.rounds, k);
      RoundKeysAreDistinct(it.stem, j, missing[m].stem, Free(r.keys, missing[m].stem, missing[m].from, b.rounds).value);
      assert missing[m] in missing;
      var n :| 0 <= n < |r.items| && r.items[n] == missing[m];
      assert n == i;
      MissingHasRound(b, r, shown, i);
    }
    if IsMissing(it, shown) && j == r.ends[i] {
      MissingHasRound(b, r, shown, i);
      assert it in missing;
      var m :| 0 <= m < |missing| && missing[m] == it;
      assert IsNextKey(r.keys, missing[m], b.rounds, k);
    }
  }

  lemma AgainKeepsSegment(b: Bounds, r: Run, shown: set<Stem>, i: nat)
    requires Inv(b, r) && Enabled(b, r, Again(shown)) && i < |r.items|
    ensures Segment(Next(b, r, Again(shown)).keys, r.items[i].stem, Next(b, r, Again(shown)).ends[i])
    ensures IsMissing(r.items[i], shown) ==> r.ends[i] < r.items[i].from + b.rounds
  {
    hide Missing, MissingKeys, SpentOf, Free, RoundKey;
    var v := Next(b, r, Again(shown));
    assert Paid(b, r, i);
    if IsMissing(r.items[i], shown) {
      MissingHasRound(b, r, shown, i);
    }
    forall j: nat ensures RoundKey(r.items[i].stem, j) in v.keys <==> j < v.ends[i] {
      ReservedIsEnd(b, r, shown, i, j);
    }
  }

  lemma Spread(a: nat, b: nat, c: nat)
    ensures Worth(a, b + c + 1) == Worth(a, b + c) + a
    ensures b < c ==> Worth(a, b + 1) == Worth(a, b) + a <= Worth(a, c)
  {
    if b < c {
      WorthMore(a, b + 1, c);
    }
  }

  lemma AgainKeepsInv(b: Bounds, r: Run, shown: set<Stem>)
    requires Inv(b, r) && Enabled(b, r, Again(shown))
    ensures Inv(b, Next(b, r, Again(shown)))
  {
    hide Segment, Worth, Missing, MissingKeys, SpentOf;
    var v := Next(b, r, Again(shown));
    forall i | 0 <= i < |v.items| ensures Paid(b, v, i) {
      assert Paid(b, r, i);
      AgainKeepsSegment(b, r, shown, i);
      // One more made stays inside the allowance, and the allowance is paid for with an attempt to spare.
      Spread(b.rounds, r.attempts, r.cuts);
      Spread(b.rounds, r.attempts + r.cuts, b.attempts + r.cuts);
    }
  }

  lemma MovedKeepsPaid(b: Bounds, r: Run, shown: set<Stem>, i: nat)
    requires Inv(b, r) && !r.parked && i < |r.items|
    ensures var moved := Moved(r.items, SpentOf(r.keys, Missing(r.items, shown), b.rounds));
            && moved[i].stem == r.items[i].stem
            && r.starts[i] <= moved[i].from <= r.ends[i] <= moved[i].from + b.rounds
            && moved[i].from - r.starts[i] <= Worth(b.rounds, r.attempts + r.cuts + 1)
  {
    hide Missing, SpentOf, Free;
    assert Paid(b, r, i);
    Spread(b.rounds, r.attempts, r.cuts);
    if r.items[i].stem in SpentOf(r.keys, Missing(r.items, shown), b.rounds) {
      SpentIsOut(b, r, shown, i);
    }
  }

  /** A stem whose allowance moves is that of a missing item out of rounds, and it moves by the whole allowance. */
  lemma SpentIsOut(b: Bounds, r: Run, shown: set<Stem>, i: nat)
    requires Inv(b, r) && i < |r.items| && r.items[i].stem in SpentOf(r.keys, Missing(r.items, shown), b.rounds)
    ensures SpentOf(r.keys, Missing(r.items, shown), b.rounds)[r.items[i].stem] == r.items[i].from + b.rounds <= r.ends[i]
  {
    var missing := Missing(r.items, shown);
    MissingIsDistinct(r.items, shown);
    SpentStemsAreItems(r.keys, missing, b.rounds);
    var m :| 0 <= m < |missing| && missing[m].stem == r.items[i].stem && OutOfRounds(r.keys, missing[m], b.rounds);
    assert missing[m] in missing;
    var n :| 0 <= n < |r.items| && r.items[n] == missing[m];
    assert n == i;
    SpentOfIsExact(r.keys, missing, b.rounds, m);
    assert Paid(b, r, i);
    FreeInSegment(r.keys, r.items[i].stem, r.ends[i], r.items[i].from, b.rounds);
  }

  lemma ErrorKeepsInv(b: Bounds, r: Run)
    requires Inv(b, r) && !r.parked
    ensures Inv(b, Failed(b, r))
  {
    forall i | 0 <= i < |r.items| ensures Paid(b, Failed(b, r), i) {
      assert Paid(b, r, i);
      Spread(b.rounds, r.attempts, r.cuts);
    }
  }

  /** Moving the allowances on is paid for by the attempt that follows, or by the kill that forestalls it. */
  lemma SpentKeepsInv(b: Bounds, r: Run, s: Step)
    requires Inv(b, r) && Enabled(b, r, s) && (s.Fail? || s.Cut?)
    ensures Inv(b, Next(b, r, s))
  {
    hide Missing, SpentOf, Free, Moved;
    var v := Next(b, r, s);
    forall i, j | 0 <= i < j < |v.items| ensures v.items[i].stem != v.items[j].stem {
      MovedKeepsPaid(b, r, s.shown, i);
      MovedKeepsPaid(b, r, s.shown, j);
    }
    forall i | 0 <= i < |v.items| ensures Paid(b, v, i) {
      assert Paid(b, r, i);
      MovedKeepsPaid(b, r, s.shown, i);
      Spread(b.rounds, b.attempts, r.cuts);
    }
  }

  lemma StepKeepsInv(b: Bounds, r: Run, s: Step)
    requires Inv(b, r) && Enabled(b, r, s)
    ensures Inv(b, Next(b, r, s)) && Next(b, r, s).starts == r.starts
  {
    match s
    case Again(shown) => AgainKeepsInv(b, r, shown);
    case Lost =>
    case Error => ErrorKeepsInv(b, r);
    case _ => SpentKeepsInv(b, r, s);
  }

  predicate Runs(b: Bounds, r: Run, steps: seq<Step>)
    requires |r.ends| == |r.items|
    decreases |steps|
  {
    steps == [] || (Enabled(b, r, steps[0]) && Runs(b, Next(b, r, steps[0]), steps[1..]))
  }

  function After(b: Bounds, r: Run, steps: seq<Step>): Run
    requires |r.ends| == |r.items| && Runs(b, r, steps)
    decreases |steps|
  {
    if steps == [] then r else After(b, Next(b, r, steps[0]), steps[1..])
  }

  lemma {:induction false} RunKeepsInv(b: Bounds, r: Run, steps: seq<Step>)
    requires Inv(b, r) && Runs(b, r, steps)
    ensures Inv(b, After(b, r, steps)) && After(b, r, steps).starts == r.starts
    decreases |steps|
  {
    if steps != [] {
      StepKeepsInv(b, r, steps[0]);
      RunKeepsInv(b, Next(b, r, steps[0]), steps[1..]);
    }
  }

  /** In every run, whatever the tracker shows and whenever it is killed, the reserved rounds of each item stay an
      initial segment, and the item is made at most Rounds times for each attempt, and Rounds times more for each kill
      between a record's save and its failure's commit. */
  lemma MadeAtMost(b: Bounds, r: Run, steps: seq<Step>, i: nat)
    requires JustOwed(b, r) && Runs(b, r, steps) && i < |r.items|
    ensures var v := After(b, r, steps);
            && |v.items| == |v.ends| == |r.items| && Segment(v.keys, v.items[i].stem, v.ends[i])
            && v.ends[i] - r.starts[i] <= b.rounds * (b.attempts + v.cuts)
  {
    OwedIsPaid(b, r);
    RunKeepsInv(b, r, steps);
    hide Runs, After;
    PaidIsBounded(b, After(b, r, steps), i);
  }

  lemma PaidIsBounded(b: Bounds, v: Run, i: nat)
    requires Inv(b, v) && i < |v.items|
    ensures |v.items| == |v.ends| == |v.starts| && Segment(v.keys, v.items[i].stem, v.ends[i])
    ensures v.ends[i] - v.starts[i] <= b.rounds * (b.attempts + v.cuts)
  {
    hide Segment;
    assert Paid(b, v, i);
    WorthIs(b.rounds, b.attempts + v.cuts);
  }

  lemma OwedIsPaid(b: Bounds, r: Run)
    requires JustOwed(b, r)
    ensures Inv(b, r)
  {
    hide Segment;
    forall j | 0 <= j < |r.items| ensures Paid(b, r, j) {}
  }

  /** The bound is met, for every number of kills between a record's save and its failure's commit: an item that never
      shows is made exactly Rounds times for each attempt and each such kill before its job parks. */
  lemma TheBoundIsMet(b: Bounds, r: Run, cuts: nat) returns (steps: seq<Step>)
    requires JustOwed(b, r) && |r.items| == 1
    ensures Runs(b, r, steps) && After(b, r, steps).parked && After(b, r, steps).cuts == cuts
    ensures After(b, r, steps).ends == [r.starts[0] + b.rounds * (b.attempts + cuts)]
  {
    OwedIsPaid(b, r);
    steps := NeverShown(b, r, cuts);
    WorthIs(b.rounds, b.attempts + cuts);
  }

  /** One item, never shown so far: what its allowance has used up is exactly paid for by the failures and the kills. */
  ghost predicate Stuck(b: Bounds, r: Run) {
    && Inv(b, r) && |r.items| == 1
    && r.items[0].from - r.starts[0] == Worth(b.rounds, r.attempts + r.cuts)
  }

  lemma StuckWaits(b: Bounds, r: Run)
    requires Stuck(b, r) && r.ends[0] < r.items[0].from + b.rounds
    ensures |r.ends| == |r.items| == |r.starts| == 1
    ensures Missing(r.items, {}) == r.items && SpentOf(r.keys, r.items, b.rounds) == map[]
  {
    assert Paid(b, r, 0);
    OneMissing(r.items);
    FreeInSegment(r.keys, r.items[0].stem, r.ends[0], r.items[0].from, b.rounds);
    NothingSpent(r.keys, r.items, b.rounds);
  }

  lemma StuckAgain(b: Bounds, r: Run)
    requires Stuck(b, r) && !r.parked && r.ends[0] < r.items[0].from + b.rounds
    ensures Enabled(b, r, Again({}))
    ensures var v := Next(b, r, Again({}));
            Stuck(b, v) && !v.parked && v.items == r.items && v.attempts == r.attempts && v.cuts == r.cuts && v.ends == [r.ends[0] + 1] && v.starts == r.starts
  {
    StuckWaits(b, r);
    hide SpentOf, Missing, Worth;
    AgainMakesOne(b, r);
    StepKeepsInv(b, r, Again({}));
    hide Inv, Next;
  }

  lemma AgainMakesOne(b: Bounds, r: Run)
    requires |r.ends| == |r.items| == 1 && Enabled(b, r, Again({}))
    ensures var v := Next(b, r, Again({})); v == r.(keys := v.keys, ends := [r.ends[0] + 1])
  {
    assert IsMissing(r.items[0], {});
  }

  lemma StuckMoves(b: Bounds, r: Run)
    requires Stuck(b, r) && r.ends[0] >= r.items[0].from + b.rounds
    ensures r.items[0].from + b.rounds == r.ends[0]
    ensures var spent := SpentOf(r.keys, Missing(r.items, {}), b.rounds);
            spent != map[] && Moved(r.items, spent) == [r.items[0].(from := r.ends[0])]
  {
    assert Paid(b, r, 0);
    OneMissing(r.items);
    FreeInSegment(r.keys, r.items[0].stem, r.ends[0], r.items[0].from, b.rounds);
    SpentOfIsExact(r.keys, r.items, b.rounds, 0);
  }

  /** Out of rounds, the allowance moves on by all of them, whether the failure is committed or the job is killed first. */
  lemma StuckFails(b: Bounds, r: Run, s: Step)
    requires Stuck(b, r) && !r.parked && r.ends[0] >= r.items[0].from + b.rounds && (s == Fail({}) || s == Cut({}))
    ensures Enabled(b, r, s)
    ensures var v := Next(b, r, s);
            && Stuck(b, v) && v.ends == r.ends && v.starts == r.starts && v.ends[0] == v.items[0].from
            && v.attempts == r.attempts + (if s.Fail? then 1 else 0) && v.cuts == r.cuts + (if s.Cut? then 1 else 0)
            && (v.parked <==> s.Fail? && v.attempts >= b.attempts)
  {
    StuckMoves(b, r);
    StepKeepsInv(b, r, s);
    Spread(b.rounds, r.attempts, r.cuts);
    hide Inv, Worth, SpentOf, Missing, Moved;
  }

  lemma Then(b: Bounds, r: Run, s: Step, rest: seq<Step>)
    requires |r.ends| == |r.items| && Enabled(b, r, s)
    requires |Next(b, r, s).ends| == |Next(b, r, s).items| && Runs(b, Next(b, r, s), rest)
    ensures Runs(b, r, [s] + rest) && After(b, r, [s] + rest) == After(b, Next(b, r, s), rest)
  {
    assert ([s] + rest)[1..] == rest;
  }

  /** What is still to come before the job parks: failures and kills, and then rounds. */
  ghost function ToGo(b: Bounds, r: Run, cuts: nat): (nat, nat)
    requires Stuck(b, r)
  {
    assert Paid(b, r, 0);
    var ends := r.attempts + r.cuts;
    (if ends < b.attempts + cuts then b.attempts + cuts - ends else 0, r.items[0].from + b.rounds - r.ends[0])
  }

  lemma StuckStep(b: Bounds, r: Run, cuts: nat) returns (s: Step, v: Run)
    requires Stuck(b, r) && !r.parked && r.cuts <= cuts
    ensures |r.ends| == |r.items| && Enabled(b, r, s) && v == Next(b, r, s) && Stuck(b, v) && v.starts == r.starts && v.cuts <= cuts
    ensures ToGo(b, v, cuts).0 < ToGo(b, r, cuts).0 || (ToGo(b, v, cuts).0 == ToGo(b, r, cuts).0 && ToGo(b, v, cuts).1 < ToGo(b, r, cuts).1)
    ensures v.parked ==> v.cuts == cuts && v.ends == [r.starts[0] + Worth(b.rounds, b.attempts + cuts)]
  {
    assert Paid(b, r, 0);
    if r.ends[0] < r.items[0].from + b.rounds {
      StuckAgain(b, r);
      s, v := Again({}), Next(b, r, Again({}));
    } else {
      s := if r.cuts < cuts then Cut({}) else Fail({});
      StuckFails(b, r, s);
      v := Next(b, r, s);
    }
  }

  lemma StuckIsWhole(b: Bounds, r: Run)
    requires Stuck(b, r)
    ensures |r.ends| == |r.items| == |r.starts| == 1
  {
  }

  lemma {:induction false} NeverShown(b: Bounds, r: Run, cuts: nat) returns (steps: seq<Step>)
    requires Stuck(b, r) && !r.parked && r.cuts <= cuts
    ensures |r.ends| == |r.items| == |r.starts| == 1
    ensures Runs(b, r, steps) && After(b, r, steps).parked && After(b, r, steps).cuts == cuts
    ensures After(b, r, steps).ends == [r.starts[0] + Worth(b.rounds, b.attempts + cuts)]
    decreases ToGo(b, r, cuts).0, ToGo(b, r, cuts).1
  {
    hide Enabled, Next, Stuck, ToGo, Worth;
    StuckIsWhole(b, r);
    var s, v := StuckStep(b, r, cuts);
    StuckIsWhole(b, v);
    var rest: seq<Step> := [];
    if !v.parked {
      rest := NeverShown(b, v, cuts);
    }
    Then(b, r, s, rest);
    steps := [s] + rest;
  }

  lemma OneMissing(items: seq<Item>)
    requires |items| == 1
    ensures Missing(items, {}) == items
  {
    assert items[..0] == [];
  }
}
