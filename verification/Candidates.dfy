/** Which model runs: the enrolled ones that suit, in the order they were enrolled, and the next of them after each
    transient failure (internal/model, internal/work/session.go). */
module Candidates {
  import opened Base

  type Ref = string
  type Capability = string
  type Time = int

  datatype Price = Price(input: real, output: real, cacheRead: real)

  /** No price is a model the catalogue gives none for. */
  datatype Model = Model(has: set<Capability>, context: int, price: Option<Price>)

  datatype Requirements = Requirements(tier: string, capabilities: seq<Capability>, minContext: int, ceiling: Price)

  datatype Budget = Budget(limited: bool, resetsAt: Option<Time>)

  datatype Unresolved =
    | NoTier
    | UnknownTier
    | Limited(resetsAt: Option<Time>)
    | NoCandidate(missing: seq<Capability>, rejected: seq<Ref>, catalogued: nat)

  // ---- What suits ----

  predicate Over(have: real, limit: real) {
    limit > 0.0 && have > limit
  }

  const NO_CEILING := Price(0.0, 0.0, 0.0)

  /** Whether a model breaches a ceiling: an unpriced one breaches any. */
  predicate OverCeiling(price: Option<Price>, ceiling: Price) {
    ceiling != NO_CEILING
    && (price.None? || Over(price.value.input, ceiling.input) || Over(price.value.output, ceiling.output) || Over(price.value.cacheRead, ceiling.cacheRead))
  }

  ghost predicate Suits(m: Model, reqs: Requirements) {
    && (forall c :: c in reqs.capabilities ==> c in m.has)
    && (reqs.minContext <= 0 || m.context >= reqs.minContext)
    && !OverCeiling(m.price, reqs.ceiling)
  }

  ghost predicate Qualifies(ref: Ref, catalogue: map<Ref, Model>, reqs: Requirements) {
    ref in catalogue && Suits(catalogue[ref], reqs)
  }

  /** Those of `refs` that qualify, in the order they stand in. */
  ghost function Qualifying(refs: seq<Ref>, catalogue: map<Ref, Model>, reqs: Requirements): seq<Ref> {
    if refs == [] then []
    else
      var last := |refs| - 1;
      Qualifying(refs[..last], catalogue, reqs) + (if Qualifies(refs[last], catalogue, reqs) then [refs[last]] else [])
  }

  lemma {:induction false} QualifyingAre(refs: seq<Ref>, catalogue: map<Ref, Model>, reqs: Requirements)
    ensures forall r :: r in Qualifying(refs, catalogue, reqs) <==> r in refs && Qualifies(r, catalogue, reqs)
  {
    if refs != [] {
      QualifyingAre(refs[..|refs| - 1], catalogue, reqs);
      assert refs == refs[..|refs| - 1] + [refs[|refs| - 1]];
    }
  }

  /** In their order: of two stretches of the tier, those of the first come first. */
  lemma {:induction false} QualifyingInOrder(front: seq<Ref>, more: seq<Ref>, catalogue: map<Ref, Model>, reqs: Requirements)
    ensures Qualifying(front + more, catalogue, reqs) == Qualifying(front, catalogue, reqs) + Qualifying(more, catalogue, reqs)
    decreases |more|
  {
    if more == [] {
      assert front + more == front;
    } else {
      var last := |more| - 1;
      QualifyingInOrder(front, more[..last], catalogue, reqs);
      assert (front + more)[..|front + more| - 1] == front + more[..last];
    }
  }

  /** Some model of the tier, known to the catalogue, has the capability. */
  ghost predicate Met(c: Capability, refs: seq<Ref>, catalogue: map<Ref, Model>) {
    exists r :: r in refs && r in catalogue && c in catalogue[r].has
  }

  method Rejects(m: Model, reqs: Requirements) returns (rejected: bool)
    ensures rejected <==> !Suits(m, reqs)
    ensures rejected <==>
              || (exists c :: c in reqs.capabilities && c !in m.has)
              || (reqs.minContext > 0 && m.context < reqs.minContext)
              || (m.price.None? && (reqs.ceiling.input != 0.0 || reqs.ceiling.output != 0.0 || reqs.ceiling.cacheRead != 0.0))
              || (m.price.Some? && (|| (reqs.ceiling.input > 0.0 && m.price.value.input > reqs.ceiling.input)
                                    || (reqs.ceiling.output > 0.0 && m.price.value.output > reqs.ceiling.output)
                                    || (reqs.ceiling.cacheRead > 0.0 && m.price.value.cacheRead > reqs.ceiling.cacheRead)))
  {
    for i := 0 to |reqs.capabilities|
      invariant forall k :: 0 <= k < i ==> reqs.capabilities[k] in m.has
    {
      if reqs.capabilities[i] !in m.has {
        return true;
      }
    }
    if reqs.minContext > 0 && m.context < reqs.minContext {
      return true;
    }
    rejected := OverCeiling(m.price, reqs.ceiling);
  }

  /** One walk over the tier: what qualifies, what does not, how many of them the catalogue knows, and which of the
      capabilities asked for any of those has. */
  method WalkTier(reqs: Requirements, catalogue: map<Ref, Model>, refs: seq<Ref>)
    returns (candidates: seq<Ref>, rejected: seq<Ref>, catalogued: nat, met: set<Capability>)
    ensures candidates == Qualifying(refs, catalogue, reqs)
    ensures catalogued > 0 <==> exists x :: x in refs && x in catalogue
    ensures forall c :: c in reqs.capabilities ==> (c in met <==> Met(c, refs, catalogue))
  {
    hide Met, Suits;
    candidates, rejected, catalogued, met := [], [], 0, {};
    NoneMet(catalogue);
    for i := 0 to |refs|
      invariant candidates == Qualifying(refs[..i], catalogue, reqs)
      invariant catalogued > 0 <==> exists x :: x in refs[..i] && x in catalogue
      invariant forall c :: c in reqs.capabilities ==> (c in met <==> Met(c, refs[..i], catalogue))
    {
      var ref := refs[i];
      assert refs[..i + 1] == refs[..i] + [ref] && refs[..i + 1][..i] == refs[..i];
      MetOneMore(refs, i, catalogue);
      if ref !in catalogue {
        rejected := rejected + [ref];
        continue;
      }
      catalogued := catalogued + 1;
      assert ref in refs[..i + 1];
      var m := catalogue[ref];
      met := met + set c | c in reqs.capabilities && c in m.has;
      var rejects := Rejects(m, reqs);
      if rejects {
        rejected := rejected + [ref];
        continue;
      }
      candidates := candidates + [ref];
    }
    assert refs[..|refs|] == refs;
  }

  lemma NoneMet(catalogue: map<Ref, Model>)
    ensures forall c :: !Met(c, [], catalogue)
  {
  }

  /** The capabilities asked for that are not met, in order. */
  method Missing(capabilities: seq<Capability>, met: set<Capability>) returns (missing: seq<Capability>)
    ensures forall c :: c in missing <==> c in capabilities && c !in met
  {
    missing := [];
    for i := 0 to |capabilities|
      invariant forall c :: c in missing <==> c in capabilities[..i] && c !in met
    {
      if capabilities[i] !in met {
        missing := missing + [capabilities[i]];
      }
    }
    assert capabilities[..|capabilities|] == capabilities;
  }

  /** The candidates are exactly the enrolled models that qualify, in the human's order; or there are none, and what is
      missing is claimed only of models the catalogue knows. A tier nobody enrolled is told before a limited budget. */
  method Resolve(reqs: Requirements, catalogue: map<Ref, Model>, tiers: map<string, seq<Ref>>, budget: Budget) returns (r: Result<seq<Ref>, Unresolved>)
    ensures reqs.tier == "" ==> r == Err(NoTier)
    ensures reqs.tier != "" && reqs.tier !in tiers ==> r == Err(UnknownTier)
    ensures reqs.tier != "" && reqs.tier in tiers && budget.limited ==> r == Err(Limited(budget.resetsAt))
    ensures reqs.tier != "" && reqs.tier in tiers && !budget.limited ==>
              var refs := tiers[reqs.tier];
              match r
              case Ok(list) => list == Qualifying(refs, catalogue, reqs) && list != []
              case Err(NoCandidate(missing, _, catalogued)) =>
                && Qualifying(refs, catalogue, reqs) == []
                && (catalogued > 0 <==> exists x :: x in refs && x in catalogue)
                && forall c :: c in missing <==> catalogued > 0 && c in reqs.capabilities && !Met(c, refs, catalogue)
              case _ => false
  {
    if reqs.tier == "" {
      return Err(NoTier);
    }
    if reqs.tier !in tiers {
      return Err(UnknownTier);
    }
    if budget.limited {
      return Err(Limited(budget.resetsAt));
    }
    var candidates, rejected, catalogued, met := WalkTier(reqs, catalogue, tiers[reqs.tier]);
    if candidates == [] {
      var missing: seq<Capability> := [];
      if catalogued > 0 {
        missing := Missing(reqs.capabilities, met);
      }
      return Err(NoCandidate(missing, rejected, catalogued));
    }
    r := Ok(candidates);
  }

  lemma MetOneMore(refs: seq<Ref>, i: nat, catalogue: map<Ref, Model>)
    requires i < |refs|
    ensures forall c :: Met(c, refs[..i + 1], catalogue) <==> Met(c, refs[..i], catalogue) || (refs[i] in catalogue && c in catalogue[refs[i]].has)
  {
    assert refs[..i + 1] == refs[..i] + [refs[i]];
    forall c ensures Met(c, refs[..i + 1], catalogue) <==> Met(c, refs[..i], catalogue) || (refs[i] in catalogue && c in catalogue[refs[i]].has) {
      if Met(c, refs[..i], catalogue) {
        var r :| r in refs[..i] && r in catalogue && c in catalogue[r].has;
        assert r in refs[..i + 1];
      }
      assert refs[i] in refs[..i + 1];
    }
  }

  // ---- Which of them runs ----

  /** How many candidates a visit tries: a bound of none or less is only the length of the list. */
  function Limit(list: seq<Ref>, bound: int): nat {
    if 0 < bound < |list| then bound else |list|
  }

  datatype Choice = Run(ref: Ref) | Defer(until: Time, exhausted: bool) | Mistake

  /** The candidate `stays` transient failures pick, or how long to wait for one. */
  function Choose(resolved: Result<seq<Ref>, Unresolved>, stays: int, bound: int, now: Time, wait: Time): Choice {
    match resolved
    case Err(Limited(resetsAt)) => Defer(if resetsAt.Some? then resetsAt.value else now + wait, false)
    case Err(_) => Mistake
    case Ok(list) =>
      if stays < 0 then Mistake
      else if stays >= Limit(list, bound) then Defer(now + wait, true)
      else Run(list[stays])
  }

  /** What follows a transient failure: a wait if the tier has run out with it, and otherwise to stay. */
  function Failed(resolved: Result<seq<Ref>, Unresolved>, stays: int, bound: int, now: Time, wait: Time): Option<Time> {
    var next := Choose(resolved, stays + 1, bound, now, wait);
    if next.Defer? && next.exhausted then Some(next.until) else None
  }

  datatype Ended = Answered | SessionGone | TransientFailure | Broken

  datatype Attempted = Replied | Stays | Defers(until: Time) | Errs

  /** Every candidate that may be tried has failed, this one with it. */
  predicate TierIsOut(resolved: Result<seq<Ref>, Unresolved>, stays: int, bound: int) {
    resolved.Ok? && stays + 1 >= 0 && (stays + 1 >= |resolved.value| || (bound > 0 && stays + 1 >= bound))
  }

  /** What one candidate's session comes to, when the model ran `ran` times and the last of them ended as `ended`: its reply
      exactly if that answered; a wait exactly if that failed transiently with nobody left to try; a stay if somebody is. */
  predicate RunSays(resolved: Result<seq<Ref>, Unresolved>, stays: int, bound: int, now: Time, wait: Time,
                    ran: nat, ended: Ended, out: Attempted) {
    && (out.Replied? <==> ran > 0 && ended.Answered?)
    && (out.Stays? <==> ran > 0 && ended.TransientFailure? && !TierIsOut(resolved, stays, bound))
    && (out.Defers? <==> ran > 0 && ended.TransientFailure? && TierIsOut(resolved, stays, bound))
    && (out.Defers? ==> out.until == now + wait)
  }

  /** The candidate that runs, or what there is instead. */
  lemma ChoiceIs(resolved: Result<seq<Ref>, Unresolved>, stays: int, bound: int, now: Time, wait: Time)
    ensures var c := Choose(resolved, stays, bound, now, wait);
            && (c.Run? <==> resolved.Ok? && 0 <= stays < |resolved.value| && (bound > 0 ==> stays < bound))
            && (c.Run? ==> c.ref == resolved.value[stays])
            && (c.Defer? <==> (resolved.Err? && resolved.error.Limited?) || (stays >= 0 && TierIsOut(resolved, stays - 1, bound)))
            && (c.Defer? ==> c.exhausted == resolved.Ok?)
            && (c.Defer? ==> c.until == if resolved.Err? && resolved.error.resetsAt.Some? then resolved.error.resetsAt.value else now + wait)
  {
  }

  /** One candidate's session. A long one, or one that is gone, is run afresh: the model may run twice, and the last run
      decides. `freshPrompt` is whether a fresh prompt can be made. */
  method RunOne(resolved: Result<seq<Ref>, Unresolved>, stays: int, bound: int, now: Time, wait: Time,
                continues: bool, last: int, freshAt: int, freshPrompt: bool, first: Ended, second: Ended)
    returns (out: Attempted, ran: nat)
    ensures ran <= 2
    ensures ran == 2 <==> (first.SessionGone? && freshPrompt)
    ensures ran == 0 <==> (continues && freshAt > 0 && last > freshAt && !freshPrompt)
    ensures RunSays(resolved, stays, bound, now, wait, ran, if ran == 2 then second else first, out)
  {
    if continues && freshAt > 0 && last > freshAt && !freshPrompt {
      return Errs, 0;
    }
    var ended := first;
    ran := 1;
    if ended.SessionGone? {
      if !freshPrompt {
        return Errs, 1;
      }
      ended, ran := second, 2;
    }
    if ended.TransientFailure? {
      var until := Failed(resolved, stays, bound, now, wait);
      return if until.Some? then Defers(until.value) else Stays, ran;
    }
    out := if ended.Answered? then Replied else Errs;
  }

  // ---- A visit to the session's state ----

  datatype Leaving = WithReply | ToWait

  /** The job in one visit: its stays, the candidates that failed transiently, in order, and how it left. */
  datatype Visit = Visit(stays: nat, failed: seq<Ref>, left: Option<Leaving>)

  /** One run of the job in the state, with the runner's counts: a stay is counted, an error is not one. */
  function Visited(v: Visit, list: seq<Ref>, bound: int, ended: Ended, now: Time, wait: Time): Visit {
    if v.left.Some? then v
    else
      match Choose(Ok(list), v.stays, bound, now, wait)
      case Defer(_, _) => v.(left := Some(ToWait))
      case Mistake => v
      case Run(ref) =>
        match ended {
          case Answered => v.(left := Some(WithReply))
          case TransientFailure =>
            var tried := v.(failed := v.failed + [ref]);
            if Failed(Ok(list), v.stays, bound, now, wait).Some? then tried.(left := Some(ToWait)) else tried.(stays := v.stays + 1)
          case _ => v
        }
  }

  function Visiting(list: seq<Ref>, bound: int, ends: seq<Ended>, nows: seq<Time>, wait: Time): Visit
    requires |nows| == |ends|
  {
    if ends == [] then Visit(0, [], None)
    else
      var last := |ends| - 1;
      Visited(Visiting(list, bound, ends[..last], nows[..last], wait), list, bound, ends[last], nows[last], wait)
  }

  /** However a visit's runs end, and whenever they are: the transient failures fall on the first candidates, in order
      and once each; errors that are not the model's move nothing on; and the job waits exactly once as many have failed
      as may be tried. */
  lemma {:induction false} FailuresMoveOnInOrder(list: seq<Ref>, bound: int, ends: seq<Ended>, nows: seq<Time>, wait: Time)
    requires list != [] && |nows| == |ends|
    ensures var v := Visiting(list, bound, ends, nows, wait);
            && |v.failed| <= Limit(list, bound)
            && v.failed == list[..|v.failed|]
            && (v.left == Some(ToWait) <==> |v.failed| == Limit(list, bound))
            && (v.left == Some(ToWait) <==> |v.failed| == |list| || (bound > 0 && |v.failed| == bound))
            && (v.left != Some(ToWait) ==> v.stays == |v.failed|)
  {
    if ends != [] {
      var last := |ends| - 1;
      FailuresMoveOnInOrder(list, bound, ends[..last], nows[..last], wait);
      var v := Visiting(list, bound, ends[..last], nows[..last], wait);
      var k := |v.failed|;
      assert k < |list| ==> list[..k] + [list[k]] == list[..k + 1];
    }
  }

  /** And it leaves with a reply at the first answer, unless it had left: the number of failures is how many runs ended so
      before either. */
  ghost function Failures(ends: seq<Ended>): nat {
    if ends == [] then 0 else Failures(ends[..|ends| - 1]) + (if ends[|ends| - 1].TransientFailure? then 1 else 0)
  }

  lemma {:induction false} FailuresAreCounted(list: seq<Ref>, bound: int, ends: seq<Ended>, nows: seq<Time>, wait: Time)
    requires list != [] && |nows| == |ends|
    requires Answered !in ends
    ensures var v := Visiting(list, bound, ends, nows, wait);
            && v.left != Some(WithReply)
            && |v.failed| == (if Failures(ends) < Limit(list, bound) then Failures(ends) else Limit(list, bound))
  {
    if ends != [] {
      var last := |ends| - 1;
      FailuresAreCounted(list, bound, ends[..last], nows[..last], wait);
      FailuresMoveOnInOrder(list, bound, ends[..last], nows[..last], wait);
      assert ends[last] in ends && ends[last] != Answered;
      var v := Visiting(list, bound, ends[..last], nows[..last], wait);
      assert v.left.Some? && v.left.value.WithReply? ==> v.left == Some(WithReply);
      assert v.left.None? ==> Choose(Ok(list), v.stays, bound, nows[last], wait) == Run(list[v.stays]);
    }
  }

  /** What a candidate's session, run in the visit, makes of it. */
  function Took(v: Visit, list: seq<Ref>, out: Attempted): Visit
    requires v.stays < |list|
  {
    match out
    case Replied => v.(left := Some(WithReply))
    case Stays => v.(failed := v.failed + [list[v.stays]], stays := v.stays + 1)
    case Defers(_) => v.(failed := v.failed + [list[v.stays]], left := Some(ToWait))
    case Errs => v
  }

  /** A visit takes its runs as they come. */
  lemma AVisitIsItsRuns(v: Visit, list: seq<Ref>, bound: int, now: Time, wait: Time, ran: nat, ended: Ended, out: Attempted)
    requires v.left.None? && v.stays < |list| && (bound > 0 ==> v.stays < bound)
    requires RunSays(Ok(list), v.stays, bound, now, wait, ran, ended, out)
    ensures Took(v, list, out) == Visited(v, list, bound, if ran > 0 then ended else Broken, now, wait)
  {
  }

  lemma {:induction false} LeftForGood(list: seq<Ref>, bound: int, ends: seq<Ended>, nows: seq<Time>, wait: Time, k: nat)
    requires |nows| == |ends| && k <= |ends| && Visiting(list, bound, ends[..k], nows[..k], wait).left.Some?
    ensures Visiting(list, bound, ends, nows, wait) == Visiting(list, bound, ends[..k], nows[..k], wait)
    decreases |ends|
  {
    if k < |ends| {
      var last := |ends| - 1;
      assert ends[..last][..k] == ends[..k] && nows[..last][..k] == nows[..k];
      LeftForGood(list, bound, ends[..last], nows[..last], wait, k);
    } else {
      assert ends[..k] == ends && nows[..k] == nows;
    }
  }

  lemma NotLeft(left: Option<Leaving>)
    ensures left != Some(WithReply) && left != Some(ToWait) ==> left.None?
  {
    assert left.Some? ==> left.value.WithReply? || left.value.ToWait?;
  }

  /** A visit leaves with a reply at its first answer, unless every candidate that may be tried had failed before it; and
      then the job was waiting already. */
  lemma TheFirstAnswerIsTheReply(list: seq<Ref>, bound: int, ends: seq<Ended>, nows: seq<Time>, wait: Time, k: nat)
    requires list != [] && |nows| == |ends| && k < |ends| && ends[k] == Answered && Answered !in ends[..k]
    ensures var v := Visiting(list, bound, ends, nows, wait);
            && v.left == Some(if Failures(ends[..k]) < Limit(list, bound) then WithReply else ToWait)
            && |v.failed| == if Failures(ends[..k]) < Limit(list, bound) then Failures(ends[..k]) else Limit(list, bound)
  {
    var before := Visiting(list, bound, ends[..k], nows[..k], wait);
    FailuresAreCounted(list, bound, ends[..k], nows[..k], wait);
    FailuresMoveOnInOrder(list, bound, ends[..k], nows[..k], wait);
    assert ends[..k + 1][..k] == ends[..k] && nows[..k + 1][..k] == nows[..k];
    var at := Visiting(list, bound, ends[..k + 1], nows[..k + 1], wait);
    assert at == Visited(before, list, bound, Answered, nows[k], wait);
    if Failures(ends[..k]) < Limit(list, bound) {
      NotLeft(before.left);
      assert Choose(Ok(list), before.stays, bound, nows[k], wait).Run?;
    }
    LeftForGood(list, bound, ends, nows, wait, k + 1);
  }
}
