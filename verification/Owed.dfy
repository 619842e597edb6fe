/** What a decision owes the tracker, and the read-back that makes sure the tracker gets it (internal/owed/owed.go).
    An item that never shows is made Rounds times for each attempt at the job, under a key of its own each time. */
module Owed {
  import opened Base
  import opened Store
  import opened Decision
  import opened Round

  /** One thing owed. `from` is the round its allowance counts from. */
  datatype Item = Item(stem: Stem, act: Act, from: nat) {
    predicate Valid() {
      stem != "" && act != Nothing
    }
  }

  /** Where the job goes once every item is on the tracker, and what the items are. */
  datatype Record = Record(next: State, due: bool, items: seq<Item>)

  /** What Owe and Settle decide: an outcome for the runner, or an error, which is a failed attempt. */
  type Decided = Result<Outcome, string>

  ghost predicate DistinctStems(items: seq<Item>) {
    forall i, j :: 0 <= i < j < |items| ==> items[i].stem != items[j].stem
  }

  /** Each item with its allowance starting at the first round no commit has reserved. */
  ghost predicate Allotted(keys: map<Key, JobId>, items: seq<Item>, owed: seq<Item>) {
    && |owed| == |items|
    && forall i :: 0 <= i < |items| ==>
         && owed[i] == items[i].(from := owed[i].from)
         && RoundKey(items[i].stem, owed[i].from) !in keys && ReservedUpTo(keys, items[i].stem, 0, owed[i].from)
  }

  /** The effects of `items`, each under the key of its next free round. */
  ghost predicate MadeAgain(keys: map<Key, JobId>, items: seq<Item>, limit: nat, effects: seq<Effect>) {
    && |effects| == |items|
    && forall i :: 0 <= i < |items| ==>
         var free := Free(keys, items[i].stem, items[i].from, limit);
         free.Some? && effects[i] == Effect(RoundKey(items[i].stem, free.value), items[i].act)
  }

  predicate OutOfRounds(keys: map<Key, JobId>, item: Item, limit: nat) {
    Free(keys, item.stem, item.from, limit).None?
  }

  /** The items with the allowance of each stem in `spent` moved past the rounds it used. */
  function Moved(items: seq<Item>, spent: map<Stem, nat>): (moved: seq<Item>)
    ensures |moved| == |items|
  {
    seq(|items|, i requires 0 <= i < |items| =>
      if items[i].stem in spent then items[i].(from := spent[items[i].stem]) else items[i])
  }

  /** What each spent stem's allowance moves to: past the rounds of the last of `items` with that stem. */
  function SpentOf(keys: map<Key, JobId>, items: seq<Item>, limit: nat): map<Stem, nat> {
    if items == [] then map[]
    else
      var last := items[|items| - 1];
      var before := SpentOf(keys, items[..|items| - 1], limit);
      if OutOfRounds(keys, last, limit) then before[last.stem := last.from + limit] else before
  }

  lemma {:induction false} SpentOfIsExact(keys: map<Key, JobId>, items: seq<Item>, limit: nat, i: nat)
    requires DistinctStems(items) && i < |items|
    ensures items[i].stem in SpentOf(keys, items, limit) <==> OutOfRounds(keys, items[i], limit)
    ensures items[i].stem in SpentOf(keys, items, limit) ==> SpentOf(keys, items, limit)[items[i].stem] == items[i].from + limit
  {
    var last := |items| - 1;
    if i < last {
      SpentOfIsExact(keys, items[..last], limit, i);
    } else {
      SpentStemsAreItems(keys, items[..last], limit);
    }
  }

  lemma {:induction false} SpentStemsAreItems(keys: map<Key, JobId>, items: seq<Item>, limit: nat)
    ensures forall s :: s in SpentOf(keys, items, limit) ==> exists i :: 0 <= i < |items| && items[i].stem == s && OutOfRounds(keys, items[i], limit)
  {
    if items != [] {
      var last := |items| - 1;
      SpentStemsAreItems(keys, items[..last], limit);
      forall s | s in SpentOf(keys, items, limit)
        ensures exists i :: 0 <= i < |items| && items[i].stem == s && OutOfRounds(keys, items[i], limit)
      {
        if s in SpentOf(keys, items[..last], limit) {
          var i :| 0 <= i < last && items[..last][i].stem == s && OutOfRounds(keys, items[..last][i], limit);
          assert items[i].stem == s;
        } else {
          assert items[last].stem == s;
        }
      }
    }
  }

  /** The items the tracker does not show, in order. */
  function Missing(items: seq<Item>, shown: set<Stem>): (m: seq<Item>)
    ensures forall it :: it in m <==> it in items && it.stem !in shown
  {
    if items == [] then []
    else
      var last := |items| - 1;
      Missing(items[..last], shown) + (if items[last].stem in shown then [] else [items[last]])
  }

  lemma MissingMore(front: seq<Item>, it: Item, shown: set<Stem>)
    ensures Missing(front + [it], shown) == Missing(front, shown) + if it.stem in shown then [] else [it]
    ensures Missing([], shown) == []
  {
    assert (front + [it])[..|front|] == front;
  }

  /** In their order: of two stretches of the items, those of the first come first. */
  lemma {:induction false} MissingInOrder(front: seq<Item>, more: seq<Item>, shown: set<Stem>)
    ensures Missing(front + more, shown) == Missing(front, shown) + Missing(more, shown)
    decreases |more|
  {
    hide Missing;
    if more == [] {
      assert front + more == front;
      MissingMore([], Item("", Nothing, 0), shown);
    } else {
      var last := |more| - 1;
      var less, it := more[..last], more[last];
      MissingInOrder(front, less, shown);
      MissingMore(front + less, it, shown);
      MissingMore(less, it, shown);
      assert more == less + [it] && front + more == front + less + [it];
    }
  }

  class Book {
    const store: SqliteStore
    const rounds: int
    var records: map<JobId, Record>

    constructor (store: SqliteStore, rounds: int)
      ensures this.store == store && this.rounds == rounds && records == map[]
    {
      this.store, this.rounds := store, rounds;
      records := map[];
    }

    /** A decision that owes `r`: the record is kept, and its items are the effects of a move to the read-back. */
    method Owe(id: JobId, now: Time, state: State, r: Record) returns (d: Decided)
      modifies this`records
      ensures r.next == "" ==> d.Err?
      ensures r.next != "" && r.items == [] ==> d == Ok(Outcome(r.next, if r.due then Some(now) else None, []))
      ensures r.next != "" && (exists i :: 0 <= i < |r.items| && !r.items[i].Valid()) ==> d.Err?
      ensures d.Err? || r.items == [] ==> records == old(records)
      ensures d.Ok? && r.items != [] ==>
                && id in records && records == old(records)[id := r.(items := records[id].items)]
                && Allotted(store.keys, r.items, records[id].items)
                && MadeAgain(store.keys, records[id].items, Allowance(rounds), d.value.effects)
                && d.value.state == state && d.value.runAt == Some(now)
    {
      if r.next == "" {
        return Err("no next state");
      }
      if r.items == [] {
        return Ok(Outcome(r.next, if r.due then Some(now) else None, []));
      }
      var owed: seq<Item> := [];
      for i := 0 to |r.items|
        invariant Allotted(store.keys, r.items[..i], owed)
        invariant forall j :: 0 <= j < i ==> r.items[j].Valid()
        invariant records == old(records)
      {
        if !r.items[i].Valid() {
          return Err("malformed item");
        }
        var from := Next(store, r.items[i].stem);
        owed := owed + [r.items[i].(from := from)];
      }
      assert r.items[..|r.items|] == r.items;
      forall i | 0 <= i < |owed| ensures !OutOfRounds(store.keys, owed[i], Allowance(rounds)) {
        assert RoundKey(owed[i].stem, owed[i].from) !in store.keys;
      }
      ghost var before := records;
      records := records[id := r.(items := owed)];
      var made := Effects(id, r.(items := owed), owed);
      NothingSpent(store.keys, owed, Allowance(rounds));
      d := Ok(Outcome(state, Some(now), made.value));
    }

    /** Each item's effect under its next round's key. An item out of rounds is an error, and its allowance moves on in
        the record first. */
    method Effects(id: JobId, r: Record, items: seq<Item>) returns (made: Result<seq<Effect>, string>)
      modifies this`records
      ensures made.Ok? <==> SpentOf(store.keys, items, Allowance(rounds)) == map[]
      ensures made.Ok? ==> records == old(records) && MadeAgain(store.keys, items, Allowance(rounds), made.value)
      ensures made.Err? ==>
                records == old(records)[id := r.(items := Moved(r.items, SpentOf(store.keys, items, Allowance(rounds))))]
    {
      hide MadeAgain, SpentOf, RoundKey, Free;
      var limit := Allowance(rounds);
      var effects: seq<Effect> := [];
      MadeNone(store.keys, items, limit);
      assert SpentOf(store.keys, items[..0], limit) == map[] by { NothingSpent(store.keys, items[..0], limit); }
      var spent: map<Stem, nat> := map[];
      for n := 0 to |items|
        invariant records == old(records)
        invariant spent == SpentOf(store.keys, items[..n], limit)
        invariant spent == map[] ==> MadeAgain(store.keys, items[..n], limit, effects)
      {
        var it := items[n];
        SpentOneMore(store.keys, items, n, limit);
        if spent == map[] && !OutOfRounds(store.keys, it, limit) {
          MadeOneMore(store.keys, items, n, limit, effects);
        }
        var round := Round.Round(store, it.stem, it.from, rounds);
        match round
        case Ok(i) =>
          effects := effects + [Effect(RoundKey(it.stem, i), it.act)];
        case Err(e) =>
          spent := spent[it.stem := e.next];
          assert it.stem in spent;
      }
      assert items[..|items|] == items;
      if spent != map[] {
        records := records[id := r.(items := Moved(r.items, spent))];
        return Err("rounds spent");
      }
      made := Ok(effects);
    }

    /** The read-back: on to the record's next state once every item is `shown`, and round again for those that are
        not. `lost` is where the job goes with no record to read. */
    method Settle(id: JobId, now: Time, state: State, shown: set<Stem>, lost: Outcome) returns (d: Decided)
      modifies this`records
      ensures id !in old(records) ==> d == Ok(lost) && records == old(records)
      ensures id in old(records) ==>
                var r := old(records)[id];
                var missing := Missing(r.items, shown);
                var spent := SpentOf(store.keys, missing, Allowance(rounds));
                && (missing == [] ==> d == Ok(Outcome(r.next, if r.due then Some(now) else None, []))
                                      && records == map k | k in old(records) && k != id :: old(records)[k])
                && (missing != [] && spent == map[] ==>
                      d.Ok? && d.value.state == state && d.value.runAt == Some(now)
                      && MadeAgain(store.keys, missing, Allowance(rounds), d.value.effects) && records == old(records))
                && (missing != [] && spent != map[] ==>
                      d.Err? && records == old(records)[id := r.(items := Moved(r.items, spent))])
    {
      if id !in records {
        return Ok(lost);
      }
      hide MadeAgain, SpentOf, Moved, Missing;
      var r := records[id];
      var missing := NotShown(r.items, shown);
      if missing == [] {
        records := map k | k in records && k != id :: records[k];
        return Ok(Outcome(r.next, if r.due then Some(now) else None, []));
      }
      var made := Effects(id, r, missing);
      d := match made case Ok(effects) => Ok(Outcome(state, Some(now), effects)) case Err(e) => Err(e);
    }
  }

  /** The items the tracker does not show, in order. */
  method NotShown(items: seq<Item>, shown: set<Stem>) returns (missing: seq<Item>)
    ensures missing == Missing(items, shown)
  {
    missing := [];
    for i := 0 to |items|
      invariant missing == Missing(items[..i], shown)
    {
      assert items[..i + 1][..i] == items[..i];
      if items[i].stem !in shown {
        missing := missing + [items[i]];
      }
    }
    assert items[..|items|] == items;
  }

  lemma SpentOneMore(keys: map<Key, JobId>, items: seq<Item>, n: nat, limit: nat)
    requires n < |items|
    ensures var before := SpentOf(keys, items[..n], limit);
            SpentOf(keys, items[..n + 1], limit)
            == if OutOfRounds(keys, items[n], limit) then before[items[n].stem := items[n].from + limit] else before
  {
    assert items[..n + 1][..n] == items[..n];
  }

  lemma MadeOneMore(keys: map<Key, JobId>, items: seq<Item>, n: nat, limit: nat, effects: seq<Effect>)
    requires n < |items| && MadeAgain(keys, items[..n], limit, effects) && !OutOfRounds(keys, items[n], limit)
    ensures MadeAgain(keys, items[..n + 1], limit,
                      effects + [Effect(RoundKey(items[n].stem, Free(keys, items[n].stem, items[n].from, limit).value), items[n].act)])
  {
    hide Free, RoundKey;
    assert items[..n + 1] == items[..n] + [items[n]];
  }

  lemma MadeNone(keys: map<Key, JobId>, items: seq<Item>, limit: nat)
    ensures MadeAgain(keys, items[..0], limit, [])
  {
  }

  lemma {:induction false} NothingSpent(keys: map<Key, JobId>, items: seq<Item>, limit: nat)
    requires forall i :: 0 <= i < |items| ==> !OutOfRounds(keys, items[i], limit)
    ensures SpentOf(keys, items, limit) == map[]
  {
    if items != [] {
      NothingSpent(keys, items[..|items| - 1], limit);
    }
  }
}
