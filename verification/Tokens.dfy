/** The resource tokens a transition holds while it runs: permits of a fixed number for each name, taken in name order
    (internal/transition/tokens.go). */
module Tokens {
  import opened Base
  import opened Order

  type Token = string

  // ---- The order tokens are taken in ----

  ghost predicate Ordered(names: seq<Token>) {
    forall i, j :: 0 <= i < j < |names| ==> !Less(names[j], names[i])
  }

  function Insert(name: Token, names: seq<Token>): seq<Token> {
    if names == [] || !Less(names[0], name) then [name] + names
    else [names[0]] + Insert(name, names[1..])
  }

  function Sort(names: seq<Token>): seq<Token> {
    if names == [] then [] else Insert(names[0], Sort(names[1..]))
  }

  lemma FirstFits(name: Token, names: seq<Token>)
    requires Ordered(names) && names != [] && !Less(names[0], name)
    ensures Ordered([name] + names)
  {
    var all := [name] + names;
    forall i, j | 0 <= i < j < |all| ensures !Less(all[j], all[i]) {
      if i == 0 && Less(all[j], name) {
        var other := names[j - 1];
        assert j > 1 ==> !Less(names[j - 1], names[0]);
        LessIsTotal(names[0], name);
        LessIsTotal(names[0], other);
        LessIsTotal(name, other);
        if name != names[0] && other != names[0] {
          LessIsTransitive(name, names[0], other);
        }
      }
    }
  }

  lemma RestIsOrdered(names: seq<Token>)
    requires Ordered(names) && names != []
    ensures Ordered(names[1..]) && forall t :: t in names[1..] ==> !Less(t, names[0])
  {
  }

  lemma NoneBefore(first: Token, rest: seq<Token>)
    requires Ordered(rest) && forall t :: t in rest ==> !Less(t, first)
    ensures Ordered([first] + rest)
  {
    var all := [first] + rest;
    forall i, j | 0 <= i < j < |all| ensures !Less(all[j], all[i]) {
      assert rest[j - 1] in rest;
    }
  }

  lemma {:induction false} InsertKeeps(name: Token, names: seq<Token>)
    requires Ordered(names)
    ensures Ordered(Insert(name, names)) && multiset(Insert(name, names)) == multiset{name} + multiset(names)
    decreases |names|
  {
    if names == [] {
    } else if !Less(names[0], name) {
      FirstFits(name, names);
    } else {
      var rest := Insert(name, names[1..]);
      RestIsOrdered(names);
      InsertKeeps(name, names[1..]);
      assert names == [names[0]] + names[1..];
      LessIsTotal(names[0], name);
      forall t | t in rest ensures !Less(t, names[0]) {
        assert t in multiset(rest);
        assert t == name || t in multiset(names[1..]);
      }
      NoneBefore(names[0], rest);
    }
  }

  /** Sorting keeps every name, as often as it is asked for. */
  lemma {:induction false} SortIsOrdered(names: seq<Token>)
    ensures Ordered(Sort(names)) && multiset(Sort(names)) == multiset(names)
    decreases |names|
  {
    if names != [] {
      SortIsOrdered(names[1..]);
      InsertKeeps(names[0], Sort(names[1..]));
      assert names == [names[0]] + names[1..];
    }
  }

  /** A permit of each of `names` is free at once. */
  ghost predicate Fits(taken: map<Token, nat>, capacity: map<Token, nat>, names: seq<Token>) {
    forall t :: t in names ==> t in taken && t in capacity && taken[t] + multiset(names)[t] <= capacity[t]
  }

  /** `after` has one permit more than `before` taken for each of `names`. */
  ghost predicate Took(before: map<Token, nat>, after: map<Token, nat>, names: seq<Token>) {
    before.Keys == after.Keys && forall t :: t in before ==> after[t] == before[t] + multiset(names)[t]
  }

  lemma FitsSorted(taken: map<Token, nat>, capacity: map<Token, nat>, names: seq<Token>)
    ensures Fits(taken, capacity, names) <==> Fits(taken, capacity, Sort(names))
    ensures forall t :: t in Sort(names) <==> t in names
  {
    SortIsOrdered(names);
    forall t ensures t in Sort(names) <==> t in names {
      assert t in multiset(Sort(names)) <==> t in multiset(names);
    }
  }

  /** The next name's permits are all taken: the names did not fit. */
  lemma NoneLeft(before: map<Token, nat>, taken: map<Token, nat>, capacity: map<Token, nat>, names: seq<Token>, i: nat)
    requires i < |names| && names[i] in taken && names[i] in capacity && taken[names[i]] == capacity[names[i]]
    requires Took(before, taken, names[..i])
    ensures !Fits(before, capacity, names)
  {
    assert names == names[..i] + [names[i]] + names[i + 1..];
    assert names[i] in names;
  }

  lemma UnknownNeverFits(taken: map<Token, nat>, capacity: map<Token, nat>, names: seq<Token>, name: Token)
    requires name in names && name !in capacity
    ensures !Fits(taken, capacity, names)
  {
  }

  lemma TookNone(before: map<Token, nat>, names: seq<Token>)
    ensures Took(before, before, names[..0])
  {
  }

  lemma TookOneMore(before: map<Token, nat>, taken: map<Token, nat>, names: seq<Token>, i: nat)
    requires i < |names| && names[i] in taken && Took(before, taken, names[..i])
    ensures Took(before, taken[names[i] := taken[names[i]] + 1], names[..i + 1])
  {
    assert names[..i + 1] == names[..i] + [names[i]];
  }

  lemma TookOneLess(before: map<Token, nat>, taken: map<Token, nat>, names: seq<Token>, i: nat)
    requires i < |names| && names[i] in taken && Took(before, taken, names[i..])
    ensures taken[names[i]] > 0 && Took(before, taken[names[i] := taken[names[i]] - 1], names[i + 1..])
  {
    assert names[i..] == [names[i]] + names[i + 1..];
  }

  lemma TookNothing(before: map<Token, nat>, taken: map<Token, nat>, names: seq<Token>)
    requires Took(before, taken, names[|names|..])
    ensures taken == before
  {
    assert names[|names|..] == [];
  }

  lemma TookAll(before: map<Token, nat>, taken: map<Token, nat>, names: seq<Token>)
    requires Took(before, taken, names[..|names|])
    ensures Took(before, taken, names)
  {
    assert names[..|names|] == names;
  }

  // ---- The pool ----

  datatype Acquired = Holding(names: seq<Token>) | Unknown(name: Token) | GaveUp(name: Token)

  class Pool {
    const capacity: map<Token, nat>
    var permits: map<Token, nat>       // the permits taken of each token

    ghost predicate Valid() reads this {
      permits.Keys == capacity.Keys && forall t :: t in permits ==> permits[t] <= capacity[t]
    }

    /** The pool of `capacity`, all of its permits free. */
    constructor (capacity: map<Token, nat>)
      requires forall t :: t in capacity ==> t != "" && capacity[t] >= 1
      ensures Valid() && this.capacity == capacity
      ensures forall t :: t in permits ==> permits[t] == 0
    {
      this.capacity := capacity;
      this.permits := map t | t in capacity :: 0;
    }

    /** A new pool, or nothing for a capacity with no name, or that nothing could ever hold. */
    static method New(capacity: map<Token, int>) returns (pool: Option<Pool>)
      ensures pool.Some? <==> forall t :: t in capacity ==> t != "" && capacity[t] >= 1
      ensures pool.Some? ==> fresh(pool.value) && pool.value.Valid() && pool.value.capacity == capacity
    {
      if t :| t in capacity && (t == "" || capacity[t] < 1) {
        return None;
      }
      var counts: map<Token, nat> := map t | t in capacity :: capacity[t];
      var p := new Pool(counts);
      pool := Some(p);
    }

    /** Every name, one after the other, in order. `patience(i)` is whether the `i`th was waited for until it was free:
        without it, one that is not free is given up on. Either all are held, or none. */
    method Acquire(names: seq<Token>, patience: nat -> bool) returns (got: Acquired)
      requires Valid()
      modifies this
      ensures Valid()
      ensures got.Holding? ==> got.names == Sort(names) && (forall t :: t in names ==> t in capacity) && Took(old(permits), permits, Sort(names))
      ensures !got.Holding? ==> permits == old(permits)
      ensures got.Unknown? ==> got.name in names && got.name !in capacity
      ensures got.GaveUp? ==> got.name in names && got.name in capacity
      ensures Fits(old(permits), capacity, names) && (forall i :: patience(i)) ==> got.Holding?
    {
      hide Took, Fits, Sort;
      var ordered := Sort(names);
      FitsSorted(permits, capacity, names);
      TookNone(permits, ordered);
      for i := 0 to |ordered|
        invariant Valid()
        invariant forall k :: 0 <= k < i ==> ordered[k] in capacity
        invariant Took(old(permits), permits, ordered[..i])
      {
        var name := ordered[i];
        assert name in ordered;
        if name !in permits {
          UnknownNeverFits(old(permits), capacity, ordered, name);
          GiveBack(ordered[..i], old(permits));
          return Unknown(name);
        }
        if permits[name] == capacity[name] || !patience(i) {
          if permits[name] == capacity[name] {
            NoneLeft(old(permits), permits, capacity, ordered, i);
          }
          GiveBack(ordered[..i], old(permits));
          return GaveUp(name);
        }
        TookOneMore(old(permits), permits, ordered, i);
        permits := permits[name := permits[name] + 1];
      }
      TookAll(old(permits), permits, ordered);
      got := Holding(ordered);
    }

    /** One permit of each of `held` given back. */
    method GiveBack(held: seq<Token>, ghost before: map<Token, nat>)
      requires Valid() && (forall t :: t in held ==> t in capacity)
      requires Took(before, permits, held)
      modifies this
      ensures Valid() && permits == before
    {
      hide Took;
      for i := 0 to |held|
        invariant Valid()
        invariant Took(before, permits, held[i..])
      {
        TookOneLess(before, permits, held, i);
        permits := permits[held[i] := permits[held[i]] - 1];
      }
      TookNothing(before, permits, held);
    }
  }
}
