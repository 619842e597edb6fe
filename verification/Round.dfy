/** The rounds of an effect that is read back: the keys <stem>-0, <stem>-1, ... under which it is made again when it is
    found missing (internal/transition/round.go). */
module Round {
  import opened Base
  import opened Store
  import Decimal

  type Stem = string

  function RoundKey(stem: Stem, i: nat): Key {
    stem + "-" + Decimal.Print(i)
  }

  /** No two rounds share a key, whether of one stem or of two. */
  lemma RoundKeysAreDistinct(a: Stem, i: nat, b: Stem, j: nat)
    requires RoundKey(a, i) == RoundKey(b, j)
    ensures a == b && i == j
  {
    DashIsLast(a, i);
    DashIsLast(b, j);
    var s := RoundKey(a, i);
    assert |a| == |b|;
    assert a == s[..|a|] && Decimal.Print(i) == s[|a| + 1..];
    assert b == s[..|b|] && Decimal.Print(j) == s[|b| + 1..];
    Decimal.PrintReadsBack(i);
    Decimal.PrintReadsBack(j);
  }

  /** A round's number has no dash of its own, so the last dash of a key is the one before it. */
  lemma DashIsLast(stem: Stem, i: nat)
    ensures var s := RoundKey(stem, i); s[|stem|] == '-' && forall n :: |stem| < n < |s| ==> s[n] != '-'
  {
    var s, p := RoundKey(stem, i), Decimal.Print(i);
    forall n | |stem| < n < |s| ensures s[n] != '-' {
      assert s[n] == p[n - |stem| - 1];
    }
  }

  /** A bound below one is one. */
  function Allowance(bound: int): (r: nat)
    ensures r >= 1
  {
    if bound < 1 then 1 else bound
  }

  /** Rounds from..i of `stem` are all reserved. */
  ghost predicate ReservedUpTo(keys: map<Key, JobId>, stem: Stem, from: nat, i: nat) {
    forall j :: from <= j < i ==> RoundKey(stem, j) in keys
  }

  /** Exactly the rounds below `k` are reserved. */
  ghost predicate Segment(keys: map<Key, JobId>, stem: Stem, k: nat) {
    forall j: nat :: RoundKey(stem, j) in keys <==> j < k
  }

  datatype Spent = Spent(stem: Stem, rounds: nat, next: nat)

  /** The first unreserved round of `limit` from `from`. */
  function Free(keys: map<Key, JobId>, stem: Stem, from: nat, limit: nat): (r: Option<nat>)
    ensures r.Some? ==> from <= r.value < from + limit && RoundKey(stem, r.value) !in keys && ReservedUpTo(keys, stem, from, r.value)
    ensures r.None? ==> ReservedUpTo(keys, stem, from, from + limit)
    decreases limit
  {
    if limit == 0 then None
    else if RoundKey(stem, from) !in keys then Some(from)
    else Free(keys, stem, from + 1, limit - 1)
  }

  method Round(store: SqliteStore, stem: Stem, from: nat, bound: int) returns (r: Result<nat, Spent>)
    ensures r == match Free(store.keys, stem, from, Allowance(bound))
                 case Some(i) => Ok(i)
                 case None => Err(Spent(stem, Allowance(bound), from + Allowance(bound)))
  {
    var limit := Allowance(bound);
    var i := from;
    while i < from + limit
      invariant from <= i <= from + limit
      invariant Free(store.keys, stem, from, limit) == Free(store.keys, stem, i, from + limit - i)
    {
      var reserved := store.Reserved(RoundKey(stem, i));
      if !reserved {
        return Ok(i);
      }
      i := i + 1;
    }
    r := Err(Spent(stem, limit, from + limit));
  }

  /** Where a new allowance starts: the first round no commit has reserved. It is found, since the reserved keys are
      finite and no two rounds share one. */
  method Next(store: SqliteStore, stem: Stem) returns (i: nat)
    ensures RoundKey(stem, i) !in store.keys && ReservedUpTo(store.keys, stem, 0, i)
  {
    i := 0;
    var reserved := store.Reserved(RoundKey(stem, i));
    while reserved
      invariant ReservedUpTo(store.keys, stem, 0, i) && (reserved <==> RoundKey(stem, i) in store.keys)
      decreases |store.keys| - i, reserved
    {
      SpentRoundsFit(store.keys, stem, i + 1);
      i := i + 1;
      reserved := store.Reserved(RoundKey(stem, i));
    }
  }

  lemma SpentRoundsFit(keys: map<Key, JobId>, stem: Stem, n: nat)
    requires ReservedUpTo(keys, stem, 0, n)
    ensures n <= |keys|
  {
    var rounds := set j | 0 <= j < n :: RoundKey(stem, j);
    RoundsAreAsMany(stem, n);
    assert rounds <= keys.Keys;
    SubsetIsSmaller(rounds, keys.Keys);
  }

  lemma {:induction false} RoundsAreAsMany(stem: Stem, n: nat)
    ensures |set j | 0 <= j < n :: RoundKey(stem, j)| == n
  {
    var rounds := set j | 0 <= j < n :: RoundKey(stem, j);
    if n > 0 {
      var fewer := set j | 0 <= j < n - 1 :: RoundKey(stem, j);
      RoundsAreAsMany(stem, n - 1);
      if RoundKey(stem, n - 1) in fewer {
        var j :| 0 <= j < n - 1 && RoundKey(stem, j) == RoundKey(stem, n - 1);
        RoundKeysAreDistinct(stem, j, stem, n - 1);
      }
      assert rounds == fewer + {RoundKey(stem, n - 1)};
    }
  }

  lemma {:induction false} SubsetIsSmaller<T>(a: set<T>, b: set<T>)
    requires a <= b
    ensures |a| <= |b|
    decreases a
  {
    if a != {} {
      var x :| x in a;
      SubsetIsSmaller(a - {x}, b - {x});
    }
  }

  /** Reserved rounds stay an initial segment: the round a caller at or below the segment's end gets is that end, and
      reserving it moves the end by one, for its own stem and for no other. */
  lemma ReservingARoundKeepsSegments(keys: map<Key, JobId>, stem: Stem, k: nat, from: nat, i: nat, id: JobId, other: Stem, m: nat)
    requires Segment(keys, stem, k) && from <= k
    requires from <= i && RoundKey(stem, i) !in keys && ReservedUpTo(keys, stem, from, i)
    requires other != stem && Segment(keys, other, m)
    ensures i == k
    ensures Segment(Reserving(keys, [RoundKey(stem, i)], id), stem, k + 1)
    ensures Segment(Reserving(keys, [RoundKey(stem, i)], id), other, m)
  {
    assert i > k ==> RoundKey(stem, k) in keys;
    assert i == k;
    var after := Reserving(keys, [RoundKey(stem, i)], id);
    forall j: nat ensures RoundKey(stem, j) in after <==> j < k + 1 {
      if RoundKey(stem, j) == RoundKey(stem, i) {
        RoundKeysAreDistinct(stem, j, stem, i);
      }
    }
    forall j: nat ensures RoundKey(other, j) in after <==> j < m {
      if RoundKey(other, j) == RoundKey(stem, i) {
        RoundKeysAreDistinct(other, j, stem, i);
      }
    }
  }

  /** In a segment, the free round of an allowance that starts in it is its end, if the allowance reaches that far; and
      an allowance that is spent ends inside the segment, so what follows it starts in the segment too. */
  lemma FreeInSegment(keys: map<Key, JobId>, stem: Stem, k: nat, from: nat, limit: nat)
    requires Segment(keys, stem, k) && from <= k
    ensures Free(keys, stem, from, limit) == if k < from + limit then Some(k) else None
    ensures Free(keys, stem, from, limit).None? ==> from + limit <= k
  {
    var r := Free(keys, stem, from, limit);
    if r.Some? {
      assert r.value > k ==> RoundKey(stem, k) in keys;
    } else if limit > 0 {
      assert RoundKey(stem, from + limit - 1) in keys;
    }
  }
}
