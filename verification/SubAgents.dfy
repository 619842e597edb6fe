/** What a run's sub-agents spent: the sessions they ran in, and those their own sub-agents ran in, each read once
    (internal/opencode/opencode.go). A session that cannot be read is in no map of them. */
module SubAgents {

  type Id = string

  datatype Tokens = Tokens(input: int, output: int, reasoning: int, cacheRead: int, cacheWrite: int) {
    function Plus(t: Tokens): Tokens {
      Tokens(input + t.input, output + t.output, reasoning + t.reasoning, cacheRead + t.cacheRead, cacheWrite + t.cacheWrite)
    }
  }

  const NONE := Tokens(0, 0, 0, 0, 0)

  datatype Part = Part(tool: string, session: Id)

  datatype Session = Session(tokens: Tokens, messages: seq<seq<Part>>)

  type Sessions = map<Id, Session>

  /** The session a task ran its sub-agent in, or empty for any other part. */
  function Child(p: Part): Id {
    if p.tool != "task" then "" else p.session
  }

  function ChildrenOf(parts: seq<Part>): seq<Id> {
    if parts == [] then []
    else (if Child(parts[0]) == "" then [] else [Child(parts[0])]) + ChildrenOf(parts[1..])
  }

  function Children(messages: seq<seq<Part>>): seq<Id> {
    if messages == [] then [] else ChildrenOf(messages[0]) + Children(messages[1..])
  }

  // ---- What is reached ----

  /** One session can be read, and names the other. */
  predicate Names(sessions: Sessions, id: Id, child: Id) {
    id in sessions && child in Children(sessions[id].messages)
  }

  /** A walk from the run: each session on it is readable, and names the next. */
  ghost predicate Walk(sessions: Sessions, from: seq<Id>, walk: seq<Id>) {
    && walk != [] && walk[0] in from
    && forall k :: 0 < k < |walk| ==> Names(sessions, walk[k - 1], walk[k])
  }

  ghost predicate Reached(sessions: Sessions, from: seq<Id>, id: Id) {
    exists walk :: Walk(sessions, from, walk) && walk[|walk| - 1] == id
  }

  lemma RunsReach(sessions: Sessions, from: seq<Id>, id: Id)
    requires id in from
    ensures Reached(sessions, from, id)
  {
    assert Walk(sessions, from, [id]);
  }

  lemma SessionsReach(sessions: Sessions, from: seq<Id>, id: Id, child: Id)
    requires Reached(sessions, from, id) && Names(sessions, id, child)
    ensures Reached(sessions, from, child)
  {
    var walk :| Walk(sessions, from, walk) && walk[|walk| - 1] == id;
    var longer := walk + [child];
    forall k | 0 < k < |longer| ensures Names(sessions, longer[k - 1], longer[k]) {
      assert longer[k - 1] == walk[k - 1] && longer[k] == if k < |walk| then walk[k] else child;
      assert k < |walk| ==> Names(sessions, walk[k - 1], walk[k]);
    }
    assert Walk(sessions, from, longer);
  }

  /** Nothing a member names is left out. */
  ghost predicate Closed(sessions: Sessions, from: seq<Id>, within: set<Id>) {
    && (forall id :: id in from ==> id in within)
    && forall id, child :: id in within && Names(sessions, id, child) ==> child in within
  }

  lemma {:induction false} ClosedHasWalk(sessions: Sessions, from: seq<Id>, within: set<Id>, walk: seq<Id>, k: nat)
    requires Closed(sessions, from, within) && Walk(sessions, from, walk) && k < |walk|
    ensures walk[k] in within
    decreases k
  {
    if k > 0 {
      ClosedHasWalk(sessions, from, within, walk, k - 1);
    }
  }

  lemma ClosedHasReached(sessions: Sessions, from: seq<Id>, within: set<Id>)
    requires Closed(sessions, from, within)
    ensures forall id :: Reached(sessions, from, id) ==> id in within
  {
    forall id | Reached(sessions, from, id) ensures id in within {
      var walk :| Walk(sessions, from, walk) && walk[|walk| - 1] == id;
      ClosedHasWalk(sessions, from, within, walk, |walk| - 1);
    }
  }

  // ---- What is spent ----

  function TokensOf(sessions: Sessions, id: Id): Tokens {
    if id in sessions then sessions[id].tokens else NONE
  }

  /** The tokens of each readable session in `ids`, once. */
  ghost function Spent(sessions: Sessions, ids: set<Id>): Tokens
    decreases |ids|
  {
    if ids == {} then NONE
    else
      var id :| id in ids;
      Spent(sessions, ids - {id}).Plus(TokensOf(sessions, id))
  }

  lemma SpentFirst(sessions: Sessions, ids: set<Id>) returns (id: Id)
    requires ids != {}
    ensures id in ids && Spent(sessions, ids) == Spent(sessions, ids - {id}).Plus(TokensOf(sessions, id))
  {
    id :| id in ids && Spent(sessions, ids) == Spent(sessions, ids - {id}).Plus(TokensOf(sessions, id));
  }

  /** Whichever is counted last. */
  lemma {:induction false} SpentOneMore(sessions: Sessions, ids: set<Id>, id: Id)
    requires id in ids
    ensures Spent(sessions, ids) == Spent(sessions, ids - {id}).Plus(TokensOf(sessions, id))
    decreases |ids|
  {
    var first := SpentFirst(sessions, ids);
    hide Spent;
    if first != id {
      SpentOneMore(sessions, ids - {first}, id);
      SpentOneMore(sessions, ids - {id}, first);
      assert ids - {first} - {id} == ids - {id} - {first};
    }
  }

  ghost function Unread(sessions: Sessions, ids: set<Id>): set<Id> {
    set id | id in ids && id !in sessions
  }

  // ---- The worklist ----

  /** Every id there is: what the run names, and what any session does. */
  function Universe(sessions: Sessions, from: seq<Id>): set<Id> {
    (set id | id in from) + set s, child | s in sessions && child in Children(sessions[s].messages) :: child
  }

  /** What is met, and what is still to be: nothing but what is reached, and nothing of it lost. */
  ghost predicate Frontier(sessions: Sessions, from: seq<Id>, met: set<Id>, queue: seq<Id>) {
    && (forall id :: id in met || id in queue ==> Reached(sessions, from, id) && id in Universe(sessions, from))
    && (forall id :: id in from ==> id in met || id in queue)
    && (forall id, child :: id in met && Names(sessions, id, child) ==> child in met || child in queue)
  }

  lemma Starts(sessions: Sessions, from: seq<Id>)
    ensures Frontier(sessions, from, {}, from)
  {
    forall id | id in from ensures Reached(sessions, from, id) {
      RunsReach(sessions, from, id);
    }
  }

  lemma Skips(sessions: Sessions, from: seq<Id>, met: set<Id>, queue: seq<Id>)
    requires Frontier(sessions, from, met, queue) && queue != [] && queue[0] in met
    ensures Frontier(sessions, from, met, queue[1..])
  {
    assert queue == [queue[0]] + queue[1..];
  }

  lemma Meets(sessions: Sessions, from: seq<Id>, met: set<Id>, queue: seq<Id>, more: seq<Id>)
    requires Frontier(sessions, from, met, queue) && queue != []
    requires forall child :: child in more <==> Names(sessions, queue[0], child)
    ensures Frontier(sessions, from, met + {queue[0]}, queue[1..] + more)
  {
    var id := queue[0];
    assert queue == [id] + queue[1..];
    forall child | child in more ensures Reached(sessions, from, child) && child in Universe(sessions, from) {
      SessionsReach(sessions, from, id, child);
    }
  }

  lemma AllMet(sessions: Sessions, from: seq<Id>, met: set<Id>)
    requires Frontier(sessions, from, met, [])
    ensures forall id :: id in met <==> Reached(sessions, from, id)
  {
    ClosedHasReached(sessions, from, met);
  }

  lemma {:induction false} ChildrenOfBoth(xs: seq<Part>, ys: seq<Part>)
    ensures ChildrenOf(xs + ys) == ChildrenOf(xs) + ChildrenOf(ys)
    decreases |xs|
  {
    if xs == [] {
      assert xs + ys == ys;
    } else {
      assert (xs + ys)[1..] == xs[1..] + ys;
      ChildrenOfBoth(xs[1..], ys);
    }
  }

  lemma ChildrenOfEnd(parts: seq<Part>, k: nat)
    requires k < |parts|
    ensures ChildrenOf(parts[..k + 1]) == ChildrenOf(parts[..k]) + (if Child(parts[k]) == "" then [] else [Child(parts[k])])
  {
    assert parts[..k + 1] == parts[..k] + [parts[k]];
    ChildrenOfBoth(parts[..k], [parts[k]]);
    assert [parts[k]][1..] == [];
  }

  lemma {:induction false} ChildrenBoth(xs: seq<seq<Part>>, ys: seq<seq<Part>>)
    ensures Children(xs + ys) == Children(xs) + Children(ys)
    decreases |xs|
  {
    if xs == [] {
      assert xs + ys == ys;
    } else {
      assert (xs + ys)[1..] == xs[1..] + ys;
      ChildrenBoth(xs[1..], ys);
    }
  }

  lemma ChildrenEnd(messages: seq<seq<Part>>, k: nat)
    requires k < |messages|
    ensures Children(messages[..k + 1]) == Children(messages[..k]) + ChildrenOf(messages[k])
  {
    assert messages[..k + 1] == messages[..k] + [messages[k]];
    ChildrenBoth(messages[..k], [messages[k]]);
    assert [messages[k]][1..] == [] && Children([]) == [];
  }

  class Reply {
    var tokens: Tokens
    var subAgents: nat
    var unread: nat

    constructor (tokens: Tokens)
      ensures this.tokens == tokens && subAgents == 0 && unread == 0
    {
      this.tokens, subAgents, unread := tokens, 0, 0;
    }

    /** Every session reached from the run through readable ones is counted once, and its tokens added once, whatever
        cycles and repeats there are. */
    method SubAgents(sessions: Sessions, from: seq<Id>) returns (ghost seen: set<Id>)
      modifies this
      ensures forall id :: id in seen <==> Reached(sessions, from, id)
      ensures subAgents == old(subAgents) + |seen|
      ensures unread == old(unread) + |Unread(sessions, seen)|
      ensures tokens == old(tokens).Plus(Spent(sessions, seen))
    {
      hide Frontier, Universe, Reached, Spent, Names, Unread, Children;
      var children := from;
      var met: set<Id> := {};
      ghost var all := Universe(sessions, from);
      Starts(sessions, from);
      SpentNone(sessions);
      assert |Unread(sessions, met)| == 0 by { NoneUnread(sessions); }
      while children != []
        invariant Frontier(sessions, from, met, children)
        invariant subAgents == old(subAgents) + |met| && unread == old(unread) + |Unread(sessions, met)|
        invariant tokens == old(tokens).Plus(Spent(sessions, met))
        decreases |all - met|, |children|
      {
        var id := children[0];
        if id in met {
          Skips(sessions, from, met, children);
          children := children[1..];
          continue;
        }
        Fewer(sessions, from, met, children);
        SpentOneMore(sessions, met + {id}, id);
        assert met + {id} - {id} == met;
        UnreadOneMore(sessions, met, id);
        subAgents := subAgents + 1;
        var more: seq<Id> := [];
        if id !in sessions {
          unread := unread + 1;
        } else {
          tokens := tokens.Plus(sessions[id].tokens);
          more := Named(sessions[id].messages);
        }
        assert forall child :: child in more <==> Names(sessions, id, child) by { NamesAre(sessions, id); }
        Meets(sessions, from, met, children, more);
        met, children := met + {id}, children[1..] + more;
      }
      AllMet(sessions, from, met);
      seen := met;
    }
  }

  lemma NoneUnread(sessions: Sessions)
    ensures Unread(sessions, {}) == {}
  {
  }

  lemma SpentNone(sessions: Sessions)
    ensures Spent(sessions, {}) == NONE
  {
  }

  lemma NamesAre(sessions: Sessions, id: Id)
    ensures forall child :: Names(sessions, id, child) <==> id in sessions && child in Children(sessions[id].messages)
  {
  }

  lemma UnreadOneMore(sessions: Sessions, met: set<Id>, id: Id)
    requires id !in met
    ensures |Unread(sessions, met + {id})| == |Unread(sessions, met)| + if id in sessions then 0 else 1
  {
    assert Unread(sessions, met + {id}) == Unread(sessions, met) + if id in sessions then {} else {id};
  }

  lemma Fewer(sessions: Sessions, from: seq<Id>, met: set<Id>, queue: seq<Id>)
    requires Frontier(sessions, from, met, queue) && queue != [] && queue[0] !in met
    ensures |Universe(sessions, from) - (met + {queue[0]})| < |Universe(sessions, from) - met|
  {
    var all := Universe(sessions, from);
    assert all - met == (all - (met + {queue[0]})) + {queue[0]};
  }

  /** The children of each message's parts, in order. */
  method Named(messages: seq<seq<Part>>) returns (children: seq<Id>)
    ensures children == Children(messages)
  {
    children := [];
    for i := 0 to |messages|
      invariant children == Children(messages[..i])
    {
      ghost var before := children;
      for j := 0 to |messages[i]|
        invariant children == before + ChildrenOf(messages[i][..j])
      {
        ChildrenOfEnd(messages[i], j);
        if Child(messages[i][j]) != "" {
          children := children + [Child(messages[i][j])];
        }
      }
      assert messages[i][..|messages[i]|] == messages[i];
      ChildrenEnd(messages, i);
    }
    assert messages[..|messages|] == messages;
  }
}
