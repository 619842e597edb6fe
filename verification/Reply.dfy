/** A revision's reply: what it says, printed around what the session wrote, and what is read back from it
    (internal/revise/revise_reply.go, internal/owed/owed.go). */
module Reply {
  import opened Base
  import opened Text
  import opened Decimal

  const OPENER := "<!--"
  const CLOSER := "-->"
  const END := " -->"
  const AFK := "<!-- afk:revision"
  const COMMENT := "<!-- afk:revision comment="
  const REVIEW := "<!-- afk:revision pull-request-review="
  const READ := "<!-- afk:revision-read head="

  // ---- What is read back ----

  /** The digits `s` starts with. */
  function DigitRun(s: string): (r: string)
    ensures r <= s && Digits(r) && (|r| < |s| ==> !IsDigit(s[|r|]))
  {
    if s == "" || !IsDigit(s[0]) then "" else [s[0]] + DigitRun(s[1..])
  }

  /** The number between a marker's start, of length `from`, and its end, and where that is. */
  function NumberAt(s: string, from: nat): (r: Option<(string, nat)>)
    requires from <= |s|
    ensures r.Some? ==> from < r.value.1 <= |s| && Digits(r.value.0) && r.value.0 != ""
  {
    var ds := DigitRun(s[from..]);
    if ds != "" && END <= s[from + |ds|..] then Some((ds, from + |ds| + |END|)) else None
  }

  datatype Command = OfComment(digits: string) | OfReview(digits: string)

  /** The command marker `s` starts with, and where it ends. */
  function CommandAt(s: string): (r: Option<(Command, nat)>)
    ensures r.Some? ==> 0 < r.value.1 <= |s| && Digits(r.value.0.digits) && r.value.0.digits != ""
  {
    if COMMENT <= s then
      match NumberAt(s, |COMMENT|)
      case None => None
      case Some((ds, end)) => Some((OfComment(ds), end))
    else if REVIEW <= s then
      match NumberAt(s, |REVIEW|)
      case None => None
      case Some((ds, end)) => Some((OfReview(ds), end))
    else None
  }

  predicate IsRead(c: Command) {
    Digits(c.digits) && c.digits != ""
  }

  predicate AreRead(commands: seq<Command>) {
    forall k :: 0 <= k < |commands| ==> IsRead(commands[k])
  }

  /** Every command marker in a body, from the left. */
  function CommandsIn(body: string): (r: seq<Command>)
    ensures AreRead(r)
    decreases |body|
  {
    if body == "" then []
    else
      match CommandAt(body)
      case None => CommandsIn(body[1..])
      case Some((command, end)) => [command] + CommandsIn(body[end..])
  }

  const MAX_ID := 0x7FFF_FFFF_FFFF_FFFF

  /** A command's id, if it is of the kind: one too large for its type is passed over. */
  function IdOf(c: Command, comments: bool): seq<nat>
    requires IsRead(c)
  {
    if c.OfComment? == comments && Value(c.digits) <= MAX_ID then [Value(c.digits)] else []
  }

  /** The ids of one kind, in order. */
  function Ids(commands: seq<Command>, comments: bool): seq<nat>
    requires AreRead(commands)
  {
    if commands == [] then [] else IdOf(commands[0], comments) + Ids(commands[1..], comments)
  }

  function RevisionCommands(body: string): (seq<nat>, seq<nat>) {
    (Ids(CommandsIn(body), true), Ids(CommandsIn(body), false))
  }

  predicate IsHex(c: char) {
    '0' <= c <= '9' || 'a' <= c <= 'f'
  }

  predicate AllHex(s: string) {
    forall k :: 0 <= k < |s| ==> IsHex(s[k])
  }

  /** A commit's whole name. */
  predicate FullName(s: string) {
    AllHex(s) && (|s| == 40 || |s| == 64)
  }

  predicate NameOf(s: string, n: nat) {
    n <= |s| && AllHex(s[..n]) && END <= s[n..]
  }

  function ReadAt(s: string): Option<string> {
    if !(READ <= s) then None
    else if NameOf(s[|READ|..], 40) then Some(s[|READ|..][..40])
    else if NameOf(s[|READ|..], 64) then Some(s[|READ|..][..64])
    else None
  }

  function RevisionRead(body: string): Option<string> {
    if body == "" then None
    else if ReadAt(body).Some? then ReadAt(body)
    else RevisionRead(body[1..])
  }

  // ---- What is printed ----

  function RevisionMarker(id: nat): string {
    COMMENT + Print(id) + END
  }

  function ReviewMarker(id: nat): string {
    REVIEW + Print(id) + END
  }

  function Markers(points: seq<nat>, reviews: seq<nat>): string {
    if points != [] then RevisionMarker(points[0]) + "\n" + Markers(points[1..], reviews)
    else if reviews != [] then ReviewMarker(reviews[0]) + "\n" + Markers(points, reviews[1..])
    else ""
  }

  function ReplyMarker(n: nat, head: string): string {
    AFK + "-reply pr=" + Print(n) + " head=" + head + END
  }

  function ReadMarker(head: string): string {
    READ + head + END
  }

  // ---- The session's part ----

  /** Without its hidden comments: each from an opener to the first closer after it. */
  function Unhidden(text: string): string
    decreases |text|
  {
    if text == "" then ""
    else if OPENER <= text && Index(text[4..], CLOSER).Some? then Unhidden(text[4 + Index(text[4..], CLOSER).value + 3..])
    else [text[0]] + Unhidden(text[1..])
  }

  /** An opener that hides nothing is shown. */
  function Escaped(text: string): string
    decreases |text|
  {
    if text == "" then ""
    else if OPENER <= text then "&lt;!--" + Escaped(text[4..])
    else [text[0]] + Escaped(text[1..])
  }

  /** No hidden comment opens in it. */
  ghost predicate Plain(s: string) {
    forall k :: !At(s, OPENER, k)
  }

  lemma EscapedFirst(text: string)
    ensures Escaped(text) == "" <==> text == ""
    ensures text != "" && Escaped(text)[0] != '&' ==> Escaped(text) == [text[0]] + Escaped(text[1..])
  {
  }

  // ---- What is hidden, and what is shown ----

  /** Text no comment opens in is left as it is. */
  lemma {:induction false} NothingHidden(text: string)
    requires Plain(text)
    ensures Unhidden(text) == text && Escaped(text) == text
    decreases |text|
  {
    if text != "" {
      assert !At(text, OPENER, 0);
      PlainRest(text);
      NothingHidden(text[1..]);
    }
  }

  lemma PlainRest(text: string)
    requires text != "" && Plain(text)
    ensures Plain(text[1..]) && !(OPENER <= text)
  {
    assert text == [text[0]] + text[1..];
    forall k ensures !At(text[1..], OPENER, k) {
      if 0 <= k {
        AtInTail([text[0]], text[1..], OPENER, k + 1);
      }
    }
    assert !At(text, OPENER, 0);
  }

  lemma OneIsKept(text: string)
    requires text != "" && !At(text, OPENER, 0)
    ensures Unhidden(text) == [text[0]] + Unhidden(text[1..]) && Escaped(text) == [text[0]] + Escaped(text[1..])
  {
    assert !(OPENER <= text);
  }

  /** Nothing opens in the rest of what nothing opens in. */
  lemma NoneAhead(front: string, rest: string)
    requires front != "" && forall k :: 0 <= k < |front| ==> !At(front + rest, OPENER, k)
    ensures (front + rest)[0] == front[0] && (front + rest)[1..] == front[1..] + rest && !At(front + rest, OPENER, 0)
    ensures forall k :: 0 <= k < |front[1..]| ==> !At(front[1..] + rest, OPENER, k)
  {
    var text := front + rest;
    assert text == [front[0]] + (front[1..] + rest);
    forall k | 0 <= k < |front[1..]| ensures !At(front[1..] + rest, OPENER, k) {
      AtInTail([front[0]], front[1..] + rest, OPENER, k + 1);
    }
  }

  lemma CommentAtOnce(inside: string, rest: string)
    requires Index(inside + CLOSER + rest, CLOSER) == Some(|inside|)
    ensures Unhidden(OPENER + (inside + CLOSER + rest)) == Unhidden(rest)
  {
    var text := OPENER + (inside + CLOSER + rest);
    assert OPENER <= text && text[4..] == inside + CLOSER + rest;
    assert text[4 + |inside| + 3..] == rest;
    hide Index;
  }

  /** The first comment that is closed goes, from its opener to the first closer after it, and what is ahead of it stays. */
  lemma {:induction false} CommentGoes(front: string, inside: string, rest: string)
    requires forall k :: 0 <= k < |front| ==> !At(front + (OPENER + (inside + CLOSER + rest)), OPENER, k)
    requires Index(inside + CLOSER + rest, CLOSER) == Some(|inside|)
    ensures Unhidden(front + (OPENER + (inside + CLOSER + rest))) == front + Unhidden(rest)
    decreases |front|
  {
    hide Unhidden, Escaped, Index, At;
    var comment := OPENER + (inside + CLOSER + rest);
    if front == "" {
      assert front + comment == comment;
      CommentAtOnce(inside, rest);
    } else {
      NoneAhead(front, comment);
      OneIsKept(front + comment);
      CommentGoes(front[1..], inside, rest);
      assert front == [front[0]] + front[1..];
    }
  }

  lemma OpenerAtOnce(rest: string)
    ensures Escaped(OPENER + rest) == "&lt;!--" + Escaped(rest)
  {
    assert OPENER <= OPENER + rest && (OPENER + rest)[4..] == rest;
  }

  /** An opener is shown, and what is ahead of it stays. */
  lemma {:induction false} OpenerIsShown(front: string, rest: string)
    requires forall k :: 0 <= k < |front| ==> !At(front + (OPENER + rest), OPENER, k)
    ensures Escaped(front + (OPENER + rest)) == front + "&lt;!--" + Escaped(rest)
    decreases |front|
  {
    hide Unhidden, Escaped, At;
    if front == "" {
      assert front + (OPENER + rest) == OPENER + rest;
      OpenerAtOnce(rest);
    } else {
      NoneAhead(front, OPENER + rest);
      OneIsKept(front + (OPENER + rest));
      OpenerIsShown(front[1..], rest);
      assert front == [front[0]] + front[1..];
    }
  }

  /** Escaping makes no end of an opener that was not there. */
  lemma EscapedStarts(text: string)
    ensures "!--" <= Escaped(text) ==> "!--" <= text
  {
    EscapedFirst(text);
    if "!--" <= Escaped(text) {
      assert Escaped(text)[1..] == Escaped(text[1..]);
      EscapedFirst(text[1..]);
      assert Escaped(text[1..])[1..] == Escaped(text[1..][1..]);
      EscapedFirst(text[1..][1..]);
      assert Escaped(text)[1..][1..][0] == '-';
      assert text[0] == '!' && text[1..][0] == '-' && text[1..][1..] != "" && text[1..][1..][0] == '-';
    }
  }

  lemma NoAngleIsPlain(s: string)
    requires '<' !in s
    ensures Plain(s)
  {
    forall k ensures !At(s, OPENER, k) {
      assert 0 <= k < |s| ==> s[k] in s;
      Differs(s, OPENER, k, 0);
    }
  }

  /** One character ahead of a text without an opener makes none, unless it starts one. */
  lemma PlainAhead(c: char, s: string)
    requires Plain(s) && !(c == '<' && "!--" <= s)
    ensures Plain([c] + s)
  {
    forall k ensures !At([c] + s, OPENER, k) {
      if 0 < k {
        AtInTail([c], s, OPENER, k);
      } else if c != '<' {
        Differs([c] + s, OPENER, k, 0);
      } else if |s| >= 3 {
        Differs([c] + s, OPENER, k, if s[0] != '!' then 1 else if s[1] != '-' then 2 else 3);
      }
    }
  }

  /** Nothing of what is shown hides anything. */
  lemma {:induction false} EscapedIsPlain(text: string)
    ensures Plain(Escaped(text))
    decreases |text|
  {
    if text == "" {
    } else if OPENER <= text {
      EscapedIsPlain(text[4..]);
      NoAngleIsPlain("&lt;!--");
      PlainJoin("&lt;!--", Escaped(text[4..]));
    } else {
      EscapedIsPlain(text[1..]);
      EscapedStarts(text[1..]);
      PlainAhead(text[0], Escaped(text[1..]));
    }
  }

  predicate OpensOn(c: char) {
    c == '<' || c == '!' || c == '-'
  }

  /** Nothing opens across the join of two such texts, unless the first may begin an opener that the second goes on
      with. */
  lemma PlainJoin(a: string, b: string)
    requires Plain(a) && Plain(b)
    requires '<' !in a || a == "" || b == "" || !OpensOn(a[|a| - 1]) || b[0] == '<' || !OpensOn(b[0])
    ensures Plain(a + b)
  {
    forall k ensures !At(a + b, OPENER, k) {
      if k + 4 <= |a| {
        AtInHead(a, b, OPENER, k);
      } else if |a| <= k {
        AtInTail(a, b, OPENER, k);
      } else if 0 <= k && b != "" {
        assert (a + b)[|a|] == b[0] && (a + b)[|a| - 1] == a[|a| - 1] && a[k] in a;
        Differs(a + b, OPENER, k, if '<' !in a then 0 else if !OpensOn(a[|a| - 1]) then |a| - 1 - k else |a| - k);
      }
    }
  }

  lemma PlainParts(a: string, b: string)
    requires Plain(a + b)
    ensures Plain(a) && Plain(b)
  {
    forall k ensures !At(a, OPENER, k) {
      if k + 4 <= |a| {
        AtInHead(a, b, OPENER, k);
      }
    }
    forall k ensures !At(b, OPENER, k) {
      if 0 <= k {
        AtInTail(a, b, OPENER, k + |a|);
      }
    }
  }

  lemma {:induction false} LinesArePlain(ls: seq<string>)
    requires Plain(Unlines(ls))
    ensures forall k :: 0 <= k < |ls| ==> Plain(ls[k])
    decreases |ls|
  {
    if |ls| > 1 {
      PlainParts(ls[0] + "\n", Unlines(ls[1..]));
      PlainParts(ls[0], "\n");
      LinesArePlain(ls[1..]);
    }
  }

  // ---- Its sections ----

  const NAMES := ["Points", "Suggested follow-ups", "Not verified"]

  predicate IsFence(line: string) {
    "```" <= Trim(line) || "~~~" <= Trim(line)
  }

  /** The last of the sections a heading names, if it names one. */
  function SectionNamed(heading: string): (r: Option<nat>)
    ensures r.Some? ==> r.value < |NAMES|
  {
    if SameFolded(Trim(heading), NAMES[2]) then Some(2)
    else if SameFolded(Trim(heading), NAMES[1]) then Some(1)
    else if SameFolded(Trim(heading), NAMES[0]) then Some(0)
    else None
  }

  /** How far a reply has been read: whether a fence is open, the section being read, and what each has so far. */
  datatype Reading = Reading(fence: bool, at: Option<nat>, bodies: seq<Option<string>>) {
    predicate Valid() {
      |bodies| == |NAMES| && (at.Some? ==> at.value < |NAMES| && bodies[at.value].Some?)
    }
  }

  const START := Reading(false, None, [None, None, None])

  function ReadLine(r: Reading, line: string): (q: Reading)
    requires r.Valid()
    ensures q.Valid()
  {
    var fence := if IsFence(line) then !r.fence else r.fence;
    if "## " <= line && !fence then
      match SectionNamed(line[3..])
      case None => r.(fence := fence, at := None)
      case Some(k) => Reading(fence, Some(k), if r.bodies[k].None? then r.bodies[k := Some("")] else r.bodies)
    else
      match r.at
      case None => r.(fence := fence)
      case Some(k) => r.(fence := fence, bodies := r.bodies[k := Some(r.bodies[k].value + line + "\n")])
  }

  function ReadLines(lines: seq<string>): (q: Reading)
    ensures q.Valid()
  {
    if lines == [] then START else ReadLine(ReadLines(lines[..|lines| - 1]), lines[|lines| - 1])
  }

  function Shown(text: string): string {
    Escaped(Unhidden(text))
  }

  /** The first `n` sections that say anything, under their headings. */
  function Parts(bodies: seq<Option<string>>, n: nat): seq<string>
    requires n <= |bodies| == |NAMES|
  {
    if n == 0 then []
    else
      var s := if bodies[n - 1].Some? then Trim(bodies[n - 1].value) else "";
      Parts(bodies, n - 1) + (if s == "" then [] else ["## " + NAMES[n - 1] + "\n\n" + s])
  }

  function Joined(parts: seq<string>): string {
    if parts == [] then ""
    else if |parts| == 1 then parts[0]
    else Joined(parts[..|parts| - 1]) + "\n\n" + parts[|parts| - 1]
  }

  lemma JoinedMore(front: seq<string>, s: string)
    ensures Joined(front + [s]) == if front == [] then s else Joined(front) + "\n\n" + s
    ensures Joined([]) == ""
  {
    var all := front + [s];
    assert all[..|all| - 1] == front && all[|all| - 1] == s;
  }

  /** Parts stand with a blank line between. */
  lemma {:induction false} JoinedBoth(front: seq<string>, more: seq<string>)
    requires front != [] && more != []
    ensures Joined(front + more) == Joined(front) + "\n\n" + Joined(more)
    decreases |more|
  {
    hide Joined;
    var last := |more| - 1;
    assert more == more[..last] + [more[last]] && front + more == front + more[..last] + [more[last]];
    JoinedMore(more[..last], more[last]);
    JoinedMore(front + more[..last], more[last]);
    if last > 0 {
      JoinedBoth(front, more[..last]);
    } else {
      assert front + more[..last] == front;
    }
  }

  function SectionsOf(text: string): string {
    Joined(Parts(ReadLines(Lines(Shown(text))).bodies, |NAMES|))
  }

  // ---- What a section says, of the lines alone ----

  /** How many of the first `n` lines open or close a fence. */
  function Fences(lines: seq<string>, n: nat): nat
    requires n <= |lines|
  {
    if n == 0 then 0 else Fences(lines, n - 1) + if IsFence(lines[n - 1]) then 1 else 0
  }

  /** A heading, outside every fence. */
  predicate IsHeading(lines: seq<string>, i: nat) {
    i < |lines| && "## " <= lines[i] && Fences(lines, i + 1) % 2 == 0
  }

  /** A line of section `k`: no heading, and the last heading ahead of it names that section. */
  ghost predicate IsUnder(lines: seq<string>, k: nat, j: nat) {
    && j < |lines| && !IsHeading(lines, j)
    && exists h :: 0 <= h < j && Names(lines, h, k) && forall m :: h < m < j ==> !IsHeading(lines, m)
  }

  predicate Names(lines: seq<string>, h: nat, k: nat) {
    IsHeading(lines, h) && SectionNamed(lines[h][3..]) == Some(k)
  }

  /** Where the section's lines are, of the first `n`. */
  ghost function LinesUnder(lines: seq<string>, k: nat, n: nat): seq<nat> {
    if n == 0 then [] else LinesUnder(lines, k, n - 1) + if IsUnder(lines, k, n - 1) then [n - 1] else []
  }

  lemma LineUnderIs(lines: seq<string>, k: nat, n: nat)
    ensures LinesUnder(lines, k, n + 1) == LinesUnder(lines, k, n) + if IsUnder(lines, k, n) then [n] else []
    ensures LinesUnder(lines, k, 0) == []
    ensures IsUnder(lines, k, n) ==> n < |lines|
  {
    hide IsHeading, Names;
  }

  /** Each of the section's lines, in order and once. */
  lemma {:induction false} LinesUnderAre(lines: seq<string>, k: nat, n: nat)
    ensures var at := LinesUnder(lines, k, n);
            && (forall j: nat :: j in at <==> j < n && IsUnder(lines, k, j))
            && (forall a :: 0 <= a < |at| ==> at[a] < n && at[a] < |lines|)
            && (forall a, b :: 0 <= a < b < |at| ==> at[a] < at[b])
  {
    hide IsUnder, LinesUnder;
    if n > 0 {
      LinesUnderAre(lines, k, n - 1);
      LineUnderIs(lines, k, n - 1);
    } else {
      LineUnderIs(lines, k, 0);
    }
  }

  function TextAt(lines: seq<string>, at: seq<nat>): string
    requires forall i :: 0 <= i < |at| ==> at[i] < |lines|
  {
    if at == [] then "" else TextAt(lines, at[..|at| - 1]) + lines[at[|at| - 1]] + "\n"
  }

  /** What section `k` says: its lines. */
  ghost function BodyOf(lines: seq<string>, k: nat, n: nat): string {
    LinesUnderAre(lines, k, n);
    TextAt(lines, LinesUnder(lines, k, n))
  }

  /** The first `n` sections that say anything, trimmed and under their headings. */
  ghost function Said(lines: seq<string>, n: nat): seq<string>
    requires n <= |NAMES|
  {
    if n == 0 then []
    else
      var body := Trim(BodyOf(lines, n - 1, |lines|));
      Said(lines, n - 1) + if body == "" then [] else ["## " + NAMES[n - 1] + "\n\n" + body]
  }

  /** The section of the last heading of the first `n` lines, if it names one. */
  ghost function SectionAt(lines: seq<string>, n: nat): Option<nat> {
    if n == 0 then None
    else if IsHeading(lines, n - 1) then SectionNamed(lines[n - 1][3..])
    else SectionAt(lines, n - 1)
  }

  lemma {:induction false} SectionIs(lines: seq<string>, n: nat, k: nat)
    ensures SectionAt(lines, n) == Some(k) <==> exists h :: 0 <= h < n && Names(lines, h, k) && forall m :: h < m < n ==> !IsHeading(lines, m)
  {
    hide IsHeading, SectionNamed;
    if n > 0 {
      SectionIs(lines, n - 1, k);
      if IsHeading(lines, n - 1) && SectionAt(lines, n) == Some(k) {
        assert Names(lines, n - 1, k);
      }
    }
  }

  /** What has been read of the first `n` lines is what they say. */
  ghost predicate Tells(lines: seq<string>, n: nat, r: Reading) {
    && n <= |lines| && r.Valid()
    && r.fence == (Fences(lines, n) % 2 == 1) && r.at == SectionAt(lines, n)
    && forall k: nat :: k < |NAMES| ==> BodyOf(lines, k, n) == if r.bodies[k].Some? then r.bodies[k].value else ""
  }

  lemma BodyOneMore(lines: seq<string>, k: nat, n: nat)
    requires n < |lines|
    ensures BodyOf(lines, k, n + 1) ==
              if !IsHeading(lines, n) && SectionAt(lines, n) == Some(k) then BodyOf(lines, k, n) + lines[n] + "\n" else BodyOf(lines, k, n)
  {
    hide IsHeading;
    SectionIs(lines, n, k);
    LinesUnderAre(lines, k, n);
    LinesUnderAre(lines, k, n + 1);
    var at := LinesUnder(lines, k, n);
    if IsUnder(lines, k, n) {
      assert (at + [n])[..|at|] == at && (at + [n])[|at|] == n;
      assert LinesUnder(lines, k, n + 1) == at + [n];
    } else {
      assert LinesUnder(lines, k, n + 1) == at;
    }
  }

  lemma TellsOneMore(lines: seq<string>, n: nat, r: Reading)
    requires n < |lines| && Tells(lines, n, r)
    ensures Tells(lines, n + 1, ReadLine(r, lines[n]))
  {
    hide IsFence, SectionNamed, BodyOf;
    forall k: nat | k < |NAMES|
      ensures BodyOf(lines, k, n + 1) == if ReadLine(r, lines[n]).bodies[k].Some? then ReadLine(r, lines[n]).bodies[k].value else ""
    {
      BodyOneMore(lines, k, n);
    }
  }

  lemma {:induction false} ReadingTells(lines: seq<string>, n: nat)
    requires n <= |lines|
    ensures Tells(lines, n, ReadLines(lines[..n]))
  {
    if n > 0 {
      hide Tells, ReadLine, ReadLines;
      ReadingTells(lines, n - 1);
      ReadOneMore(lines, n - 1);
      TellsOneMore(lines, n - 1, ReadLines(lines[..n - 1]));
    }
  }

  lemma BodiesAreSaid(lines: seq<string>, k: nat)
    requires k < |NAMES|
    ensures var bodies := ReadLines(lines).bodies;
            |bodies| == |NAMES| && BodyOf(lines, k, |lines|) == if bodies[k].Some? then bodies[k].value else ""
  {
    ReadingTells(lines, |lines|);
    assert lines[..|lines|] == lines;
    hide ReadLines, BodyOf, SectionAt, Fences;
  }

  /** So the parts printed are the sections that say anything. */
  lemma {:induction false} PartsAreSaid(lines: seq<string>, n: nat)
    requires n <= |NAMES|
    ensures Parts(ReadLines(lines).bodies, n) == Said(lines, n)
  {
    hide ReadLines, BodyOf, Trim;
    if n > 0 {
      PartsAreSaid(lines, n - 1);
      BodiesAreSaid(lines, n - 1);
      TrimNothing();
    }
  }

  lemma TrimNothing()
    ensures Trim("") == ""
  {
  }

  /** The sections so far, as the loop over the lines holds them: one body for each that has been named. */
  ghost predicate Holds(bodies: map<nat, string>, r: seq<Option<string>>) {
    |r| == |NAMES| && forall k: nat :: k < |r| ==> r[k] == if k in bodies then Some(bodies[k]) else None
  }

  method Named(heading: string) returns (at: Option<nat>)
    ensures at == SectionNamed(heading)
  {
    at := None;
    var i := 0;
    while i < |NAMES|
      invariant i <= |NAMES| == 3
      invariant at == if i > 2 && SameFolded(Trim(heading), NAMES[2]) then Some(2)
                      else if i > 1 && SameFolded(Trim(heading), NAMES[1]) then Some(1)
                      else if i > 0 && SameFolded(Trim(heading), NAMES[0]) then Some(0)
                      else None
    {
      if SameFolded(Trim(heading), NAMES[i]) {
        at := Some(i);
      }
      i := i + 1;
    }
  }

  lemma ReadOneMore(lines: seq<string>, i: nat)
    requires i < |lines|
    ensures ReadLines(lines[..i + 1]) == ReadLine(ReadLines(lines[..i]), lines[i])
  {
    assert lines[..i + 1][..i] == lines[..i];
  }

  lemma HoldsOneMore(bodies: map<nat, string>, r: seq<Option<string>>, k: nat, body: string)
    requires Holds(bodies, r) && k < |r|
    ensures Holds(bodies[k := body], r[k := Some(body)])
  {
  }

  /** The loop over the lines, with a fence flag and a body for each section. */
  method Collect(lines: seq<string>) returns (bodies: map<nat, string>)
    ensures Holds(bodies, ReadLines(lines).bodies)
  {
    hide SectionNamed, IsFence, Holds, ReadLines;
    bodies := map[];
    var at: Option<nat> := None;
    var fence := false;
    assert ReadLines(lines[..0]) == START && Holds(bodies, START.bodies) by { NothingRead(lines); }
    for i := 0 to |lines|
      invariant ReadLines(lines[..i]).fence == fence && ReadLines(lines[..i]).at == at
      invariant Holds(bodies, ReadLines(lines[..i]).bodies)
    {
      var line := lines[i];
      ghost var r := ReadLines(lines[..i]);
      ReadOneMore(lines, i);
      if IsFence(line) {
        fence := !fence;
      }
      if "## " <= line && !fence {
        at := Named(line[3..]);
        if at.Some? {
          HoldsAt(bodies, r.bodies, at.value);
          HoldsOneMore(bodies, r.bodies, at.value, "");
          if at.value !in bodies {
            bodies := bodies[at.value := ""];
          }
        }
      } else if at.Some? {
        HoldsAt(bodies, r.bodies, at.value);
        HoldsOneMore(bodies, r.bodies, at.value, bodies[at.value] + line + "\n");
        bodies := bodies[at.value := bodies[at.value] + line + "\n"];
      }
    }
    assert lines[..|lines|] == lines;
  }

  lemma NothingRead(lines: seq<string>)
    ensures ReadLines(lines[..0]) == START && Holds(map[], START.bodies)
  {
  }

  lemma HoldsAt(bodies: map<nat, string>, r: seq<Option<string>>, k: nat)
    requires Holds(bodies, r) && k < |NAMES|
    ensures k < |r| && r[k] == if k in bodies then Some(bodies[k]) else None
  {
  }

  /** The session's part of the reply: the sections the prompt names, in that order, with empty ones and anything else
      left out. */
  method Sections(text: string) returns (out: string)
    ensures out == SectionsOf(text)
    ensures out == Joined(Said(Lines(Shown(text)), |NAMES|))
  {
    hide Shown, ReadLines, Trim, Holds, Said, Joined;
    PartsAreSaid(Lines(Shown(text)), |NAMES|);
    var lines := Lines(Shown(text));
    var bodies := Collect(lines);
    ghost var r := ReadLines(lines).bodies;
    var parts: seq<string> := [];
    var k := 0;
    while k < |NAMES|
      invariant k <= |NAMES|
      invariant parts == Parts(r, k)
    {
      HoldsAt(bodies, r, k);
      if k in bodies {
        var s := Trim(bodies[k]);
        if s != "" {
          parts := parts + ["## " + NAMES[k] + "\n\n" + s];
        }
      }
      k := k + 1;
    }
    out := Joined(parts);
  }

  // ---- No hidden line in it ----

  lemma {:induction false} TrimLeftParts(s: string) returns (cut: string)
    ensures s == cut + TrimLeft(s)
    decreases |s|
  {
    cut := "";
    if s != "" && IsSpace(s[0]) {
      var rest := TrimLeftParts(s[1..]);
      cut := [s[0]] + rest;
    }
  }

  lemma {:induction false} TrimEndParts(s: string) returns (cut: string)
    ensures s == TrimEnd(s) + cut
    decreases |s|
  {
    cut := "";
    if s != "" && IsSpace(s[|s| - 1]) {
      var rest := TrimEndParts(s[..|s| - 1]);
      cut := rest + [s[|s| - 1]];
    }
  }

  lemma TrimIsPlain(s: string)
    requires Plain(s)
    ensures Plain(Trim(s))
  {
    var cut := TrimLeftParts(s);
    PlainParts(cut, TrimLeft(s));
    var end := TrimEndParts(TrimLeft(s));
    PlainParts(Trim(s), end);
  }

  /** Nothing opens in any section's body, and each ends with its last line. */
  ghost predicate PlainBodies(r: Reading) {
    r.Valid() && forall k :: 0 <= k < |r.bodies| && r.bodies[k].Some? ==>
      Plain(r.bodies[k].value) && (r.bodies[k].value == "" || r.bodies[k].value[|r.bodies[k].value| - 1] == '\n')
  }

  lemma LineIsPlain(body: string, line: string)
    requires Plain(body) && Plain(line) && (body == "" || body[|body| - 1] == '\n')
    ensures Plain(body + line + "\n")
  {
    PlainJoin(body, line);
    NoAngleIsPlain("\n");
    PlainJoin(body + line, "\n");
  }

  lemma {:induction false} BodiesArePlain(lines: seq<string>)
    requires forall k :: 0 <= k < |lines| ==> Plain(lines[k])
    ensures PlainBodies(ReadLines(lines))
    decreases |lines|
  {
    NoAngleIsPlain("");
    if lines != [] {
      var last := |lines| - 1;
      BodiesArePlain(lines[..last]);
      ReadLineIsPlain(ReadLines(lines[..last]), lines[last]);
    }
  }

  lemma ReadLineIsPlain(r: Reading, line: string)
    requires PlainBodies(r) && Plain(line)
    ensures PlainBodies(ReadLine(r, line))
  {
    hide IsFence, SectionNamed, Plain;
    assert Plain("") by { NoAngleIsPlain(""); }
    if r.at.Some? {
      LineIsPlain(r.bodies[r.at.value].value, line);
    }
  }

  lemma NamesArePlain(n: nat)
    requires n < |NAMES|
    ensures Plain("## " + NAMES[n] + "\n\n") && ("## " + NAMES[n] + "\n\n")[|NAMES[n]| + 4] == '\n' && |"## " + NAMES[n] + "\n\n"| == |NAMES[n]| + 5
  {
    NoAngleIsPlain("## " + NAMES[n] + "\n\n");
  }

  lemma {:induction false} PartsArePlain(bodies: seq<Option<string>>, n: nat)
    requires n <= |bodies| == |NAMES|
    requires forall k :: 0 <= k < |bodies| && bodies[k].Some? ==> Plain(bodies[k].value)
    ensures forall k :: 0 <= k < |Parts(bodies, n)| ==> Plain(Parts(bodies, n)[k])
  {
    if n > 0 {
      PartsArePlain(bodies, n - 1);
      if bodies[n - 1].Some? {
        TrimIsPlain(bodies[n - 1].value);
        NamesArePlain(n - 1);
        PlainJoin("## " + NAMES[n - 1] + "\n\n", Trim(bodies[n - 1].value));
      }
    }
  }

  lemma {:induction false} JoinedIsPlain(parts: seq<string>)
    requires forall k :: 0 <= k < |parts| ==> Plain(parts[k])
    ensures Plain(Joined(parts))
    decreases |parts|
  {
    if |parts| <= 1 {
      NoAngleIsPlain("");
    } else {
      var last := |parts| - 1;
      JoinedIsPlain(parts[..last]);
      NoAngleIsPlain("\n\n");
      PlainJoin(Joined(parts[..last]), "\n\n");
      PlainJoin(Joined(parts[..last]) + "\n\n", parts[last]);
    }
  }

  /** Whatever the session wrote, its part of the reply carries no hidden line. */
  lemma SectionsArePlain(text: string)
    ensures Plain(SectionsOf(text))
  {
    var shown := Shown(text);
    EscapedIsPlain(Unhidden(text));
    LinesJoin(shown);
    LinesArePlain(Lines(shown));
    BodiesArePlain(Lines(shown));
    PartsArePlain(ReadLines(Lines(shown)).bodies, |NAMES|);
    JoinedIsPlain(Parts(ReadLines(Lines(shown)).bodies, |NAMES|));
  }
}
