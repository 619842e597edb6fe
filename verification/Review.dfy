/** An advisory review's numbered findings, found in its lines (internal/correction/correction.go). */
module Review {
  import opened Base
  import opened Text
  import opened Decimal
  import opened Description

  /** One numbered finding: its number, the heading it is under, and the lines it spans, `end` excluded. */
  datatype Block = Block(number: nat, axis: string, start: nat, end: nat)

  // ---- What a line is ----

  function RunOf(t: string, c: char): nat {
    if t != "" && t[0] == c then 1 + RunOf(t[1..], c) else 0
  }

  lemma {:induction false} RunFits(t: string, c: char)
    ensures RunOf(t, c) <= |t|
  {
    if t != "" && t[0] == c {
      RunFits(t[1..], c);
    }
  }

  /** The fence a trimmed line opens or closes, if it is one: its run of backticks or tildes. */
  function FenceOf(t: string): string {
    if "```" <= t || "~~~" <= t then (RunFits(t, t[0]); t[..RunOf(t, t[0])]) else ""
  }

  /** A fence is closed by one of its own character, at least as long, with nothing after it. */
  predicate Closes(t: string, fence: string)
    requires fence != ""
  {
    var run := FenceOf(t);
    run != "" && run[0] == fence[0] && |run| >= |fence| && |run| <= |t| && Trim(t[|run|..]) == ""
  }

  function DigitsAt(s: string): (r: string)
    ensures r <= s && Digits(r)
  {
    if s == "" || !IsDigit(s[0]) then "" else [s[0]] + DigitsAt(s[1..])
  }

  function WithoutBold(s: string): (r: string)
    ensures |r| <= |s|
  {
    if "**" <= s then s[2..] else s
  }

  const MAX_INT := 0x7FFF_FFFF_FFFF_FFFF

  /** `3. ...`, or `**3.** ...`: the number, no larger than its type holds. */
  function NumberOf(line: string): Option<nat> {
    var s := WithoutBold(line);
    var ds := DigitsAt(s);
    if ds == "" || !("." <= s[|ds|..]) then None
    else
      var rest := WithoutBold(s[|ds| + 1..]);
      if rest == "" || !(rest[0] in "\t\n\U{C}\r ") then None
      else Some(if Value(ds) <= MAX_INT then Value(ds) else MAX_INT)
  }

  /** A line made of a number, a dot and a space, either of the first two in bold or not, and anything after. */
  ghost predicate Numbers(line: string, bold: string, ds: string, unbold: string, rest: string) {
    && (bold == "" || bold == "**") && (unbold == "" || unbold == "**") && ds != "" && Digits(ds)
    && rest != "" && rest[0] in "\t\n\U{C}\r " && line == bold + ds + "." + unbold + rest
  }

  lemma {:induction false} DigitsEnd(ds: string, rest: string)
    requires Digits(ds) && rest != "" && !IsDigit(rest[0])
    ensures DigitsAt(ds + rest) == ds
    decreases |ds|
  {
    if ds != "" {
      assert ds + rest == [ds[0]] + (ds[1..] + rest) && ds == [ds[0]] + ds[1..];
      DigitsEnd(ds[1..], rest);
    } else {
      assert ds + rest == rest;
    }
  }

  lemma BoldGoes(bold: string, s: string)
    requires (bold == "" || bold == "**") && s != "" && s[0] != '*'
    ensures WithoutBold(bold + s) == s
  {
    assert "" + s == s && (bold + s)[0] == if bold == "" then s[0] else '*';
  }

  /** So a line numbers a finding if it is made so, and with that number, no larger than its type holds. */
  lemma NumberedIs(line: string, bold: string, ds: string, unbold: string, rest: string)
    requires Numbers(line, bold, ds, unbold, rest)
    ensures NumberOf(line) == Some(if Value(ds) <= MAX_INT then Value(ds) else MAX_INT)
  {
    hide WithoutBold, DigitsAt, Value;
    var after := "." + (unbold + rest);
    var s := ds + after;
    assert s[0] == ds[0] && line == bold + s;
    BoldGoes(bold, s);
    DigitsEnd(ds, after);
    assert s[|ds|..] == after && s[|ds| + 1..] == unbold + rest && "." <= after;
    BoldGoes(unbold, rest);
  }

  lemma BoldIs(s: string)
    ensures s == WithoutBold(s) || s == "**" + WithoutBold(s)
  {
  }

  lemma NumbersAre(line: string, bold: string, ds: string, unbold: string, rest: string, s: string, after: string)
    requires (bold == "" || bold == "**") && (unbold == "" || unbold == "**") && ds != "" && Digits(ds) && rest != "" && rest[0] in "\t\n\U{C}\r "
    requires line == bold + s && s == ds + ("." + after) && after == unbold + rest
    ensures Numbers(line, bold, ds, unbold, rest)
  {
    hide Digits;
    assert line == bold + ds + "." + unbold + rest;
  }

  /** And only if it is. */
  lemma NumbersIfSome(line: string)
    requires NumberOf(line).Some?
    ensures exists bold, ds, unbold, rest :: Numbers(line, bold, ds, unbold, rest)
  {
    hide WithoutBold, DigitsAt, Value, Digits, Numbers;
    var s := WithoutBold(line);
    var ds := DigitsAt(s);
    var after := s[|ds| + 1..];
    var rest := WithoutBold(after);
    BoldIs(line);
    BoldIs(after);
    assert s == ds + s[|ds|..] && s[|ds|..] == "." + after;
    NumbersAre(line, if s == line then "" else "**", ds, if rest == after then "" else "**", rest, s, after);
  }

  lemma {:induction false} RunIs(t: string, c: char)
    ensures var n := RunOf(t, c); n <= |t| && (forall k :: 0 <= k < n ==> t[k] == c) && (n < |t| ==> t[n] != c)
  {
    if t != "" && t[0] == c {
      RunIs(t[1..], c);
      assert forall k :: 1 <= k <= RunOf(t[1..], c) ==> t[k] == t[1..][k - 1];
    }
  }

  /** A fence is three backticks or tildes or more: as long as there are any. */
  lemma FenceIsARun(t: string)
    ensures var f := FenceOf(t);
            && (f != "" <==> |t| >= 3 && (t[0] == '`' || t[0] == '~') && t[1] == t[0] && t[2] == t[0])
            && (f != "" ==> f <= t && |f| >= 3 && (forall k :: 0 <= k < |f| ==> f[k] == t[0]) && (|f| < |t| ==> t[|f|] != t[0]))
  {
    if |t| >= 3 && (t[0] == '`' || t[0] == '~') && t[1] == t[0] && t[2] == t[0] {
      RunIs(t, t[0]);
      assert t[..3] == [t[0], t[0], t[0]];
    }
  }

  predicate IsWord(c: char) {
    IsDigit(c) || 'a' <= c <= 'z' || 'A' <= c <= 'Z' || c == '_'
  }

  /** `Q1 ...`: the line a question starts on. */
  predicate IsQuestion(line: string) {
    var s := WithoutBold(line);
    "Q" <= s && var ds := DigitsAt(s[1..]); ds != "" && (|s| == |ds| + 1 || !IsWord(s[|ds| + 1]))
  }

  datatype Kind = Heading(axis: string) | Edge | Numbered(number: nat) | Plainly

  function KindOf(line: string): Kind {
    if "## " <= line then Heading(Trim(line[3..]))
    else if line == OPEN || IsQuestion(line) then Edge
    else if NumberOf(line).Some? then Numbered(NumberOf(line).value)
    else Plainly
  }

  predicate EndsWith(t: string, end: string) {
    |end| <= |t| && t[|t| - |end|..] == end
  }

  const DETAILS := "<details"
  const UNDETAILS := "</details>"

  /** How a line changes the depth of folded details: only a tag on a line of its own counts. */
  function Deeper(t: string): int {
    (if DETAILS <= t then 1 else 0) - (if EndsWith(t, UNDETAILS) && (t == UNDETAILS || DETAILS <= t) then 1 else 0)
  }

  /** One fold more for a line that opens one and does not close it, one fewer for a closing tag alone, and nothing else
      counts: a tag a finding's text mentions, or a fold closed on its own line, among it. */
  lemma DeeperIs(t: string)
    ensures Deeper(t) == 1 <==> DETAILS <= t && !EndsWith(t, UNDETAILS)
    ensures Deeper(t) == -1 <==> t == UNDETAILS
    ensures Deeper(t) == 0 <==> t != UNDETAILS && (DETAILS <= t ==> EndsWith(t, UNDETAILS))
  {
    assert !(DETAILS <= UNDETAILS) by { assert UNDETAILS[1] != DETAILS[1]; }
    assert EndsWith(UNDETAILS, UNDETAILS);
  }

  /** A question's line: bold or not, a Q and a number, and no more of a word. */
  ghost predicate Asks(line: string, bold: string, ds: string, rest: string) {
    (bold == "" || bold == "**") && ds != "" && Digits(ds) && (rest == "" || !IsWord(rest[0])) && line == bold + ("Q" + ds + rest)
  }

  lemma QuestionIs(line: string, bold: string, ds: string, rest: string)
    requires Asks(line, bold, ds, rest)
    ensures IsQuestion(line)
  {
    hide WithoutBold, DigitsAt, Digits;
    var s := "Q" + ds + rest;
    BoldGoes(bold, s);
    assert s[1..] == ds + rest;
    DigitsOf(ds, rest);
  }

  lemma {:induction false} DigitsOf(ds: string, rest: string)
    requires Digits(ds) && (rest != "" ==> !IsDigit(rest[0]))
    ensures DigitsAt(ds + rest) == ds
    decreases |ds|
  {
    if rest != "" {
      DigitsEnd(ds, rest);
    } else if ds != "" {
      assert ds + rest == ds && ds == [ds[0]] + ds[1..] && ds[1..] + rest == ds[1..];
      DigitsOf(ds[1..], rest);
    }
  }

  lemma AsksIfQuestion(line: string)
    requires IsQuestion(line)
    ensures exists bold, ds, rest :: Asks(line, bold, ds, rest)
  {
    hide WithoutBold, DigitsAt, Digits;
    var s := WithoutBold(line);
    var ds := DigitsAt(s[1..]);
    var rest := s[1..][|ds|..];
    BoldIs(line);
    assert s == "Q" + ds + rest;
    assert rest != "" ==> rest[0] == s[|ds| + 1];
    assert Asks(line, if s == line then "" else "**", ds, rest);
  }

  predicate Blank(line: string) {
    Trim(line) == ""
  }

  // ---- The parse ----

  datatype Parse = Parse(blocks: seq<Block>, axis: string, fence: string, open: bool, depth: int)

  const BEGIN := Parse([], "", "", false, 0)

  /** `at`, or before the blank lines ahead of it, but for a finding's first line. */
  function BackOver(lines: seq<string>, start: nat, at: nat): (r: nat)
    requires start < at <= |lines|
    ensures start < r <= at
    ensures forall k :: r <= k < at ==> Blank(lines[k])
    ensures r == start + 1 || !Blank(lines[r - 1])
  {
    if at > start + 1 && Blank(lines[at - 1]) then BackOver(lines, start, at - 1) else at
  }

  function Last(s: Parse): Block
    requires s.blocks != []
  {
    s.blocks[|s.blocks| - 1]
  }

  /** The first `i` lines read: the blocks stand in order, within the lines, and the last may still be open. */
  ghost predicate Reads(lines: seq<string>, s: Parse, i: nat) {
    && i <= |lines|
    && (s.open ==> s.blocks != [] && Last(s).end == |lines|)
    && (forall k :: 0 <= k < |s.blocks| ==> s.blocks[k].start < i && s.blocks[k].start < s.blocks[k].end <= |lines|)
    && (forall k :: 0 <= k < |s.blocks| && (k < |s.blocks| - 1 || !s.open) ==> s.blocks[k].end <= i)
    && (forall j, k :: 0 <= j < k < |s.blocks| ==> s.blocks[j].end <= s.blocks[k].start)
  }

  /** The open finding, if there is one, ends at line `at`. */
  function Ended(lines: seq<string>, s: Parse, at: nat): (r: Parse)
    requires Reads(lines, s, at)
    ensures Reads(lines, r, at) && !r.open && |r.blocks| == |s.blocks|
    ensures r.fence == s.fence && r.depth == s.depth && r.axis == s.axis
  {
    if !s.open then s
    else
      var last := |s.blocks| - 1;
      var b := s.blocks[last];
      s.(blocks := s.blocks[last := b.(end := BackOver(lines, b.start, at))], open := false)
  }

  /** Line `i`, after those before it. */
  function ReadLine(lines: seq<string>, s: Parse, i: nat): (r: Parse)
    requires i < |lines| && Reads(lines, s, i)
    ensures Reads(lines, r, i + 1)
  {
    var line, t := lines[i], Trim(lines[i]);
    if s.fence != "" then (if Closes(t, s.fence) then s.(fence := "") else s)
    else if FenceOf(t) != "" then s.(fence := FenceOf(t))
    else
      match KindOf(line)
      case Heading(axis) => Ended(lines, s, i).(axis := axis)
      case Edge => Ended(lines, s, i)
      case Numbered(n) => Opened(lines, Ended(lines, s, i), n, i)
      case Plainly => if s.open then Deepened(lines, s, s.depth + Deeper(t), i) else s
  }

  function Deepened(lines: seq<string>, s: Parse, depth: int, i: nat): (r: Parse)
    requires i < |lines| && Reads(lines, s, i)
    ensures Reads(lines, r, i + 1)
  {
    if depth >= 0 then s.(depth := depth) else Ended(lines, s.(depth := depth), i).(axis := "")
  }

  function Opened(lines: seq<string>, s: Parse, number: nat, i: nat): (r: Parse)
    requires i < |lines| && Reads(lines, s, i) && !s.open
    ensures Reads(lines, r, i + 1)
  {
    s.(blocks := s.blocks + [Block(number, s.axis, i, |lines|)], open := true, depth := 0)
  }

  function ReadTo(lines: seq<string>, i: nat): (s: Parse)
    requires i <= |lines|
    ensures Reads(lines, s, i)
  {
    if i == 0 then BEGIN else ReadLine(lines, ReadTo(lines, i - 1), i - 1)
  }

  function Blocks(lines: seq<string>): (blocks: seq<Block>)
    ensures forall k :: 0 <= k < |blocks| ==> blocks[k].start < blocks[k].end <= |lines|
    ensures forall j, k :: 0 <= j < k < |blocks| ==> blocks[j].end <= blocks[k].start
  {
    Ended(lines, ReadTo(lines, |lines|), |lines|).blocks
  }

  function LinesOf(body: string): seq<string> {
    Lines(Normal(body))
  }

  function EndLast(lines: seq<string>, blocks: seq<Block>, at: nat): seq<Block>
    requires blocks != [] && blocks[|blocks| - 1].start < at <= |lines|
  {
    var last := |blocks| - 1;
    blocks[last := blocks[last].(end := BackOver(lines, blocks[last].start, at))]
  }

  lemma EndedIs(lines: seq<string>, s: Parse, at: nat)
    requires Reads(lines, s, at)
    ensures s.open ==> s.blocks != [] && Last(s).start < at <= |lines|
    ensures Ended(lines, s, at) == if s.open then s.(blocks := EndLast(lines, s.blocks, at), open := false) else s
  {
  }

  /** One line outside a fence, with a kind of its own. */
  lemma KindIs(lines: seq<string>, s: Parse, i: nat)
    requires i < |lines| && Reads(lines, s, i) && s.fence == "" && FenceOf(Trim(lines[i])) == "" && !KindOf(lines[i]).Plainly?
    ensures s.open ==> s.blocks != [] && Last(s).start < i <= |lines|
    ensures var ended := if s.open then s.(blocks := EndLast(lines, s.blocks, i), open := false) else s;
            ReadLine(lines, s, i) == match KindOf(lines[i])
                                     case Heading(axis) => ended.(axis := axis)
                                     case Numbered(n) => ended.(blocks := ended.blocks + [Block(n, ended.axis, i, |lines|)], open := true, depth := 0)
                                     case _ => ended
  {
    EndedIs(lines, s, i);
  }

  /** One line outside a fence, with none. */
  lemma PlainlyIs(lines: seq<string>, s: Parse, i: nat)
    requires i < |lines| && Reads(lines, s, i) && s.fence == "" && FenceOf(Trim(lines[i])) == "" && KindOf(lines[i]).Plainly?
    ensures s.open ==> s.blocks != [] && Last(s).start < i <= |lines|
    ensures var depth := s.depth + Deeper(Trim(lines[i]));
            ReadLine(lines, s, i) == if !s.open then s
                                     else if depth >= 0 then s.(depth := depth)
                                     else Parse(EndLast(lines, s.blocks, i), "", s.fence, false, depth)
  {
    EndedIs(lines, s.(depth := s.depth + Deeper(Trim(lines[i]))), i);
  }

  lemma FencedIs(lines: seq<string>, s: Parse, i: nat)
    requires i < |lines| && Reads(lines, s, i)
    ensures s.fence != "" ==> ReadLine(lines, s, i) == if Closes(Trim(lines[i]), s.fence) then s.(fence := "") else s
    ensures s.fence == "" && FenceOf(Trim(lines[i])) != "" ==> ReadLine(lines, s, i) == s.(fence := FenceOf(Trim(lines[i])))
  {
  }

  lemma ReadOneMore(lines: seq<string>, i: nat)
    requires i < |lines|
    ensures ReadTo(lines, i + 1) == ReadLine(lines, ReadTo(lines, i), i)
  {
  }

  /** The lines and the numbered findings of a review, in one pass with the fence, the heading and the depth of folded
      details as it goes. */
  method ParseReview(body: string) returns (lines: seq<string>, blocks: seq<Block>)
    ensures lines == LinesOf(body) && blocks == Blocks(lines)
  {
    hide KindOf, Closes, FenceOf, Trim, Deeper, ReadLine, Reads, BackOver;
    lines := LinesOf(body);
    blocks := [];
    var axis, fence, open, depth := "", "", false, 0;
    for i := 0 to |lines|
      invariant Parse(blocks, axis, fence, open, depth) == ReadTo(lines, i)
    {
      var line, t := lines[i], Trim(lines[i]);
      ghost var s := ReadTo(lines, i);
      ReadOneMore(lines, i);
      FencedIs(lines, s, i);
      if fence != "" {
        if Closes(t, fence) {
          fence := "";
        }
        continue;
      }
      fence := FenceOf(t);
      if fence != "" {
        continue;
      }
      var kind := KindOf(line);
      if !kind.Plainly? {
        KindIs(lines, s, i);
        if open {
          blocks, open := EndLast(lines, blocks, i), false;
        }
        if kind.Heading? {
          axis := kind.axis;
        }
        if kind.Numbered? {
          blocks := blocks + [Block(kind.number, axis, i, |lines|)];
          open, depth := true, 0;
        }
        continue;
      }
      PlainlyIs(lines, s, i);
      if open {
        depth := depth + Deeper(t);
        if depth < 0 {
          blocks, open := EndLast(lines, blocks, i), false;
          axis := "";
        }
      }
    }
    EndedIs(lines, ReadTo(lines, |lines|), |lines|);
    if open {
      blocks := EndLast(lines, blocks, |lines|);
    }
  }

  // ---- Fences, folds and headings, of the lines alone ----

  /** A fence opened at line `o` is open still at line `i`. */
  predicate OpenSince(lines: seq<string>, o: nat, i: nat) {
    && o < i <= |lines| && FenceOf(Trim(lines[o])) != ""
    && forall k :: o < k < i ==> !Closes(Trim(lines[k]), FenceOf(Trim(lines[o])))
  }

  /** A line is in a fence when one was opened above it, not itself in another, and has not been closed above it. */
  ghost predicate InFence(lines: seq<string>, i: nat)
    decreases i
  {
    exists o :: 0 <= o < i && OpenSince(lines, o, i) && !InFence(lines, o)
  }

  /** A line in a fence, or at either edge of one. */
  ghost predicate Fenced(lines: seq<string>, i: nat)
    requires i < |lines|
  {
    InFence(lines, i) || FenceOf(Trim(lines[i])) != ""
  }

  /** The folds opened less those closed, outside fences, from one line to another. */
  ghost function Folds(lines: seq<string>, from: nat, to: nat): int
    requires from <= to <= |lines|
  {
    if from == to then 0
    else Folds(lines, from, to - 1) + if Fenced(lines, to - 1) then 0 else Deeper(Trim(lines[to - 1]))
  }

  ghost predicate Starts(lines: seq<string>, i: nat) {
    i < |lines| && !Fenced(lines, i) && KindOf(lines[i]).Numbered?
  }

  /** A line that ends the finding begun at `start`: one with a kind of its own, or the review's own wrapper, which closes
      more folds than were opened since the finding began. */
  ghost predicate Stops(lines: seq<string>, start: nat, i: nat)
    requires start < i < |lines|
  {
    !Fenced(lines, i) && (!KindOf(lines[i]).Plainly? || Folds(lines, start + 1, i + 1) < 0)
  }

  /** A finding begins at `start`, and nothing before `to` ends it. */
  ghost predicate RunsTo(lines: seq<string>, start: nat, to: nat) {
    Starts(lines, start) && start < to <= |lines| && forall j :: start < j < to ==> !Stops(lines, start, j)
  }

  /** The wrapper closes here, in the finding that runs to it. */
  ghost predicate Unwraps(lines: seq<string>, i: nat)
    requires i < |lines|
  {
    KindOf(lines[i]).Plainly? && exists start :: 0 <= start < i && RunsTo(lines, start, i) && Stops(lines, start, i)
  }

  /** The heading ahead of line `i`: the last one outside a fence, or none once the wrapper has closed after it. */
  ghost function AxisAt(lines: seq<string>, i: nat): string
    requires i <= |lines|
  {
    if i == 0 then ""
    else if !Fenced(lines, i - 1) && KindOf(lines[i - 1]).Heading? then KindOf(lines[i - 1]).axis
    else if Unwraps(lines, i - 1) then ""
    else AxisAt(lines, i - 1)
  }

  // ---- What the blocks are ----

  /** A finding with the number and under the heading it is read with, that nothing stops before `to`. */
  ghost predicate Runs(lines: seq<string>, b: Block, to: nat) {
    && RunsTo(lines, b.start, to)
    && KindOf(lines[b.start]) == Numbered(b.number) && b.axis == AxisAt(lines, b.start)
  }

  /** It ends at the first line that stops it, or at the end of the review, but for the blank lines ahead of that. */
  ghost predicate Whole(lines: seq<string>, b: Block) {
    exists at :: Runs(lines, b, at) && (at == |lines| || Stops(lines, b.start, at)) && b.start < b.end <= at
                 && (forall k :: b.end <= k < at ==> Blank(lines[k])) && (b.end == b.start + 1 || !Blank(lines[b.end - 1]))
  }

  ghost predicate StartsAt(blocks: seq<Block>, j: nat) {
    exists k :: 0 <= k < |blocks| && blocks[k].start == j
  }

  /** No numbered line of the first `i` was passed over. */
  ghost predicate NoneMissed(lines: seq<string>, blocks: seq<Block>, i: nat) {
    i <= |lines| && forall j :: 0 <= j < i && Starts(lines, j) ==> StartsAt(blocks, j)
  }

  ghost predicate AllWhole(lines: seq<string>, blocks: seq<Block>, n: int) {
    n <= |blocks| && forall k :: 0 <= k < n ==> Whole(lines, blocks[k])
  }

  /** So far: every finished finding is whole, an open one runs on, and no numbered line was passed over. */
  ghost predicate Found(lines: seq<string>, s: Parse, i: nat) {
    && Reads(lines, s, i)
    && AllWhole(lines, s.blocks, if s.open then |s.blocks| - 1 else |s.blocks|)
    && (s.open ==> Runs(lines, Last(s), i))
    && NoneMissed(lines, s.blocks, i)
  }

  lemma BackOverIs(lines: seq<string>, start: nat, at: nat)
    requires start < at <= |lines|
    ensures var r := BackOver(lines, start, at);
            start < r <= at && (forall k :: r <= k < at ==> Blank(lines[k])) && (r == start + 1 || !Blank(lines[r - 1]))
  {
  }

  lemma EndedIsWhole(lines: seq<string>, b: Block, i: nat)
    requires Runs(lines, b, i) && (i == |lines| || Stops(lines, b.start, i))
    ensures Whole(lines, b.(end := BackOver(lines, b.start, i)))
  {
    hide Stops, Starts, KindOf, Blank, BackOver, AxisAt;
    BackOverIs(lines, b.start, i);
    assert Runs(lines, b.(end := BackOver(lines, b.start, i)), i);
  }

  lemma SameStarts(blocks: seq<Block>, last: nat, b: Block, j: nat)
    requires last < |blocks| && b.start == blocks[last].start
    ensures StartsAt(blocks, j) ==> StartsAt(blocks[last := b], j)
  {
    if StartsAt(blocks, j) {
      var k :| 0 <= k < |blocks| && blocks[k].start == j;
      assert blocks[last := b][k].start == j;
    }
  }

  lemma LastReplaced(lines: seq<string>, blocks: seq<Block>, e: Block, i: nat)
    requires blocks != [] && e.start == blocks[|blocks| - 1].start
    requires AllWhole(lines, blocks, |blocks| - 1) && Whole(lines, e) && NoneMissed(lines, blocks, i)
    ensures AllWhole(lines, blocks[|blocks| - 1 := e], |blocks|) && NoneMissed(lines, blocks[|blocks| - 1 := e], i)
  {
    hide Whole, Starts, StartsAt;
    forall j | 0 <= j < i && Starts(lines, j) ensures StartsAt(blocks[|blocks| - 1 := e], j) {
      SameStarts(blocks, |blocks| - 1, e, j);
    }
  }

  lemma EndedIsFound(lines: seq<string>, s: Parse, i: nat)
    requires Found(lines, s, i)
    requires s.open && i < |lines| ==> s.blocks != [] && Last(s).start < i && Stops(lines, Last(s).start, i)
    ensures Found(lines, Ended(lines, s, i), i)
  {
    hide Stops, Whole, Runs, BackOver, Ended, Reads, AllWhole, NoneMissed;
    EndedIs(lines, s, i);
    if s.open {
      StartsBefore(lines, s, i);
      EndedIsWhole(lines, Last(s), i);
      LastReplaced(lines, s.blocks, Last(s).(end := BackOver(lines, Last(s).start, i)), i);
    }
  }

  lemma StartsBefore(lines: seq<string>, s: Parse, i: nat)
    requires Found(lines, s, i) && s.open
    ensures s.blocks != [] && Last(s).start < i <= |lines|
  {
  }

  /** A line that stops nothing and starts nothing. */
  lemma PassedIsFound(lines: seq<string>, s: Parse, q: Parse, i: nat)
    requires Found(lines, s, i) && i < |lines| && !Starts(lines, i)
    requires s.open ==> s.blocks != [] && Last(s).start < i && !Stops(lines, Last(s).start, i)
    requires q.blocks == s.blocks && q.open == s.open
    ensures Found(lines, q, i + 1)
  {
    hide Whole, Stops, Starts, KindOf, StartsAt, AxisAt;
    assert Reads(lines, q, i + 1);
  }

  lemma LastAdded(lines: seq<string>, blocks: seq<Block>, b: Block)
    requires AllWhole(lines, blocks, |blocks|) && NoneMissed(lines, blocks, b.start) && b.start < |lines|
    ensures AllWhole(lines, blocks + [b], |blocks|) && NoneMissed(lines, blocks + [b], b.start + 1)
  {
    hide Whole, Starts;
    var all := blocks + [b];
    forall j | 0 <= j < b.start + 1 && Starts(lines, j) ensures StartsAt(all, j) {
      if j == b.start {
        assert all[|blocks|].start == j;
      } else {
        var k :| 0 <= k < |blocks| && blocks[k].start == j;
        assert all[k].start == j;
      }
    }
  }

  lemma OpenedIsFound(lines: seq<string>, s: Parse, number: nat, i: nat)
    requires Found(lines, s, i) && i < |lines| && !s.open && Starts(lines, i) && KindOf(lines[i]) == Numbered(number)
    requires s.axis == AxisAt(lines, i)
    ensures Found(lines, Opened(lines, s, number, i), i + 1)
  {
    hide Starts, KindOf, AxisAt;
    var b := Block(number, s.axis, i, |lines|);
    assert Runs(lines, b, i + 1);
    LastAdded(lines, s.blocks, b);
    OpenedIs(lines, s, number, i);
    hide Runs, Opened, AllWhole, NoneMissed, Reads;
  }

  lemma OpenedIs(lines: seq<string>, s: Parse, number: nat, i: nat)
    requires i < |lines| && Reads(lines, s, i) && !s.open
    ensures Opened(lines, s, number, i) == Parse(s.blocks + [Block(number, s.axis, i, |lines|)], s.axis, s.fence, true, 0)
    ensures Reads(lines, Opened(lines, s, number, i), i + 1)
  {
  }

  // ---- What the parse has read is what the lines say ----

  lemma FenceAfter(lines: seq<string>, i: nat)
    requires i < |lines|
    ensures var s, t := ReadTo(lines, i), Trim(lines[i]);
            ReadTo(lines, i + 1).fence ==
              if s.fence == "" then FenceOf(t) else if Closes(t, s.fence) then "" else s.fence
  {
    var s, t := ReadTo(lines, i), Trim(lines[i]);
    ReadOneMore(lines, i);
    FencedIs(lines, s, i);
    if s.fence == "" && FenceOf(t) == "" {
      if KindOf(lines[i]).Plainly? {
        PlainlyIs(lines, s, i);
      } else {
        KindIs(lines, s, i);
      }
    }
    hide ReadTo, ReadLine, Trim, FenceOf, Closes, KindOf, Deeper, BackOver, Reads;
  }

  lemma OpenOneMore(lines: seq<string>, o: nat, i: nat)
    requires o <= i < |lines|
    ensures OpenSince(lines, o, i + 1) <==>
              if o == i then FenceOf(Trim(lines[o])) != ""
              else OpenSince(lines, o, i) && !Closes(Trim(lines[i]), FenceOf(Trim(lines[o])))
    ensures o < i && OpenSince(lines, o, i) ==> FenceOf(Trim(lines[o])) != ""
  {
    hide FenceOf, Trim, Closes;
  }

  lemma InFenceIs(lines: seq<string>, i: nat)
    ensures InFence(lines, i) <==> exists o :: 0 <= o < i && OpenSince(lines, o, i) && !InFence(lines, o)
  {
    hide OpenSince;
  }

  /** `fence` is the one that line `i` is in, or none. */
  ghost predicate IsFence(lines: seq<string>, i: nat, fence: string) {
    && (fence != "" ==> InFence(lines, i))
    && forall o :: 0 <= o < i && OpenSince(lines, o, i) && !InFence(lines, o) ==> fence != "" && fence == FenceOf(Trim(lines[o]))
  }

  lemma FenceGoesOn(lines: seq<string>, i: nat, fence: string, next: string)
    requires i < |lines| && IsFence(lines, i, fence)
    requires next == if fence == "" then FenceOf(Trim(lines[i])) else if Closes(Trim(lines[i]), fence) then "" else fence
    ensures IsFence(lines, i + 1, next)
  {
    hide FenceOf, Trim, Closes, OpenSince, InFence;
    InFenceIs(lines, i);
    InFenceIs(lines, i + 1);
    forall o | 0 <= o < i + 1 && OpenSince(lines, o, i + 1) && !InFence(lines, o) ensures next != "" && next == FenceOf(Trim(lines[o])) {
      OpenOneMore(lines, o, i);
    }
    if next != "" {
      if fence != "" {
        var o :| 0 <= o < i && OpenSince(lines, o, i) && !InFence(lines, o);
        OpenOneMore(lines, o, i);
      } else {
        OpenOneMore(lines, i, i);
      }
    }
  }

  lemma FenceBegins(lines: seq<string>)
    ensures ReadTo(lines, 0) == BEGIN && IsFence(lines, 0, "")
  {
    hide FenceOf, Trim, Closes, OpenSince, InFence;
  }

  /** The fence the parse is in is the one the lines are in. */
  lemma {:induction false} FenceIs(lines: seq<string>, i: nat)
    requires i <= |lines|
    ensures IsFence(lines, i, ReadTo(lines, i).fence)
  {
    hide IsFence, ReadTo, Reads, FenceOf, Trim, Closes;
    if i == 0 {
      FenceBegins(lines);
    } else {
      FenceIs(lines, i - 1);
      FenceAfter(lines, i - 1);
      FenceGoesOn(lines, i - 1, ReadTo(lines, i - 1).fence, ReadTo(lines, i).fence);
    }
  }

  lemma UnfencedIs(lines: seq<string>, i: nat)
    requires i < |lines|
    ensures Fenced(lines, i) <==> ReadTo(lines, i).fence != "" || FenceOf(Trim(lines[i])) != ""
  {
    hide InFence, FenceOf, Trim, ReadTo, OpenSince, Reads;
    FenceIs(lines, i);
    InFenceIs(lines, i);
  }

  /** The last finding, if one is open, has begun. */
  lemma LastBegan(lines: seq<string>, i: nat)
    requires i <= |lines|
    ensures var s := ReadTo(lines, i); Reads(lines, s, i) && (s.open ==> s.blocks != [] && Last(s).start < i)
  {
  }

  // One line more, by what the lines say of it.

  lemma FencedLine(lines: seq<string>, i: nat)
    requires i < |lines| && Fenced(lines, i)
    ensures ReadTo(lines, i + 1) == ReadTo(lines, i).(fence := ReadTo(lines, i + 1).fence)
  {
    var s := ReadTo(lines, i);
    UnfencedIs(lines, i);
    ReadOneMore(lines, i);
    FencedIs(lines, s, i);
    hide ReadTo, ReadLine, Reads, FenceOf, Trim, Closes, Fenced;
  }

  lemma KindLine(lines: seq<string>, i: nat)
    requires i < |lines| && !Fenced(lines, i) && !KindOf(lines[i]).Plainly?
    ensures var s, t := ReadTo(lines, i), ReadTo(lines, i + 1);
            var e := Ended(lines, s, i);
            && !e.open && e.axis == s.axis
            && t == match KindOf(lines[i])
                    case Heading(axis) => e.(axis := axis)
                    case Numbered(n) => Opened(lines, e, n, i)
                    case _ => e
  {
    var s := ReadTo(lines, i);
    UnfencedIs(lines, i);
    ReadOneMore(lines, i);
    hide ReadTo, Ended, Opened, Reads, FenceOf, Trim, Closes, Fenced, KindOf;
  }

  lemma PlainLine(lines: seq<string>, i: nat)
    requires i < |lines| && !Fenced(lines, i) && KindOf(lines[i]).Plainly?
    ensures var s := ReadTo(lines, i); var depth := s.depth + Deeper(Trim(lines[i]));
            && (s.open ==> s.blocks != [] && Last(s).start < i)
            && ReadTo(lines, i + 1) == if !s.open then s
                                       else if depth >= 0 then s.(depth := depth)
                                       else Parse(EndLast(lines, s.blocks, i), "", s.fence, false, depth)
  {
    hide ReadTo, Reads, FenceOf, Trim, Fenced, KindOf, Deeper, BackOver;
    UnfencedIs(lines, i);
    LastBegan(lines, i);
    ReadOneMore(lines, i);
    PlainlyIs(lines, ReadTo(lines, i), i);
  }

  /** A finding that runs to a line is the one the parse has open there, at its depth. */
  lemma {:induction false} RunningIsOpen(lines: seq<string>, start: nat, i: nat)
    requires RunsTo(lines, start, i)
    ensures var s := ReadTo(lines, i);
            s.open && s.blocks != [] && Last(s).start == start && s.depth == Folds(lines, start + 1, i)
    decreases i
  {
    var k := i - 1;
    hide ReadTo, Fenced, KindOf, Deeper, Trim, Reads;
    LastBegan(lines, k);
    if start == k {
      KindLine(lines, k);
      OpenedIs(lines, Ended(lines, ReadTo(lines, k), k), KindOf(lines[k]).number, k);
    } else {
      RunningIsOpen(lines, start, k);
      assert !Stops(lines, start, k);
      if Fenced(lines, k) {
        FencedLine(lines, k);
      } else {
        PlainLine(lines, k);
      }
    }
  }

  /** The heading and the depth the parse has read are those of the lines. */
  ghost predicate Tracks(lines: seq<string>, s: Parse, i: nat) {
    && i <= |lines| && s.axis == AxisAt(lines, i)
    && (s.open ==> s.blocks != [] && Last(s).start < i && s.depth == Folds(lines, Last(s).start + 1, i))
  }

  lemma OpenRunsTo(lines: seq<string>, s: Parse, i: nat)
    requires Found(lines, s, i) && s.open
    ensures s.blocks != [] && Last(s).start < i && RunsTo(lines, Last(s).start, i)
  {
    hide RunsTo, Whole, AxisAt, KindOf;
  }

  lemma UnwrapsIs(lines: seq<string>, i: nat)
    requires i < |lines| && Found(lines, ReadTo(lines, i), i) && Tracks(lines, ReadTo(lines, i), i)
    requires !Fenced(lines, i) && KindOf(lines[i]).Plainly?
    ensures var s := ReadTo(lines, i);
            && (s.open ==> s.blocks != [] && Last(s).start < i
                           && (Stops(lines, Last(s).start, i) <==> s.depth + Deeper(Trim(lines[i])) < 0))
            && (Unwraps(lines, i) <==> s.open && s.depth + Deeper(Trim(lines[i])) < 0)
  {
    hide ReadTo, Fenced, KindOf, Deeper, Trim, AxisAt, Found, RunsTo, Folds, Reads;
    var s := ReadTo(lines, i);
    if s.open {
      OpenRunsTo(lines, s, i);
      FoldsAfter(lines, Last(s).start + 1, i);
    }
    if Unwraps(lines, i) {
      var start :| 0 <= start < i && RunsTo(lines, start, i) && Stops(lines, start, i);
      RunningIsOpen(lines, start, i);
    }
  }

  lemma AxisAfter(lines: seq<string>, i: nat)
    requires i < |lines|
    ensures Unwraps(lines, i) ==> !Fenced(lines, i) && KindOf(lines[i]).Plainly?
    ensures AxisAt(lines, i + 1) == if !Fenced(lines, i) && KindOf(lines[i]).Heading? then KindOf(lines[i]).axis
                                    else if Unwraps(lines, i) then "" else AxisAt(lines, i)
  {
    hide Fenced, KindOf, RunsTo;
  }

  lemma FoldsAfter(lines: seq<string>, start: nat, i: nat)
    requires start <= i < |lines|
    ensures Folds(lines, start, i + 1) == Folds(lines, start, i) + if Fenced(lines, i) then 0 else Deeper(Trim(lines[i]))
    ensures Folds(lines, start, start) == 0
  {
  }

  lemma TracksFenced(lines: seq<string>, i: nat)
    requires i < |lines| && Fenced(lines, i) && Tracks(lines, ReadTo(lines, i), i)
    ensures Tracks(lines, ReadTo(lines, i + 1), i + 1)
  {
    hide ReadTo, Fenced, KindOf, Deeper, Trim, Unwraps, Reads, AxisAt, Folds;
    AxisAfter(lines, i);
    FencedLine(lines, i);
    var s := ReadTo(lines, i);
    if s.open {
      FoldsAfter(lines, Last(s).start + 1, i);
    }
  }

  lemma TracksPlain(lines: seq<string>, i: nat)
    requires i < |lines| && Found(lines, ReadTo(lines, i), i) && Tracks(lines, ReadTo(lines, i), i)
    requires !Fenced(lines, i) && KindOf(lines[i]).Plainly?
    ensures Tracks(lines, ReadTo(lines, i + 1), i + 1)
  {
    hide Found, ReadTo, Fenced, KindOf, Deeper, Trim, Unwraps, Reads, AxisAt, Folds, Stops, Ended;
    var s := ReadTo(lines, i);
    AxisAfter(lines, i);
    LastBegan(lines, i);
    PlainLine(lines, i);
    UnwrapsIs(lines, i);
    if s.open {
      FoldsAfter(lines, Last(s).start + 1, i);
    }
  }

  lemma TracksKind(lines: seq<string>, i: nat)
    requires i < |lines| && Tracks(lines, ReadTo(lines, i), i)
    requires !Fenced(lines, i) && !KindOf(lines[i]).Plainly?
    ensures Tracks(lines, ReadTo(lines, i + 1), i + 1)
  {
    AxisAfter(lines, i);
    KindLine(lines, i);
    FoldsNone(lines, i + 1);
    var e := Ended(lines, ReadTo(lines, i), i);
    hide ReadTo, Fenced, KindOf, Unwraps, Reads, AxisAt, Folds, Ended, Opened;
    if KindOf(lines[i]).Numbered? {
      OpenedIs(lines, e, KindOf(lines[i]).number, i);
    }
  }

  lemma TracksOn(lines: seq<string>, i: nat)
    requires i < |lines| && Found(lines, ReadTo(lines, i), i) && Tracks(lines, ReadTo(lines, i), i)
    ensures Tracks(lines, ReadTo(lines, i + 1), i + 1)
  {
    hide Found, Tracks, ReadTo, Fenced, KindOf;
    if Fenced(lines, i) {
      TracksFenced(lines, i);
    } else if KindOf(lines[i]).Plainly? {
      TracksPlain(lines, i);
    } else {
      TracksKind(lines, i);
    }
  }

  lemma FoldsNone(lines: seq<string>, i: nat)
    requires i <= |lines|
    ensures Folds(lines, i, i) == 0
  {
  }

  lemma FoundPlain(lines: seq<string>, i: nat)
    requires i < |lines| && Found(lines, ReadTo(lines, i), i) && Tracks(lines, ReadTo(lines, i), i)
    requires !Fenced(lines, i) && KindOf(lines[i]).Plainly?
    ensures Found(lines, ReadTo(lines, i + 1), i + 1)
  {
    var s, t := ReadTo(lines, i), ReadTo(lines, i + 1);
    var deep := s.(depth := s.depth + Deeper(Trim(lines[i])));
    LastBegan(lines, i);
    StoppedBy(lines, i);
    PlainLine(lines, i);
    UnwrapsIs(lines, i);
    DepthIsNothing(lines, s, deep.depth, i);
    hide ReadTo, Fenced, KindOf, Deeper, Trim, Found, Unwraps, Stops, Starts, Tracks, Ended, Reads;
    if s.open && deep.depth < 0 {
      EndedIsFound(lines, deep, i);
      ReadsIf(lines, deep, i);
      EndedIs(lines, deep, i);
      PassedIsFound(lines, Ended(lines, deep, i), t, i);
    } else {
      PassedIsFound(lines, s, t, i);
    }
  }

  lemma ReadsIf(lines: seq<string>, s: Parse, i: nat)
    requires Found(lines, s, i)
    ensures Reads(lines, s, i)
  {
  }

  lemma FoundKind(lines: seq<string>, i: nat)
    requires i < |lines| && Found(lines, ReadTo(lines, i), i) && Tracks(lines, ReadTo(lines, i), i)
    requires !Fenced(lines, i) && !KindOf(lines[i]).Plainly?
    ensures Found(lines, ReadTo(lines, i + 1), i + 1)
  {
    var s, t := ReadTo(lines, i), ReadTo(lines, i + 1);
    var e := Ended(lines, s, i);
    LastBegan(lines, i);
    StoppedBy(lines, i);
    KindLine(lines, i);
    assert s.axis == AxisAt(lines, i);
    hide ReadTo, Fenced, KindOf, Found, Stops, Starts, Tracks, Ended, Opened, Reads, AxisAt;
    EndedIsFound(lines, s, i);
    if KindOf(lines[i]).Numbered? {
      OpenedIsFound(lines, e, KindOf(lines[i]).number, i);
    } else {
      PassedIsFound(lines, e, t, i);
    }
  }

  lemma FoundOn(lines: seq<string>, i: nat)
    requires i < |lines| && Found(lines, ReadTo(lines, i), i) && Tracks(lines, ReadTo(lines, i), i)
    ensures Found(lines, ReadTo(lines, i + 1), i + 1)
  {
    LastBegan(lines, i);
    StoppedBy(lines, i);
    hide Found, Tracks, ReadTo, Fenced, KindOf, Reads, Starts, Stops;
    if Fenced(lines, i) {
      FencedLine(lines, i);
      PassedIsFound(lines, ReadTo(lines, i), ReadTo(lines, i + 1), i);
    } else if KindOf(lines[i]).Plainly? {
      FoundPlain(lines, i);
    } else {
      FoundKind(lines, i);
    }
  }

  /** What a line starts and stops, but for one that may close the wrapper. */
  lemma StoppedBy(lines: seq<string>, i: nat)
    requires i < |lines|
    ensures Starts(lines, i) <==> !Fenced(lines, i) && KindOf(lines[i]).Numbered?
    ensures forall start :: 0 <= start < i && Fenced(lines, i) ==> !Stops(lines, start, i)
    ensures forall start :: 0 <= start < i && !Fenced(lines, i) && !KindOf(lines[i]).Plainly? ==> Stops(lines, start, i)
  {
  }

  lemma DepthIsNothing(lines: seq<string>, s: Parse, depth: int, i: nat)
    requires Found(lines, s, i)
    ensures Found(lines, s.(depth := depth), i)
  {
    hide AllWhole, Runs, NoneMissed;
  }

  lemma {:induction false} ReadIsFound(lines: seq<string>, i: nat)
    requires i <= |lines|
    ensures Found(lines, ReadTo(lines, i), i) && Tracks(lines, ReadTo(lines, i), i)
  {
    hide Found, ReadTo, Tracks;
    if i > 0 {
      ReadIsFound(lines, i - 1);
      FoundOn(lines, i - 1);
      TracksOn(lines, i - 1);
    } else {
      BeginIsFound(lines);
    }
  }

  lemma BeginIsFound(lines: seq<string>)
    ensures ReadTo(lines, 0) == BEGIN && Found(lines, BEGIN, 0) && Tracks(lines, BEGIN, 0)
  {
    hide Starts, KindOf, Whole, Runs;
  }

  /** The findings of a review are exactly its numbered lines outside fences, in order and apart, each with everything up
      to the first line outside a fence that stops it, but for the blank lines ahead of that; nothing in a fence starts
      one or stops one. */
  lemma BlocksAreTheFindings(lines: seq<string>)
    ensures forall k :: 0 <= k < |Blocks(lines)| ==> Whole(lines, Blocks(lines)[k])
    ensures forall j, k :: 0 <= j < k < |Blocks(lines)| ==> Blocks(lines)[j].end <= Blocks(lines)[k].start
    ensures forall i :: 0 <= i < |lines| ==> (Starts(lines, i) <==> StartsAt(Blocks(lines), i))
  {
    ReadIsFound(lines, |lines|);
    EndedIsFound(lines, ReadTo(lines, |lines|), |lines|);
    assert AllWhole(lines, Blocks(lines), |Blocks(lines)|) && NoneMissed(lines, Blocks(lines), |lines|);
    hide Starts, Whole, StartsAt, Blocks, Found, Reads, ReadTo;
    forall i | 0 <= i < |lines| ensures Starts(lines, i) <==> StartsAt(Blocks(lines), i) {
      StartsAreNumbered(lines, Blocks(lines), i);
    }
  }

  lemma StartsAreNumbered(lines: seq<string>, blocks: seq<Block>, i: nat)
    requires AllWhole(lines, blocks, |blocks|) && i < |lines|
    ensures StartsAt(blocks, i) ==> Starts(lines, i)
  {
    hide Starts, KindOf, Stops;
    if StartsAt(blocks, i) {
      var k :| 0 <= k < |blocks| && blocks[k].start == i;
      assert Whole(lines, blocks[k]);
    }
  }
}
