/** A pull request's description brought up to date: its sensitive line ahead of the reminder, its spend footer between
    two hidden lines, and the rest of it as it was (internal/work/description.go, internal/sensitive, internal/spend). */
module Description {
  import opened Base
  import opened Text

  const OPEN := "<!-- afk:spend -->"
  const CLOSE := "<!-- /afk:spend -->"
  const HELD := OPEN + "\n" + CLOSE
  const REMINDER := "> **Your review**"
  const PREFIX := "**Sensitive:** "
  const LIMIT := 65536

  predicate OverLimit(body: string) {
    |body| > LIMIT
  }

  // ---- The sensitive line ----

  function Others(ls: seq<string>): seq<string> {
    if ls == [] then [] else (if PREFIX <= ls[0] then [] else [ls[0]]) + Others(ls[1..])
  }

  /** The fixed part of a description, ahead of the reminder, with `line` as its sensitive line. */
  function Top(fixed: string, line: string): string {
    TrimRight(Unlines(Others(Lines(fixed)))) + "\n\n" + (if line == "" then "" else line + "\n\n")
  }

  function WithLine(body: string, line: string): Option<string> {
    match Index(body, "\n" + REMINDER)
    case None => None
    case Some(i) => Some(Top(body[..i], line) + body[i + 1..])
  }

  // ---- The footer ----

  /** Where the footer is: from the last hidden line that opens one to the end of the next that closes one. */
  function FooterIn(body: string): (r: Option<(nat, nat)>)
    ensures r.Some? ==> r.value.0 <= r.value.1 <= |body|
  {
    match LastIndex(body, OPEN)
    case None => None
    case Some(o) =>
      match Index(body[o..], CLOSE)
      case None => None
      case Some(j) => Some((o, o + j + |CLOSE|))
  }

  /** An empty footer leaves the hidden lines, and nothing between them. */
  function Held(footer: string): string {
    if footer == "" then HELD else footer
  }

  function WithFooter(body: string, footer: string): string {
    match FooterIn(body)
    case Some((o, c)) => body[..o] + Held(footer) + body[c..]
    case None => if footer == "" then body else TrimRight(body) + "\n\n" + footer + "\n"
  }

  // ---- Both ----

  datatype Change = AlreadyRight | NoReminder | TooLong | Listed | Counted

  /** No footer to bring up to date leaves the one there is. */
  function Described(body: string, listed: string, counted: string, footer: Option<string>): (string, Change)
    decreases footer.Some?
  {
    var was := Normal(body);
    var footed := if footer.Some? then WithFooter(was, footer.value) else was;
    match WithLine(footed, listed)
    case None => ("", NoReminder)
    case Some(all) =>
      var to := if OverLimit(all) then WithLine(footed, counted).value else all;
      if to == was then ("", AlreadyRight)
      else if OverLimit(to) && footer.Some? then Described(body, listed, counted, None)
      else if OverLimit(to) then ("", TooLong)
      else (to, if OverLimit(all) then Counted else Listed)
  }

  // ---- What the agent writes ----

  /** The sensitive line is one line, or none. */
  predicate IsLine(line: string) {
    '\n' !in line && '\r' !in line && (line == "" || PREFIX <= line)
  }

  /** A footer opens once, at its start, and closes once, at its end. */
  predicate IsFooter(footer: string) {
    '\r' !in footer && LastIndex(footer, OPEN) == Some(0)
    && |CLOSE| <= |footer| && Index(footer, CLOSE) == Some(|footer| - |CLOSE|)
  }

  /** A description with the agent's own parts where it wrote them: the reminder, and after it a footer. */
  predicate Written(body: string) {
    var i := Index(body, "\n" + REMINDER);
    '\r' !in body && i.Some? && FooterIn(body[i.value + 1..]).Some?
  }

  // ---- The text of the hidden lines ----

  lemma HiddenLines()
    ensures |OPEN| == 18 && |CLOSE| == 19 && |REMINDER| == 17
    ensures OPEN[0] == CLOSE[0] == '<' && OPEN[5] == 'a' && CLOSE[5] == '/'
    ensures forall k :: 1 <= k < |CLOSE| ==> CLOSE[k] != '<'
    ensures forall k :: 1 <= k < |OPEN| ==> OPEN[k] != '<'
    ensures '<' !in REMINDER && '\n' !in REMINDER && '\r' !in REMINDER && '\r' !in OPEN && '\r' !in CLOSE
    ensures REMINDER[0] != '\n' && !(PREFIX <= REMINDER) && !(REMINDER <= PREFIX) && REMINDER[0] != PREFIX[0]
  {
  }

  lemma HeldOpensOnce()
    ensures LastIndex(HELD, OPEN) == Some(0)
  {
    HiddenLines();
    AtInHead(OPEN, "\n" + CLOSE, OPEN, 0);
    assert HELD == OPEN + ("\n" + CLOSE);
    forall k | 0 < k ensures !At(HELD, OPEN, k) {
      Differs(HELD, OPEN, k, if k == |OPEN| + 1 then 5 else 0);
    }
    LastIs(HELD, OPEN, 0);
  }

  lemma HeldClosesOnce()
    ensures Index(HELD, CLOSE) == Some(|OPEN| + 1) && |HELD| == |OPEN| + 1 + |CLOSE|
  {
    HiddenLines();
    AtInTail(OPEN + "\n", CLOSE, CLOSE, |OPEN| + 1);
    forall k | 0 <= k < |OPEN| + 1 ensures !At(HELD, CLOSE, k) {
      Differs(HELD, CLOSE, k, if k == 0 then 5 else 0);
    }
    FirstIs(HELD, CLOSE, |OPEN| + 1);
  }

  lemma HeldIsAFooter()
    ensures IsFooter(HELD)
  {
    HiddenLines();
    HeldOpensOnce();
    HeldClosesOnce();
    hide Index, LastIndex;
    assert '\r' !in HELD;
  }

  // ---- The fixed part ----

  function OrBlank(ls: seq<string>): seq<string> {
    if ls == [] then [""] else ls
  }

  /** The lines of a fixed part that are not the sensitive line's, nor blank at its end. */
  function Kept(fixed: string): seq<string> {
    TrimLines(OrBlank(Others(Lines(fixed))))
  }

  function TopLines(kept: seq<string>, line: string): seq<string> {
    kept + [""] + if line == "" then [] else [line, ""]
  }

  lemma {:induction false} OthersAre(ls: seq<string>)
    requires AreLines(ls)
    ensures AreLines(Others(ls)) && forall k :: 0 <= k < |Others(ls)| ==> !(PREFIX <= Others(ls)[k])
    ensures |Others(ls)| <= |ls|
    ensures forall k :: 1 <= k < |Others(ls)| ==> exists j :: 1 <= j < |ls| && Others(ls)[k] == ls[j]
    decreases |ls|
  {
    if ls != [] {
      var rest := Others(ls[1..]);
      assert AreLines(ls[1..]);
      OthersAre(ls[1..]);
      forall k | 1 <= k < |Others(ls)| ensures exists j :: 1 <= j < |ls| && Others(ls)[k] == ls[j] {
        OneOf(ls[1..], Others(ls)[k]);
      }
    }
  }

  lemma {:induction false} OneOf(ls: seq<string>, l: string)
    requires l in Others(ls)
    ensures exists j :: 0 <= j < |ls| && ls[j] == l
  {
    OthersAmong(ls);
  }

  lemma {:induction false} OthersAmong(ls: seq<string>)
    ensures forall l :: l in Others(ls) ==> l in ls
    decreases |ls|
  {
    if ls != [] {
      OthersAmong(ls[1..]);
    }
  }

  lemma OthersFirst(l: string, rest: seq<string>)
    ensures Others([l] + rest) == (if PREFIX <= l then [] else [l]) + Others(rest)
  {
    assert ([l] + rest)[1..] == rest;
  }

  lemma {:induction false} OthersOfBoth(xs: seq<string>, ys: seq<string>)
    ensures Others(xs + ys) == Others(xs) + Others(ys)
    decreases |xs|
  {
    if xs == [] {
      assert xs + ys == ys;
    } else {
      hide Others;
      assert xs == [xs[0]] + xs[1..] && xs + ys == [xs[0]] + (xs[1..] + ys);
      OthersFirst(xs[0], xs[1..]);
      OthersFirst(xs[0], xs[1..] + ys);
      OthersOfBoth(xs[1..], ys);
    }
  }

  lemma {:induction false} OthersAlready(ls: seq<string>)
    requires forall k :: 0 <= k < |ls| ==> !(PREFIX <= ls[k])
    ensures Others(ls) == ls
    decreases |ls|
  {
    if ls != [] {
      OthersAlready(ls[1..]);
    }
  }

  /** What is kept is lines, none of them the sensitive line's, with no blank ones at the end. */
  ghost predicate AreKept(kept: seq<string>) {
    && kept != [] && AreLines(kept) && (|kept| > 1 ==> kept[|kept| - 1] != "")
    && forall k :: 0 <= k < |kept| ==> !(PREFIX <= kept[k])
  }

  lemma TrimmedAreKept(others: seq<string>)
    requires others != [] && AreLines(others) && forall k :: 0 <= k < |others| ==> !(PREFIX <= others[k])
    ensures AreKept(TrimLines(others))
  {
    var kept := TrimLines(others);
    PrefixIsKept(others, kept);
  }

  lemma PrefixIsKept(others: seq<string>, kept: seq<string>)
    requires kept <= others && AreLines(others) && forall k :: 0 <= k < |others| ==> !(PREFIX <= others[k])
    ensures AreLines(kept) && forall k :: 0 <= k < |kept| ==> !(PREFIX <= kept[k])
  {
    forall k | 0 <= k < |kept| ensures '\n' !in kept[k] && !(PREFIX <= kept[k]) {
      assert kept[k] == others[k];
    }
  }

  lemma TrimsWithin(others: seq<string>)
    ensures TrimLines(OrBlank(others)) <= OrBlank(others)
    ensures |TrimLines(OrBlank(others))| > 1 ==> OrBlank(others) == others
  {
  }

  lemma KeptAre(fixed: string)
    ensures AreKept(Kept(fixed))
    ensures forall k :: 1 <= k < |Kept(fixed)| ==> exists j :: 1 <= j < |Lines(fixed)| && Kept(fixed)[k] == Lines(fixed)[j]
  {
    hide Lines, Others, AreLines, AreKept, TrimLines;
    var lines := Lines(fixed);
    LinesJoin(fixed);
    OthersAre(lines);
    var others := Others(lines);
    assert AreKept(Kept(fixed)) by { BlankIsALine(others); TrimmedAreKept(OrBlank(others)); }
    TrimsWithin(others);
    forall k | 1 <= k < |Kept(fixed)| ensures exists j :: 1 <= j < |lines| && Kept(fixed)[k] == lines[j] {
      assert Kept(fixed)[k] == others[k];
    }
  }

  lemma BlankIsALine(others: seq<string>)
    requires AreLines(others) && forall k :: 0 <= k < |others| ==> !(PREFIX <= others[k])
    ensures AreLines(OrBlank(others)) && OrBlank(others) != [] && forall k :: 0 <= k < |OrBlank(others)| ==> !(PREFIX <= OrBlank(others)[k])
  {
  }

  lemma TopTrims(fixed: string)
    ensures TrimRight(Unlines(Others(Lines(fixed)))) == Unlines(Kept(fixed))
  {
    LinesJoin(fixed);
    OthersAre(Lines(fixed));
    var others := Others(Lines(fixed));
    assert Unlines(others) == Unlines(OrBlank(others));
    TrimUnlines(OrBlank(others));
  }

  lemma UnlinesOfTop(kept: seq<string>, line: string)
    requires kept != []
    ensures Unlines(TopLines(kept, line)) + "\n" == Unlines(kept) + "\n\n" + (if line == "" then "" else line + "\n\n")
  {
    UnlinesBoth(kept, [""]);
    if line == "" {
      assert TopLines(kept, line) == kept + [""];
    } else {
      UnlinesBoth(kept + [""], [line, ""]);
      UnlinesBoth([line], [""]);
      assert [line] + [""] == [line, ""];
    }
  }

  lemma TopIs(fixed: string, line: string)
    ensures Top(fixed, line) == Unlines(TopLines(Kept(fixed), line)) + "\n"
  {
    TopTrims(fixed);
    UnlinesOfTop(Kept(fixed), line);
  }

  lemma TopLinesAre(kept: seq<string>, line: string)
    requires AreKept(kept) && IsLine(line)
    ensures AreLines(TopLines(kept, line))
  {
  }

  /** Made again from its own result, the fixed part keeps the same lines: the sensitive line is only ever replaced. */
  lemma KeptAgain(kept: seq<string>, line: string)
    requires AreKept(kept) && IsLine(line)
    ensures Kept(Unlines(TopLines(kept, line))) == kept
  {
    TopLinesAre(kept, line);
    var all := TopLines(kept, line);
    LinesOfUnlines(all);
    OthersOfBoth(kept + [""], if line == "" then [] else [line, ""]);
    OthersAlready(kept + [""]);
    assert Others(["" ]) == [""] && (line != "" ==> [line, ""][1..] == [""]);
    var tail := if line == "" then [] else [""];
    assert Others(all) == kept + [""] + tail;
    TrimBlanks(kept, tail);
  }

  lemma TrimBlanks(kept: seq<string>, tail: seq<string>)
    requires AreKept(kept) && (tail == [] || tail == [""])
    ensures TrimLines(kept + [""] + tail) == kept
  {
    var one := kept + [""];
    assert one[..|one| - 1] == kept;
    assert TrimLines(kept) == kept;
    assert TrimLines(one) == kept;
    if tail == [""] {
      assert (one + tail)[..|one + tail| - 1] == one;
    } else {
      assert one + tail == one;
    }
  }

  // ---- Ahead of the reminder, and from it on ----

  ghost predicate Apart(body: string, fixed: string, tail: string) {
    && body == fixed + "\n" + tail && REMINDER <= tail
    && forall k :: !At(fixed, "\n" + REMINDER, k)
  }

  lemma SplitAt(body: string, i: nat)
    requires At(body, "\n" + REMINDER, i)
    ensures body == body[..i] + "\n" + body[i + 1..] && REMINDER <= body[i + 1..]
  {
    AtEach(body, "\n" + REMINDER, i, 0);
    var tail := body[i + 1..];
    assert |tail| >= |REMINDER|;
    forall j | 0 <= j < |REMINDER| ensures tail[j] == REMINDER[j] {
      AtEach(body, "\n" + REMINDER, i, j + 1);
    }
  }

  lemma NotInFront(body: string, p: string, i: nat)
    requires i <= |body| && forall k :: 0 <= k < i ==> !At(body, p, k)
    ensures p != "" ==> forall k :: !At(body[..i], p, k)
  {
    forall k ensures p != "" ==> !At(body[..i], p, k) {
      if 0 <= k && k + |p| <= i {
        assert body == body[..i] + body[i..];
        AtInHead(body[..i], body[i..], p, k);
      }
    }
  }

  lemma ApartAt(body: string)
    requires Index(body, "\n" + REMINDER).Some?
    ensures var i := Index(body, "\n" + REMINDER).value; Apart(body, body[..i], body[i + 1..])
  {
    var i := Index(body, "\n" + REMINDER).value;
    assert forall k :: 0 <= k < i ==> !At(body, "\n" + REMINDER, k);
    SplitAt(body, i);
    NotInFront(body, "\n" + REMINDER, i);
    hide Index, At;
  }

  lemma ApartIs(body: string, fixed: string, tail: string)
    requires Apart(body, fixed, tail)
    ensures Index(body, "\n" + REMINDER) == Some(|fixed|)
    ensures body[..|fixed|] == fixed && body[|fixed| + 1..] == tail
  {
    HiddenLines();
    var p := "\n" + REMINDER;
    assert body[|fixed|..|fixed| + |p|] == p;
    assert fixed + ("\n" + tail) == body && body[|fixed|] == '\n';
    forall k | 0 <= k < |fixed| ensures !At(body, p, k) {
      if k + |p| <= |fixed| {
        AtInHead(fixed, "\n" + tail, p, k);
      } else {
        var j := |fixed| - k;
        assert p[j] == REMINDER[j - 1] && REMINDER[j - 1] in REMINDER;
        Differs(body, p, k, j);
      }
    }
    FirstIs(body, p, |fixed|);
  }

  /** No line of a new fixed part but its first starts as the reminder does. */
  lemma NoLineHasReminder(fixed: string)
    requires forall k :: !At(fixed, "\n" + REMINDER, k)
    ensures forall j :: 1 <= j < |Lines(fixed)| ==> !(REMINDER <= Lines(fixed)[j])
  {
    HiddenLines();
    LinesJoin(fixed);
    AfterNewline(Lines(fixed), REMINDER);
  }

  lemma NoReminderInTop(fixed: string, line: string)
    requires IsLine(line) && forall k :: !At(fixed, "\n" + REMINDER, k)
    ensures forall k :: !At(Unlines(TopLines(Kept(fixed), line)), "\n" + REMINDER, k)
  {
    HiddenLines();
    KeptAre(fixed);
    NoLineHasReminder(fixed);
    hide Kept, Lines, Unlines, TopLines;
    NoLineStarts(Kept(fixed), Lines(fixed), line);
    TopLinesAre(Kept(fixed), line);
    AfterNewline(TopLines(Kept(fixed), line), REMINDER);
  }

  lemma NoLineStarts(kept: seq<string>, lines: seq<string>, line: string)
    requires IsLine(line)
    requires forall j :: 1 <= j < |lines| ==> !(REMINDER <= lines[j])
    requires forall k :: 1 <= k < |kept| ==> exists j :: 1 <= j < |lines| && kept[k] == lines[j]
    ensures forall j :: 1 <= j < |TopLines(kept, line)| ==> !(REMINDER <= TopLines(kept, line)[j])
  {
    HiddenLines();
    var all := TopLines(kept, line);
    forall j | 1 <= j < |all| ensures !(REMINDER <= all[j]) {
      if j < |kept| {
        assert all[j] == kept[j];
      } else {
        assert all[j] == "" || all[j] == line;
      }
    }
  }

  /** The line is put ahead of the reminder, and the reminder stays the first. */
  lemma WithLineApart(body: string, fixed: string, tail: string, line: string)
    requires Apart(body, fixed, tail) && IsLine(line)
    ensures var all := TopLines(Kept(fixed), line);
            WithLine(body, line) == Some(Unlines(all) + "\n" + tail) && Apart(Unlines(all) + "\n" + tail, Unlines(all), tail)
  {
    ApartIs(body, fixed, tail);
    TopIs(fixed, line);
    NoReminderInTop(fixed, line);
    hide Kept, TopLines, Top, Index, Unlines;
  }

  /** The sensitive lines among some lines, in order. */
  function Sensitives(ls: seq<string>): seq<string> {
    if ls == [] then [] else (if PREFIX <= ls[0] then [ls[0]] else []) + Sensitives(ls[1..])
  }

  lemma {:induction false} SensitivesOfBoth(xs: seq<string>, ys: seq<string>)
    ensures Sensitives(xs + ys) == Sensitives(xs) + Sensitives(ys)
    decreases |xs|
  {
    if xs == [] {
      assert xs + ys == ys;
    } else {
      assert (xs + ys)[1..] == xs[1..] + ys;
      SensitivesOfBoth(xs[1..], ys);
    }
  }

  lemma {:induction false} NoSensitives(ls: seq<string>)
    requires forall k :: 0 <= k < |ls| ==> !(PREFIX <= ls[k])
    ensures Sensitives(ls) == []
    decreases |ls|
  {
    if ls != [] {
      NoSensitives(ls[1..]);
    }
  }

  lemma SensitivesOfTop(kept: seq<string>, line: string)
    requires AreKept(kept) && IsLine(line)
    ensures Sensitives(TopLines(kept, line)) == if line == "" then [] else [line]
  {
    var added := if line == "" then [] else [line, ""];
    SensitivesOfBoth(kept + [""], added);
    NoSensitives(kept + [""]);
    assert [line, ""][1..] == [""] && [""][1..] == [];
  }

  /** The line asked for is the one sensitive line ahead of the reminder, or there is none if none is asked for; the other
      lines there are as they were, and so is everything from the reminder on. */
  lemma TheLineStands(body: string, line: string)
    requires Index(body, "\n" + REMINDER).Some? && IsLine(line)
    ensures WithLine(body, line).Some? && Index(WithLine(body, line).value, "\n" + REMINDER).Some?
    ensures var to, i := WithLine(body, line).value, Index(body, "\n" + REMINDER).value;
            var k := Index(to, "\n" + REMINDER).value;
            && Sensitives(Lines(to[..k])) == (if line == "" then [] else [line])
            && Kept(to[..k]) == Kept(body[..i]) && to[k + 1..] == body[i + 1..]
  {
    var i := Index(body, "\n" + REMINDER).value;
    var fixed, tail := body[..i], body[i + 1..];
    ApartAt(body);
    KeptAre(fixed);
    hide Kept, TopLines, Index, Unlines, Lines, Apart, AreKept, WithLine;
    WithLineApart(body, fixed, tail, line);
    var all := TopLines(Kept(fixed), line);
    TopIsLines(Kept(fixed), line);
    ApartIs(Unlines(all) + "\n" + tail, Unlines(all), tail);
    LinesOfUnlines(all);
    SensitivesOfTop(Kept(fixed), line);
    KeptAgain(Kept(fixed), line);
  }

  lemma TopIsLines(kept: seq<string>, line: string)
    requires AreKept(kept) && IsLine(line)
    ensures TopLines(kept, line) != [] && AreLines(TopLines(kept, line))
  {
  }

  /** A sensitive line replaces the one before it: the last put is all there is. */
  lemma LastLineStays(body: string, line: string, next: string)
    requires Index(body, "\n" + REMINDER).Some? && IsLine(line) && IsLine(next)
    ensures WithLine(WithLine(body, line).value, next) == WithLine(body, next)
  {
    var i := Index(body, "\n" + REMINDER).value;
    var fixed, tail := body[..i], body[i + 1..];
    ApartAt(body);
    WithLineApart(body, fixed, tail, line);
    WithLineApart(body, fixed, tail, next);
    KeptAre(fixed);
    KeptAgain(Kept(fixed), line);
    var all := TopLines(Kept(fixed), line);
    WithLineApart(Unlines(all) + "\n" + tail, Unlines(all), tail, next);
  }

  // ---- The footer, after the reminder ----

  lemma FooterInTail(front: string, tail: string)
    requires FooterIn(tail).Some?
    ensures var (o, c) := FooterIn(tail).value; FooterIn(front + tail) == Some((|front| + o, |front| + c))
  {
    var (o, c) := FooterIn(tail).value;
    var body := front + tail;
    AtInTail(front, tail, OPEN, |front| + o);
    forall j | |front| + o < j ensures !At(body, OPEN, j) {
      AtInTail(front, tail, OPEN, j);
    }
    LastIs(body, OPEN, |front| + o);
    assert body[|front| + o..] == tail[o..];
  }

  lemma Around(front: string, tail: string, o: nat, f: string, c: nat)
    requires o <= c <= |tail|
    ensures (front + tail)[..|front| + o] + f + (front + tail)[|front| + c..] == front + (tail[..o] + f + tail[c..])
  {
    assert (front + tail)[..|front| + o] == front + tail[..o];
    assert (front + tail)[|front| + c..] == tail[c..];
  }

  lemma WithFooterIs(body: string, footer: string, o: nat, c: nat)
    requires o <= c <= |body| && FooterIn(body) == Some((o, c))
    ensures WithFooter(body, footer) == body[..o] + Held(footer) + body[c..]
  {
  }

  lemma WithFooterInTail(front: string, tail: string, footer: string)
    requires FooterIn(tail).Some?
    ensures WithFooter(front + tail, footer) == front + WithFooter(tail, footer)
  {
    hide FooterIn, WithFooter, Held;
    var (o, c) := FooterIn(tail).value;
    FooterInTail(front, tail);
    WithFooterIs(tail, footer, o, c);
    WithFooterIs(front + tail, footer, |front| + o, |front| + c);
    Around(front, tail, o, Held(footer), c);
  }

  /** The reminder has nothing of a footer's opening, so the footer is after it. */
  lemma ReminderStays(tail: string, footer: string)
    requires REMINDER <= tail && FooterIn(tail).Some?
    ensures FooterIn(tail).value.0 >= |REMINDER| && REMINDER <= WithFooter(tail, footer)
  {
    HiddenLines();
    var o := FooterIn(tail).value.0;
    assert forall j :: 0 <= j < |REMINDER| ==> tail[j] == REMINDER[j] && REMINDER[j] in REMINDER;
    AtEach(tail, OPEN, o, 0);
    assert tail[..o][..|REMINDER|] == REMINDER;
  }

  /** Nothing opens across the end of a footer, nor after it. */
  lemma OpensOnlyAtItsStart(before: string, footer: string, after: string, k: int)
    requires IsFooter(footer) && |before| < k
    requires forall j :: !At(after, OPEN, j)
    ensures !At(before + footer + after, OPEN, k)
  {
    HiddenLines();
    var all := before + footer + after;
    var end := |before| + |footer|;
    if end <= k {
      AtInTail(before + footer, after, OPEN, k);
    } else if k + |OPEN| <= end {
      AtInHead(before + footer, after, OPEN, k);
      AtInTail(before, footer, OPEN, k);
    } else {
      var close := |footer| - |CLOSE|;
      assert At(footer, CLOSE, close);
      AtEach(footer, CLOSE, close, k - |before| - close);
      assert all[k] == footer[k - |before|];
      Differs(all, OPEN, k, 0);
    }
  }

  lemma ClosesFirstAtItsEnd(footer: string, after: string)
    requires IsFooter(footer)
    ensures Index(footer + after, CLOSE) == Some(|footer| - |CLOSE|)
  {
    var end := |footer| - |CLOSE|;
    AtInHead(footer, after, CLOSE, end);
    forall k | 0 <= k < end ensures !At(footer + after, CLOSE, k) {
      AtInHead(footer, after, CLOSE, k);
    }
    FirstIs(footer + after, CLOSE, end);
  }

  lemma OpensLastAt(before: string, f: string, after: string)
    requires IsFooter(f) && forall j :: !At(after, OPEN, j)
    ensures LastIndex(before + f + after, OPEN) == Some(|before|)
  {
    hide LastIndex;
    var all := before + f + after;
    assert all == before + (f + after);
    FooterOpens(f);
    AtInHead(f, after, OPEN, 0);
    AtInTail(before, f + after, OPEN, |before|);
    forall k | |before| < k ensures !At(all, OPEN, k) {
      OpensOnlyAtItsStart(before, f, after, k);
    }
    LastIs(all, OPEN, |before|);
  }

  lemma FooterStands(before: string, f: string, after: string)
    requires IsFooter(f) && forall j :: !At(after, OPEN, j)
    ensures FooterIn(before + f + after) == Some((|before|, |before| + |f|))
  {
    hide FooterIn, LastIndex, Index, At;
    var all := before + f + after;
    OpensLastAt(before, f, after);
    assert all[|before|..] == f + after;
    FooterOpens(f);
    ClosesFirstAtItsEnd(f, after);
    FooterInIs(all, |before|, |f| - |CLOSE|);
  }

  lemma FooterOpens(f: string)
    requires IsFooter(f)
    ensures At(f, OPEN, 0) && |CLOSE| <= |f|
  {
  }

  lemma FooterInIs(body: string, o: nat, j: nat)
    requires o <= |body| && LastIndex(body, OPEN) == Some(o) && Index(body[o..], CLOSE) == Some(j)
    ensures FooterIn(body) == Some((o, o + j + |CLOSE|))
  {
  }

  /** A footer just brought up to date is found again where it was put. */
  lemma FooterIsThere(tail: string, footer: string)
    requires FooterIn(tail).Some? && IsFooter(Held(footer))
    ensures var (o, c) := FooterIn(tail).value;
            && WithFooter(tail, footer) == tail[..o] + Held(footer) + tail[c..]
            && FooterIn(WithFooter(tail, footer)) == Some((o, o + |Held(footer)|))
  {
    hide FooterIn, IsFooter, WithFooter, Held, At;
    var (o, c) := FooterIn(tail).value;
    NothingOpensAfter(tail);
    WithFooterIs(tail, footer, o, c);
    FooterStands(tail[..o], Held(footer), tail[c..]);
  }

  lemma NothingOpensAfter(tail: string)
    requires FooterIn(tail).Some?
    ensures forall j :: !At(tail[FooterIn(tail).value.1..], OPEN, j)
  {
    var (o, c) := FooterIn(tail).value;
    forall j ensures !At(tail[c..], OPEN, j) {
      assert tail == tail[..c] + tail[c..] && c > o;
      if 0 <= j {
        AtInTail(tail[..c], tail[c..], OPEN, j + c);
      }
    }
  }

  lemma FooterAgain(tail: string, footer: string)
    requires FooterIn(tail).Some? && IsFooter(Held(footer))
    ensures WithFooter(WithFooter(tail, footer), footer) == WithFooter(tail, footer)
  {
    FooterIsThere(tail, footer);
    var (o, c) := FooterIn(tail).value;
    var all := WithFooter(tail, footer);
    assert all[..o] == tail[..o] && all[o + |Held(footer)|..] == tail[c..];
  }

  // ---- Both, again ----

  /** The footer and the sensitive line are brought up to date in either order. */
  lemma EitherFirst(body: string, line: string, footer: string)
    requires Written(body) && IsLine(line) && IsFooter(Held(footer))
    ensures Index(WithFooter(body, footer), "\n" + REMINDER).Some?
    ensures WithLine(WithFooter(body, footer), line) == Some(WithFooter(WithLine(body, line).value, footer))
    ensures WithFooter(WithFooter(body, footer), footer) == WithFooter(body, footer)
  {
    var i := Index(body, "\n" + REMINDER).value;
    var fixed, tail := body[..i], body[i + 1..];
    ApartAt(body);
    ReminderStays(tail, footer);
    WithFooterInTail(fixed + "\n", tail, footer);
    var footed := fixed + "\n" + WithFooter(tail, footer);
    assert Apart(footed, fixed, WithFooter(tail, footer));
    ApartIs(footed, fixed, WithFooter(tail, footer));
    WithLineApart(body, fixed, tail, line);
    WithLineApart(footed, fixed, WithFooter(tail, footer), line);
    var all := Unlines(TopLines(Kept(fixed), line));
    WithFooterInTail(all + "\n", tail, footer);
    FooterIsThere(tail, footer);
    FooterAgain(tail, footer);
    WithFooterInTail(fixed + "\n", WithFooter(tail, footer), footer);
  }

  // ---- No carriage returns come back ----

  lemma {:induction false} LinesHaveNone(s: string)
    requires '\r' !in s
    ensures forall k :: 0 <= k < |Lines(s)| ==> '\r' !in Lines(s)[k]
    decreases |s|
  {
    if s != "" {
      assert s[0] in s;
      LinesHaveNone(s[1..]);
    }
  }

  lemma {:induction false} UnlinesHasNone(ls: seq<string>)
    requires forall k :: 0 <= k < |ls| ==> '\r' !in ls[k]
    ensures '\r' !in Unlines(ls)
    decreases |ls|
  {
    if |ls| > 1 {
      UnlinesHasNone(ls[1..]);
    }
  }

  lemma TopHasNone(fixed: string, line: string)
    requires '\r' !in fixed && IsLine(line)
    ensures '\r' !in Unlines(TopLines(Kept(fixed), line))
  {
    LinesHaveNone(fixed);
    OthersAmong(Lines(fixed));
    var others := OrBlank(Others(Lines(fixed)));
    var kept := Kept(fixed);
    forall k | 0 <= k < |kept| ensures '\r' !in kept[k] {
      assert kept[k] == others[k];
      assert others[k] in others;
    }
    UnlinesHasNone(TopLines(kept, line));
  }

  // ---- What is left of a description ----

  /** What a description says besides its sensitive line and its footer. */
  datatype Outside = Outside(kept: seq<string>, before: string, after: string)

  function OutsideOf(body: string): Outside
    requires Written(body)
  {
    var i := Index(body, "\n" + REMINDER).value;
    var tail := body[i + 1..];
    var (o, c) := FooterIn(tail).value;
    Outside(Kept(body[..i]), tail[..o], tail[c..])
  }

  function FooterOf(body: string): string
    requires Written(body)
  {
    var tail := body[Index(body, "\n" + REMINDER).value + 1..];
    var (o, c) := FooterIn(tail).value;
    tail[o..c]
  }

  lemma LinedIsWritten(body: string, line: string)
    requires Written(body) && IsLine(line)
    ensures var to := WithLine(body, line).value;
            Written(to) && OutsideOf(to) == OutsideOf(body) && FooterOf(to) == FooterOf(body)
  {
    var i := Index(body, "\n" + REMINDER).value;
    var fixed, tail := body[..i], body[i + 1..];
    ApartAt(body);
    WithLineApart(body, fixed, tail, line);
    var top := Unlines(TopLines(Kept(fixed), line));
    ApartIs(top + "\n" + tail, top, tail);
    TopHasNone(fixed, line);
    KeptAre(fixed);
    KeptAgain(Kept(fixed), line);
  }

  lemma FootedParts(tail: string, footer: string)
    requires FooterIn(tail).Some? && IsFooter(Held(footer))
    ensures var (o, c) := FooterIn(tail).value;
            var end := WithFooter(tail, footer);
            FooterIn(end) == Some((o, o + |Held(footer)|))
            && end[..o] == tail[..o] && end[o..o + |Held(footer)|] == Held(footer) && end[o + |Held(footer)|..] == tail[c..]
  {
    FooterIsThere(tail, footer);
    hide FooterIn, WithFooter, Held;
  }

  lemma FootedApart(body: string, fixed: string, tail: string, footer: string)
    requires Apart(body, fixed, tail) && FooterIn(tail).Some?
    ensures WithFooter(body, footer) == fixed + "\n" + WithFooter(tail, footer)
    ensures Apart(WithFooter(body, footer), fixed, WithFooter(tail, footer))
  {
    ReminderStays(tail, footer);
    WithFooterInTail(fixed + "\n", tail, footer);
    hide FooterIn, WithFooter, Held;
  }

  lemma NoReturns(tail: string, footer: string)
    requires '\r' !in tail && '\r' !in Held(footer) && FooterIn(tail).Some?
    ensures '\r' !in WithFooter(tail, footer)
  {
  }

  lemma FootedIsWritten(body: string, footer: string)
    requires Written(body) && IsFooter(Held(footer))
    ensures var to := WithFooter(body, footer);
            Written(to) && OutsideOf(to) == OutsideOf(body) && FooterOf(to) == Held(footer)
  {
    var i := Index(body, "\n" + REMINDER).value;
    var fixed, tail := body[..i], body[i + 1..];
    ApartAt(body);
    FootedApart(body, fixed, tail, footer);
    FootedParts(tail, footer);
    NoReturns(tail, footer);
    var to, end := WithFooter(body, footer), WithFooter(tail, footer);
    ApartIs(to, fixed, end);
    hide FooterIn, WithFooter, Held, Index, Apart, Kept;
  }
}
