/** A description with no footer to bring up to date gets one at its end, and is right from then on. */
module DescriptionAppends {
  import opened Base
  import opened Text
  import opened Description
  import opened DescriptionSettles

  ghost predicate NoneIn(s: string, p: string) {
    forall k :: !At(s, p, k)
  }

  /** A description with the reminder, and with no footer to bring up to date: no hidden line opens one, or none closes the
      last that is opened. */
  ghost predicate Unfooted(body: string) {
    '\r' !in body && Index(body, "\n" + REMINDER).Some? && FooterIn(body).None?
  }

  /** Text that has neither hidden line. */
  ghost predicate Quiet(line: string) {
    NoneIn(line, OPEN) && NoneIn(line, CLOSE)
  }

  /** Nor has any sensitive line, of those there are and those that may be put. */
  ghost predicate QuietLines(body: string, listed: string, counted: string)
    requires Index(body, "\n" + REMINDER).Some?
  {
    && Quiet(listed) && Quiet(counted)
    && forall l :: l in Lines(body[..Index(body, "\n" + REMINDER).value]) && PREFIX <= l ==> Quiet(l)
  }

  // ---- Whether there is a footer, piece by piece ----

  /** What text has of the hidden lines: whether one opens, and whether one closes that none opens after. */
  datatype Marks = Marks(opens: bool, shut: bool)

  const NOTHING := Marks(false, false)

  /** Of one text and then another. */
  function Plus(a: Marks, b: Marks): Marks {
    Marks(a.opens || b.opens, b.shut || (a.shut && !b.opens))
  }

  ghost predicate ShutAt(s: string, c: int) {
    At(s, CLOSE, c) && forall o :: c < o ==> !At(s, OPEN, o)
  }

  ghost function MarksOf(s: string): Marks {
    Marks(!NoneIn(s, OPEN), exists c :: ShutAt(s, c))
  }

  /** There is a footer exactly if a line opens one and one closes it that none opens after. */
  lemma FooterByMarks(s: string)
    ensures FooterIn(s).Some? <==> MarksOf(s) == Marks(true, true)
  {
    HiddenLines();
    if FooterIn(s).Some? {
      var o := LastIndex(s, OPEN).value;
      var j := Index(s[o..], CLOSE).value;
      assert s == s[..o] + s[o..];
      AtInTail(s[..o], s[o..], CLOSE, o + j);
      assert ShutAt(s, o + j);
    } else if LastIndex(s, OPEN).Some? {
      var o := LastIndex(s, OPEN).value;
      forall c ensures !ShutAt(s, c) {
        if ShutAt(s, c) {
          ClosesAfter(s, o, c);
        }
      }
    }
  }

  lemma ClosesAfter(s: string, o: nat, c: int)
    requires At(s, OPEN, o) && ShutAt(s, c)
    ensures Index(s[o..], CLOSE).Some?
  {
    HiddenLines();
    AtEach(s, OPEN, o, 5);
    AtEach(s, CLOSE, c, 5);
    assert o < c;
    assert s == s[..o] + s[o..];
    AtInTail(s[..o], s[o..], CLOSE, c);
  }

  /** What has no newline does not stand across one. */
  lemma AtAcross(a: string, b: string, p: string, k: int)
    requires '\n' !in p && p != ""
    ensures At(a + "\n" + b, p, k) <==> At(a, p, k) || At(b, p, k - |a| - 1)
  {
    var s := a + "\n" + b;
    assert s == a + ("\n" + b) && s == (a + "\n") + b;
    if k + |p| <= |a| {
      AtInHead(a, "\n" + b, p, k);
    } else if |a| < k {
      AtInTail(a + "\n", b, p, k);
    } else if 0 <= k {
      assert s[|a|] == '\n' && p[|a| - k] in p;
      Differs(s, p, k, |a| - k);
    }
  }

  lemma MarksAcross(a: string, b: string)
    ensures MarksOf(a + "\n" + b) == Plus(MarksOf(a), MarksOf(b))
  {
    OpensAcross(a, b);
    ShutsAcross(a, b);
  }

  lemma OpensAcross(a: string, b: string)
    ensures NoneIn(a + "\n" + b, OPEN) <==> NoneIn(a, OPEN) && NoneIn(b, OPEN)
  {
    HiddenLines();
    hide At;
    forall k ensures At(a + "\n" + b, OPEN, k) <==> At(a, OPEN, k) || At(b, OPEN, k - |a| - 1) {
      AtAcross(a, b, OPEN, k);
    }
    if !NoneIn(b, OPEN) {
      var k :| At(b, OPEN, k);
      AtAcross(a, b, OPEN, k + |a| + 1);
    }
  }

  lemma ShutsAcross(a: string, b: string)
    ensures (exists c :: ShutAt(a + "\n" + b, c)) <==> (exists c :: ShutAt(b, c)) || ((exists c :: ShutAt(a, c)) && NoneIn(b, OPEN))
  {
    var s := a + "\n" + b;
    hide ShutAt, NoneIn;
    if c :| ShutAt(s, c) {
      ShutSplits(a, b, c);
    }
    if c :| ShutAt(b, c) {
      ShutBehind(a, b, c);
    }
    if NoneIn(b, OPEN) {
      if c :| ShutAt(a, c) {
        ShutAhead(a, b, c);
      }
    }
  }

  lemma ShutSplits(a: string, b: string, c: int)
    requires ShutAt(a + "\n" + b, c)
    ensures ShutAt(b, c - |a| - 1) || (ShutAt(a, c) && NoneIn(b, OPEN))
  {
    HiddenLines();
    AtAcross(a, b, CLOSE, c);
    forall o | c < o ensures !At(a, OPEN, o) && !At(b, OPEN, o - |a| - 1) {
      AtAcross(a, b, OPEN, o);
    }
    hide At;
    if At(b, CLOSE, c - |a| - 1) {
      forall o | c - |a| - 1 < o ensures !At(b, OPEN, o) {
        AtAcross(a, b, OPEN, o + |a| + 1);
      }
    } else {
      AtIsInside(a, CLOSE, c);
      forall o ensures !At(b, OPEN, o) {
        if At(b, OPEN, o) {
          AtIsInside(b, OPEN, o);
          AtAcross(a, b, OPEN, o + |a| + 1);
        }
      }
    }
  }

  lemma AtIsInside(s: string, p: string, k: int)
    requires At(s, p, k)
    ensures 0 <= k && k + |p| <= |s|
  {
  }

  lemma ShutBehind(a: string, b: string, c: int)
    requires ShutAt(b, c)
    ensures ShutAt(a + "\n" + b, c + |a| + 1)
  {
    HiddenLines();
    AtAcross(a, b, CLOSE, c + |a| + 1);
    AtIsInside(b, CLOSE, c);
    forall o | c + |a| + 1 < o ensures !At(a + "\n" + b, OPEN, o) {
      AtAcross(a, b, OPEN, o);
    }
  }

  lemma ShutAhead(a: string, b: string, c: int)
    requires ShutAt(a, c) && NoneIn(b, OPEN)
    ensures ShutAt(a + "\n" + b, c)
  {
    HiddenLines();
    AtAcross(a, b, CLOSE, c);
    forall o | c < o ensures !At(a + "\n" + b, OPEN, o) {
      AtAcross(a, b, OPEN, o);
    }
  }

  lemma QuietIsNothing(s: string)
    ensures Quiet(s) ==> MarksOf(s) == NOTHING
    ensures MarksOf("") == NOTHING
  {
    HiddenLines();
  }

  ghost function AllMarks(ls: seq<string>): Marks {
    if ls == [] then NOTHING else Plus(MarksOf(ls[0]), AllMarks(ls[1..]))
  }

  lemma {:induction false} MarksOfBoth(xs: seq<string>, ys: seq<string>)
    ensures AllMarks(xs + ys) == Plus(AllMarks(xs), AllMarks(ys))
    decreases |xs|
  {
    hide MarksOf;
    if xs == [] {
      assert xs + ys == ys;
    } else {
      assert (xs + ys)[1..] == xs[1..] + ys;
      MarksOfBoth(xs[1..], ys);
    }
  }

  lemma {:induction false} MarksOfLines(ls: seq<string>)
    ensures MarksOf(Unlines(ls)) == AllMarks(ls)
    decreases |ls|
  {
    hide MarksOf;
    QuietIsNothing("");
    if |ls| == 1 {
      assert ls[1..] == [];
    } else if |ls| > 1 {
      MarksAcross(ls[0], Unlines(ls[1..]));
      MarksOfLines(ls[1..]);
    }
  }

  lemma {:induction false} OthersMark(ls: seq<string>)
    requires forall l :: l in ls && PREFIX <= l ==> Quiet(l)
    ensures AllMarks(Others(ls)) == AllMarks(ls)
    decreases |ls|
  {
    hide MarksOf, Quiet;
    if ls != [] {
      OthersMark(ls[1..]);
      if PREFIX <= ls[0] {
        assert ls[0] in ls && Others(ls) == Others(ls[1..]);
        QuietIsNothing(ls[0]);
      } else {
        assert Others(ls) == [ls[0]] + Others(ls[1..]);
        MarksOfBoth([ls[0]], Others(ls[1..]));
        assert [ls[0]][1..] == [];
      }
    }
  }

  lemma {:induction false} TrimmedMark(ls: seq<string>)
    ensures AllMarks(TrimLines(ls)) == AllMarks(ls)
    decreases |ls|
  {
    hide MarksOf;
    QuietIsNothing("");
    if TrimLines(ls) != ls {
      var front := ls[..|ls| - 1];
      TrimmedMark(front);
      assert ls == front + [""];
      MarksOfBoth(front, [""]);
      assert [""][1..] == [];
    }
  }

  lemma TopMarks(fixed: string, line: string)
    requires Quiet(line) && forall l :: l in Lines(fixed) && PREFIX <= l ==> Quiet(l)
    ensures MarksOf(Unlines(TopLines(Kept(fixed), line))) == MarksOf(fixed)
  {
    hide MarksOf, Quiet;
    var kept, added := Kept(fixed), [""] + if line == "" then [] else [line, ""];
    QuietIsNothing(line);
    LinesJoin(fixed);
    MarksOfLines(Lines(fixed));
    OthersMark(Lines(fixed));
    TrimmedMark(OrBlank(Others(Lines(fixed))));
    MarksOfLines(TopLines(kept, line));
    MarksOfBoth(kept, added);
    AddedMark(line);
    assert TopLines(kept, line) == kept + added;
  }

  lemma AddedMark(line: string)
    requires MarksOf(line) == NOTHING
    ensures AllMarks([""] + if line == "" then [] else [line, ""]) == NOTHING
    ensures AllMarks([""]) == NOTHING
  {
    hide MarksOf;
    QuietIsNothing("");
    assert [""][1..] == [] && [line, ""][1..] == [""] && [""] + [] == [""];
    MarksOfBoth([""], if line == "" then [] else [line, ""]);
  }

  /** A quiet sensitive line brought up to date, in place of quiet ones, brings no footer with it and takes none away. */
  lemma LinedIsUnfooted(body: string, line: string)
    requires Unfooted(body) && IsLine(line) && QuietLines(body, line, line)
    ensures WithLine(body, line).Some? && Unfooted(WithLine(body, line).value)
  {
    var i := Index(body, "\n" + REMINDER).value;
    var fixed, tail := body[..i], body[i + 1..];
    ApartAt(body);
    WithLineApart(body, fixed, tail, line);
    var top := Unlines(TopLines(Kept(fixed), line));
    ApartIs(top + "\n" + tail, top, tail);
    TopHasNone(fixed, line);
    TopMarks(fixed, line);
    MarksAcross(fixed, tail);
    MarksAcross(top, tail);
    hide MarksOf, Kept, TopLines, Quiet, FooterIn, Index, WithLine;
    FooterByMarks(body);
    FooterByMarks(top + "\n" + tail);
  }

  // ---- The footer appended ----

  /** The end of a description, with a footer put after it. */
  function Ended(tail: string, footer: string): string {
    TrimRight(tail) + "\n\n" + footer + "\n"
  }

  lemma ReminderIsNotTrimmed(tail: string)
    requires REMINDER <= tail
    ensures REMINDER <= TrimRight(tail) && TrimRight(tail) != ""
  {
    HiddenLines();
    assert forall j :: 0 <= j < |REMINDER| ==> tail[j] == REMINDER[j] && REMINDER[j] in REMINDER;
    assert |TrimRight(tail)| >= |REMINDER|;
    assert TrimRight(tail)[..|REMINDER|] == tail[..|REMINDER|];
  }

  lemma AppendedApart(body: string, fixed: string, tail: string, footer: string)
    requires Apart(body, fixed, tail) && FooterIn(body).None? && footer != ""
    ensures WithFooter(body, footer) == fixed + "\n" + Ended(tail, footer)
    ensures Apart(WithFooter(body, footer), fixed, Ended(tail, footer))
  {
    ReminderIsNotTrimmed(tail);
    TrimTail(fixed + "\n", tail);
    hide FooterIn, TrimRight;
    assert (fixed + "\n") + TrimRight(tail) + "\n\n" + footer + "\n" == fixed + "\n" + Ended(tail, footer);
  }

  lemma Pieces(front: string, cut: string, footer: string)
    ensures var before := front + cut + "\n\n"; var all := front + (cut + "\n\n" + footer + "\n");
            && all == before + footer + "\n"
            && all[..|before|] == before && all[|before| + |footer|..] == "\n"
  {
  }

  /** A footer put at the end is found there, whatever stands before it. */
  lemma EndedHasFooter(front: string, tail: string, footer: string)
    requires IsFooter(footer)
    ensures var n := |front| + |TrimRight(tail)| + 2;
            && FooterIn(front + Ended(tail, footer)) == Some((n, n + |footer|))
            && (footer != "" ==> WithFooter(front + Ended(tail, footer), footer) == front + Ended(tail, footer))
  {
    BreakOpensNothing();
    hide FooterIn, WithFooter, TrimRight, IsFooter, At;
    var before := front + TrimRight(tail) + "\n\n";
    FooterStands(before, footer, "\n");
    Pieces(front, TrimRight(tail), footer);
    WithFooterIs(front + Ended(tail, footer), footer, |before|, |before| + |footer|);
  }

  lemma EndedHasNoReturn(tail: string, footer: string)
    requires '\r' !in tail && '\r' !in footer
    ensures '\r' !in Ended(tail, footer)
  {
  }

  /** The first edit restores the shape the agent writes: the fixed part and the rest of the description as they were, but
      for the newlines at its end, and the footer after them. */
  lemma AppendedIsWritten(body: string, footer: string)
    requires Unfooted(body) && footer != "" && IsFooter(footer)
    ensures var to := WithFooter(body, footer);
            var i := Index(body, "\n" + REMINDER).value;
            && Written(to) && WithFooter(to, footer) == to && FooterOf(to) == footer
            && OutsideOf(to) == Outside(Kept(body[..i]), TrimRight(body[i + 1..]) + "\n\n", "\n")
  {
    var i := Index(body, "\n" + REMINDER).value;
    var fixed, tail := body[..i], body[i + 1..];
    ApartAt(body);
    AppendedApart(body, fixed, tail, footer);
    EndedHasFooter("", tail, footer);
    EndedHasFooter(fixed + "\n", tail, footer);
    EndedHasNoReturn(tail, footer);
    ApartIs(WithFooter(body, footer), fixed, Ended(tail, footer));
    EndsWithFooter(tail, footer);
    assert "" + Ended(tail, footer) == Ended(tail, footer);
    hide FooterIn, IsFooter, WithFooter, Index, Apart, Kept, TrimRight;
  }

  lemma EndsWithFooter(tail: string, footer: string)
    ensures var n := |TrimRight(tail)| + 2; var all := Ended(tail, footer);
            n + |footer| <= |all| && all[..n] == TrimRight(tail) + "\n\n" && all[n..n + |footer|] == footer && all[n + |footer|..] == "\n"
  {
    hide TrimRight;
  }

  /** Here too, the footer and the line are brought up to date in either order. */
  lemma EitherFirstAppended(body: string, line: string, footer: string)
    requires Unfooted(body) && IsLine(line) && QuietLines(body, line, line) && footer != "" && IsFooter(footer)
    ensures WithLine(body, line).Some?
    ensures WithLine(WithFooter(body, footer), line) == Some(WithFooter(WithLine(body, line).value, footer))
  {
    var i := Index(body, "\n" + REMINDER).value;
    var fixed, tail := body[..i], body[i + 1..];
    ApartAt(body);
    AppendedApart(body, fixed, tail, footer);
    WithLineApart(body, fixed, tail, line);
    WithLineApart(WithFooter(body, footer), fixed, Ended(tail, footer), line);
    LinedIsUnfooted(body, line);
    var top := Unlines(TopLines(Kept(fixed), line));
    AppendedApart(top + "\n" + tail, top, tail, footer);
  }

  // ---- Edited twice ----

  /** What a body with the reminder is brought to, given what its footer makes of it. */
  function Lined(footed: string, listed: string, counted: string): string
    requires Index(footed, "\n" + REMINDER).Some?
  {
    var all := WithLine(footed, listed).value;
    if OverLimit(all) then WithLine(footed, counted).value else all
  }

  lemma DescribedAs(body: string, listed: string, counted: string, footer: Option<string>)
    requires Index(Footed(Normal(body), footer), "\n" + REMINDER).Some?
    ensures var was, footed := Normal(body), Footed(Normal(body), footer);
            var to := Lined(footed, listed, counted);
            Described(body, listed, counted, footer) ==
              if to == was then ("", AlreadyRight)
              else if OverLimit(to) && footer.Some? then Described(body, listed, counted, None)
              else if OverLimit(to) then ("", TooLong)
              else (to, if OverLimit(WithLine(footed, listed).value) then Counted else Listed)
  {
  }

  lemma LinedAgain(footed: string, line: string, listed: string, counted: string)
    requires Index(footed, "\n" + REMINDER).Some? && IsLine(line) && IsLine(listed) && IsLine(counted)
    ensures WithLine(footed, line).Some? && Index(WithLine(footed, line).value, "\n" + REMINDER).Some?
    ensures Lined(WithLine(footed, line).value, listed, counted) == Lined(footed, listed, counted)
  {
    LastLineStays(footed, line, listed);
    LastLineStays(footed, line, counted);
  }

  function LineUsed(footed: string, listed: string, counted: string): string
    requires Index(footed, "\n" + REMINDER).Some?
  {
    if OverLimit(WithLine(footed, listed).value) then counted else listed
  }

  lemma LinedIs(footed: string, listed: string, counted: string)
    requires Index(footed, "\n" + REMINDER).Some?
    ensures WithLine(footed, LineUsed(footed, listed, counted)) == Some(Lined(footed, listed, counted))
  {
    hide OverLimit;
  }

  /** What the sensitive lines, with no footer to bring up to date, make is already right. */
  lemma LinedSettles(was: string, listed: string, counted: string)
    requires Unfooted(was) && IsLine(listed) && IsLine(counted) && QuietLines(was, listed, counted)
    ensures var to := Lined(was, listed, counted);
            Unfooted(to) && Lined(to, listed, counted) == to && Described(to, listed, counted, None) == ("", AlreadyRight)
  {
    var line := LineUsed(was, listed, counted);
    LinedIsUnfooted(was, line);
    LinedAgain(was, line, listed, counted);
    var to := Lined(was, listed, counted);
    assert to == WithLine(was, line).value;
    hide WithLine, NoneIn, Described, OverLimit, Lined, LineUsed;
    NormalAlready(to);
    DescribedAs(to, listed, counted, None);
  }

  /** And what they make with a footer appended is, if it may be posted. */
  lemma AppendedSettles(was: string, listed: string, counted: string, footer: string)
    requires Unfooted(was) && Parts(listed, counted, Some(footer)) && footer != ""
    ensures Written(WithFooter(was, footer))
    ensures var to := Lined(WithFooter(was, footer), listed, counted);
            && Written(to) && Described(to, listed, counted, Some(footer)) == ("", AlreadyRight)
            && OutsideOf(to) == OutsideOf(WithFooter(was, footer)) && FooterOf(to) == footer
  {
    AppendedIsLined(was, listed, counted, footer);
    var footed := WithFooter(was, footer);
    var line := LineUsed(footed, listed, counted);
    var to := Lined(footed, listed, counted);
    hide OutsideOf, FooterOf, Kept;
    hide WithLine, WithFooter, Written, Described, OverLimit, Lined, LineUsed, IsFooter, NoneIn;
    LinedAgain(footed, line, listed, counted);
    WrittenIsNormal(to);
    WrittenHasReminder(to);
    DescribedAs(to, listed, counted, Some(footer));
  }

  lemma AppendedIsLined(was: string, listed: string, counted: string, footer: string)
    requires Unfooted(was) && Parts(listed, counted, Some(footer)) && footer != ""
    ensures Written(WithFooter(was, footer)) && Index(WithFooter(was, footer), "\n" + REMINDER).Some?
    ensures var footed := WithFooter(was, footer);
            var to := Lined(footed, listed, counted);
            && WithLine(footed, LineUsed(footed, listed, counted)) == Some(to) && IsLine(LineUsed(footed, listed, counted))
            && Written(to) && Footed(to, Some(footer)) == to
            && OutsideOf(to) == OutsideOf(footed) && FooterOf(to) == footer
  {
    hide WithFooter, Written, IsFooter, NoneIn, OutsideOf, FooterOf, Kept, WithLine, Unfooted, OverLimit, TrimRight, Index;
    HasReminder(was);
    AppendedIsWritten(was, footer);
    var footed := WithFooter(was, footer);
    WrittenHasReminder(footed);
    LinedIs(footed, listed, counted);
    var line := LineUsed(footed, listed, counted);
    LinedIsWritten(footed, line);
    FootedAgain(footed, line, Some(footer));
  }

  lemma WrittenHasReminder(body: string)
    requires Written(body)
    ensures Index(body, "\n" + REMINDER).Some?
  {
  }

  /** Where the appended footer is over the limit, it is again, and the rest is right without it. */
  lemma AppendedGivesWay(was: string, listed: string, counted: string, footer: string)
    requires Unfooted(was) && Parts(listed, counted, Some(footer)) && footer != "" && QuietLines(was, listed, counted)
    requires Written(WithFooter(was, footer)) && OverLimit(Lined(WithFooter(was, footer), listed, counted))
    ensures var to := Lined(was, listed, counted);
            !OverLimit(to) ==> Unfooted(to) && Described(to, listed, counted, Some(footer)) == ("", AlreadyRight)
  {
    assert Held(footer) == footer;
    var footed := WithFooter(was, footer);
    var line := LineUsed(was, listed, counted);
    var to := Lined(was, listed, counted);
    assert to == WithLine(was, line).value;
    LinedSettles(was, listed, counted);
    EitherFirstAppended(was, line, footer);
    LinedAgain(footed, line, listed, counted);
    assert Footed(to, Some(footer)) == WithLine(footed, line).value;
    UnfootedIsNormal(to);
    hide WithLine, WithFooter, Written, Described, OverLimit, Lined, LineUsed, IsFooter, NoneIn, Unfooted;
    DescribedAs(to, listed, counted, Some(footer));
  }

  lemma UnfootedIsNormal(body: string)
    requires Unfooted(body)
    ensures Normal(body) == body
  {
    NormalAlready(body);
  }

  /** A description with no footer to bring up to date - someone deleted one of its hidden lines, or both, or has them the
      wrong way round - is edited once: its footer is appended and its shape restored, and that is already right. Nothing
      else of it changes but the newlines its end is trimmed of. */
  lemma OneEditRestoresTheFooter(body: string, listed: string, counted: string, footer: string)
    requires Unfooted(Normal(body)) && IsLine(listed) && IsLine(counted) && footer != "" && IsFooter(footer)
    ensures Index(Normal(body), "\n" + REMINDER).Some? && Index(WithFooter(Normal(body), footer), "\n" + REMINDER).Some?
    ensures var was := Normal(body);
            var i := Index(was, "\n" + REMINDER).value;
            var (to, change) := Described(body, listed, counted, Some(footer));
            !OverLimit(Lined(WithFooter(was, footer), listed, counted)) && (change.Listed? || change.Counted?) ==>
              && Described(to, listed, counted, Some(footer)) == ("", AlreadyRight)
              && Written(to) && FooterOf(to) == footer
              && OutsideOf(to) == Outside(Kept(was[..i]), TrimRight(was[i + 1..]) + "\n\n", "\n")
  {
    var was := Normal(body);
    HasReminder(was);
    AppendedIsWritten(was, footer);
    WrittenHasReminder(WithFooter(was, footer));
    AppendedSettles(was, listed, counted, footer);
    hide Described, Lined, WithFooter, WithLine, Written, OverLimit, Normal, IsFooter, NoneIn, OutsideOf, FooterOf, Kept, TrimRight, Index, Unfooted;
    DescribedAs(body, listed, counted, Some(footer));
  }

  lemma HasReminder(body: string)
    requires Unfooted(body)
    ensures Index(body, "\n" + REMINDER).Some?
  {
  }

  /** Where the appended footer is over the limit, or there is nothing to report, the edit is made without one, and settles
      too: as long as no sensitive line has a hidden line in it. */
  lemma ItSettlesWithoutOne(body: string, listed: string, counted: string, footer: string)
    requires Unfooted(Normal(body)) && IsLine(listed) && IsLine(counted) && QuietLines(Normal(body), listed, counted)
    requires footer != "" ==> IsFooter(footer)
    ensures Index(WithFooter(Normal(body), footer), "\n" + REMINDER).Some?
    ensures var was := Normal(body);
            var (to, change) := Described(body, listed, counted, Some(footer));
            (footer == "" || OverLimit(Lined(WithFooter(was, footer), listed, counted))) && (change.Listed? || change.Counted?) ==>
              && Unfooted(to) && to == Lined(was, listed, counted)
              && Described(to, listed, counted, Some(footer)) == ("", AlreadyRight)
  {
    var was := Normal(body);
    HasReminder(was);
    if footer == "" {
      NothingToAppend(body, listed, counted);
    } else {
      AppendedIsWritten(was, footer);
      WrittenHasReminder(WithFooter(was, footer));
      hide Described, Lined, WithFooter, WithLine, Written, OverLimit, Normal, IsFooter, Quiet, Index, Unfooted, OutsideOf, FooterOf, Kept, TrimRight;
      DescribedAs(body, listed, counted, Some(footer));
      DescribedAs(body, listed, counted, None);
      if OverLimit(Lined(WithFooter(was, footer), listed, counted)) {
        AppendedGivesWay(was, listed, counted, footer);
      }
    }
  }

  lemma NothingToAppend(body: string, listed: string, counted: string)
    requires Unfooted(Normal(body)) && IsLine(listed) && IsLine(counted) && QuietLines(Normal(body), listed, counted)
    ensures WithFooter(Normal(body), "") == Normal(body)
    ensures var (to, change) := Described(body, listed, counted, Some(""));
            change.Listed? || change.Counted? ==>
              && Unfooted(to) && to == Lined(Normal(body), listed, counted)
              && Described(to, listed, counted, Some("")) == ("", AlreadyRight)
  {
    var was := Normal(body);
    LinedSettles(was, listed, counted);
    var to := Lined(was, listed, counted);
    UnfootedIsNormal(to);
    assert Footed(was, Some("")) == was && Footed(to, Some("")) == to;
    hide WithLine, WithFooter, Described, OverLimit, Lined, Quiet, FooterIn;
    DescribedAs(body, listed, counted, Some(""));
    DescribedAs(body, listed, counted, None);
    DescribedAs(to, listed, counted, Some(""));
  }

  // ---- The line alone ----

  lemma LinedHasNoReturn(body: string, line: string)
    requires '\r' !in body && Index(body, "\n" + REMINDER).Some? && IsLine(line)
    ensures WithLine(body, line).Some? && '\r' !in WithLine(body, line).value
  {
    var i := Index(body, "\n" + REMINDER).value;
    var fixed, tail := body[..i], body[i + 1..];
    ApartAt(body);
    WithLineApart(body, fixed, tail, line);
    TopHasNone(fixed, line);
  }

  /** A revision leaves the footer as it is, whatever is left of it: its edit of the sensitive line settles on every
      description that has the reminder. */
  lemma TheLineAloneSettles(body: string, listed: string, counted: string)
    requires '\r' !in Normal(body) && IsLine(listed) && IsLine(counted)
    ensures var (to, change) := Described(body, listed, counted, None);
            change.Listed? || change.Counted? ==> Described(to, listed, counted, None) == ("", AlreadyRight)
  {
    var was := Normal(body);
    if Index(was, "\n" + REMINDER).Some? {
      var line := LineUsed(was, listed, counted);
      LinedHasNoReturn(was, line);
      LinedAgain(was, line, listed, counted);
      var to := Lined(was, listed, counted);
      assert to == WithLine(was, line).value;
      NormalAlready(to);
      hide WithLine, Described, OverLimit, Lined, LineUsed;
      DescribedAs(body, listed, counted, None);
      DescribedAs(to, listed, counted, None);
    }
  }
}
