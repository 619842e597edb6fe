/** Bringing a description up to date settles at once: what it makes is already right, whichever way it was made, and
    nothing else of the description has changed. */
module DescriptionSettles {
  import opened Base
  import opened Text
  import opened Description
  import Reply

  function Footed(was: string, footer: Option<string>): string {
    if footer.Some? then WithFooter(was, footer.value) else was
  }

  /** What a description is brought to, whether or not it may be posted. */
  function Brought(was: string, listed: string, counted: string, footer: Option<string>): string
    requires Index(Footed(was, footer), "\n" + REMINDER).Some?
  {
    var footed := Footed(was, footer);
    var all := WithLine(footed, listed).value;
    if OverLimit(all) then WithLine(footed, counted).value else all
  }

  ghost predicate Parts(listed: string, counted: string, footer: Option<string>) {
    IsLine(listed) && IsLine(counted) && (footer.Some? ==> IsFooter(Held(footer.value)))
  }

  lemma FootedKeepsReminder(was: string, footer: Option<string>)
    requires Written(was) && (footer.Some? ==> IsFooter(Held(footer.value)))
    ensures Written(Footed(was, footer)) && Footed(Footed(was, footer), footer) == Footed(was, footer)
    ensures OutsideOf(Footed(was, footer)) == OutsideOf(was)
    ensures FooterOf(Footed(was, footer)) == if footer.Some? then Held(footer.value) else FooterOf(was)
  {
    if footer.Some? {
      FootedIsWritten(was, footer.value);
      EitherFirst(was, "", footer.value);
    }
  }

  /** The footer, brought up to date after the line, changes nothing that is already so. */
  lemma FootedAgain(was: string, line: string, footer: Option<string>)
    requires Written(was) && IsLine(line) && (footer.Some? ==> IsFooter(Held(footer.value)))
    requires Footed(was, footer) == was
    ensures Footed(WithLine(was, line).value, footer) == WithLine(was, line).value
  {
    if footer.Some? {
      EitherFirst(was, line, footer.value);
    }
  }

  /** Brought up to date again, a description comes to the same. */
  lemma BroughtAgain(was: string, line: string, listed: string, counted: string, footer: Option<string>)
    requires Written(was) && IsLine(line) && Parts(listed, counted, footer) && Footed(was, footer) == was
    ensures var to := WithLine(was, line).value;
            Written(to) && Footed(to, footer) == to && Brought(to, listed, counted, footer) == Brought(was, listed, counted, footer)
  {
    LinedIsWritten(was, line);
    FootedAgain(was, line, footer);
    LastLineStays(was, line, listed);
    LastLineStays(was, line, counted);
  }

  lemma DescribedIs(body: string, listed: string, counted: string, footer: Option<string>)
    requires Written(Normal(body)) && Parts(listed, counted, footer)
    ensures Written(Footed(Normal(body), footer))
    ensures var was := Normal(body);
            var to := Brought(was, listed, counted, footer);
            Described(body, listed, counted, footer) ==
              if to == was then ("", AlreadyRight)
              else if OverLimit(to) && footer.Some? then Described(body, listed, counted, None)
              else if OverLimit(to) then ("", TooLong)
              else (to, if OverLimit(WithLine(Footed(was, footer), listed).value) then Counted else Listed)
  {
    FootedKeepsReminder(Normal(body), footer);
  }

  lemma WrittenIsNormal(body: string)
    requires Written(body)
    ensures Normal(body) == body
  {
    NormalAlready(body);
  }

  /** What it is brought to is brought to itself. */
  lemma BroughtSettles(was: string, listed: string, counted: string, footer: Option<string>)
    requires Written(was) && Parts(listed, counted, footer)
    ensures Written(Footed(was, footer))
    ensures var to := Brought(was, listed, counted, footer);
            Written(to) && Described(to, listed, counted, footer) == ("", AlreadyRight)
  {
    FootedKeepsReminder(was, footer);
    var footed := Footed(was, footer);
    var line := if OverLimit(WithLine(footed, listed).value) then counted else listed;
    var to := Brought(was, listed, counted, footer);
    assert to == WithLine(footed, line).value;
    BroughtAgain(footed, line, listed, counted, footer);
    assert Brought(footed, listed, counted, footer) == to;
    hide Described, Brought, WithLine, WithFooter, Written, OverLimit, Normal;
    WrittenIsNormal(to);
    DescribedIs(to, listed, counted, footer);
  }

  /** Where the footer gives way, it gives way again, and the rest is right. */
  lemma GivesWay(was: string, listed: string, counted: string, footer: string)
    requires Written(was) && Parts(listed, counted, Some(footer))
    requires Written(Footed(was, Some(footer))) && OverLimit(Brought(was, listed, counted, Some(footer)))
    ensures var to := Brought(was, listed, counted, None);
            !OverLimit(to) ==> Written(to) && Described(to, listed, counted, Some(footer)) == ("", AlreadyRight)
  {
    var to := Brought(was, listed, counted, None);
    var line := if OverLimit(WithLine(was, listed).value) then counted else listed;
    assert to == WithLine(was, line).value;
    BroughtSettles(was, listed, counted, None);
    EitherFirst(was, line, footer);
    FootedKeepsReminder(was, Some(footer));
    var footed := WithFooter(was, footer);
    BroughtAgain(footed, line, listed, counted, Some(footer));
    assert Footed(to, Some(footer)) == WithLine(footed, line).value;
    LastLineStays(footed, line, listed);
    LastLineStays(footed, line, counted);
    assert Brought(to, listed, counted, Some(footer)) == Brought(was, listed, counted, Some(footer));
    hide Described, Brought, WithLine, WithFooter, Written, OverLimit, Normal;
    WrittenIsNormal(to);
    DescribedIs(to, listed, counted, Some(footer));
  }

  /** The same description is never edited twice running: what the edit makes is already right, with the paths listed or
      counted, and with the footer brought up to date or given way. */
  lemma DescribedSettles(body: string, listed: string, counted: string, footer: Option<string>)
    requires Written(Normal(body)) && Parts(listed, counted, footer)
    ensures var (to, change) := Described(body, listed, counted, footer);
            change.Listed? || change.Counted? ==> Written(to) && Described(to, listed, counted, footer) == ("", AlreadyRight)
  {
    hide Described, Brought, WithLine, WithFooter, Written, OverLimit, Normal, IsFooter;
    var was := Normal(body);
    DescribedIs(body, listed, counted, footer);
    DescribedIs(body, listed, counted, None);
    BroughtSettles(was, listed, counted, footer);
    if footer.Some? && OverLimit(Brought(was, listed, counted, footer)) {
      GivesWay(was, listed, counted, footer.value);
    }
  }

  /** An edit changes nothing but the sensitive line and the footer, is within the limit, and has the footer it was asked
      for or, where that gives way, the one that was there. */
  lemma OnlyTheLineAndTheFooterChange(body: string, listed: string, counted: string, footer: Option<string>)
    requires Written(Normal(body)) && Parts(listed, counted, footer)
    ensures var (to, change) := Described(body, listed, counted, footer);
            change.Listed? || change.Counted? ==>
              && Written(to) && !OverLimit(to)
              && OutsideOf(to) == OutsideOf(Normal(body))
              && (FooterOf(to) == FooterOf(Normal(body)) || (footer.Some? && FooterOf(to) == Held(footer.value)))
              && to == WithLine(to, if change.Listed? then listed else counted).value
    decreases footer.Some?
  {
    var was := Normal(body);
    DescribedIs(body, listed, counted, footer);
    FootedKeepsReminder(was, footer);
    var footed := Footed(was, footer);
    var line := if OverLimit(WithLine(footed, listed).value) then counted else listed;
    LinedIsWritten(footed, line);
    LastLineStays(footed, line, line);
    if footer.Some? {
      OnlyTheLineAndTheFooterChange(body, listed, counted, None);
    }
  }

  // ---- The description a pull request opens with ----

  /** The marker, the link line, the sensitive line and the reminder, which are the agent's, then the session's part, and
      last the footer. `read` is the rest of the reminder's line. */
  function Opening(marker: string, link: string, line: string, read: string, session: string, footer: string): string {
    marker + "\n" + link + "\n\n" + (if line == "" then "" else line + "\n\n") + REMINDER + read + "\n" + session + "\n" + Held(footer) + "\n"
  }

  lemma BreakOpensNothing()
    ensures forall j :: !At("\n", OPEN, j)
  {
    HiddenLines();
  }

  lemma FooterLastIsWritten(front: string, k: nat, f: string)
    requires At(front, "\n" + REMINDER, k) && '\r' !in front && IsFooter(f)
    ensures Written(front + "\n" + f + "\n")
  {
    var body := front + "\n" + f + "\n";
    assert body == front + ("\n" + f + "\n");
    AtInHead(front, "\n" + f + "\n", "\n" + REMINDER, k);
    var i := Index(body, "\n" + REMINDER);
    assert i.Some? && i.value <= k < |front|;
    BreakOpensNothing();
    hide At, Index, FooterIn;
    var before := front[i.value + 1..] + "\n";
    assert body[i.value + 1..] == before + f + "\n";
    FooterStands(before, f, "\n");
  }

  /** Whatever the session wrote - a reminder or a footer of its own among it - the agent's parts are found. */
  lemma OpeningIsWritten(marker: string, link: string, line: string, read: string, session: string, footer: string)
    requires '\r' !in marker + link + line + read + session && IsFooter(Held(footer))
    ensures Written(Opening(marker, link, line, read, session, footer))
  {
    HiddenLines();
    var top := marker + "\n" + link + "\n\n" + (if line == "" then "" else line + "\n\n");
    var front := top + REMINDER + read + "\n" + session;
    var k := |top| - 1;
    assert top[k] == '\n';
    forall j | 0 <= j < |"\n" + REMINDER| ensures front[k + j] == ("\n" + REMINDER)[j] {
    }
    AtIs(front, "\n" + REMINDER, k);
    FooterLastIsWritten(front, k, Held(footer));
    assert Opening(marker, link, line, read, session, footer) == front + "\n" + Held(footer) + "\n";
  }

  // ---- The footer ----

  lemma NothingOpensInside(middle: string, k: int)
    requires Reply.Plain(middle) && 0 < k
    ensures !At(OPEN + middle + CLOSE, OPEN, k)
  {
    HiddenLines();
    var all, end := OPEN + middle + CLOSE, |OPEN| + |middle|;
    assert all[end] == '<' && all[end + 5] == '/';
    if k < |OPEN| || end < k {
      Differs(all, OPEN, k, 0);
    } else if k == end {
      Differs(all, OPEN, k, 5);
    } else if k + 4 <= end {
      assert all == OPEN + (middle + CLOSE) && Reply.OPENER <= OPEN;
      AtInTail(OPEN, middle + CLOSE, Reply.OPENER, k);
      AtInHead(middle, CLOSE, Reply.OPENER, k - |OPEN|);
      NotStarted(all, OPEN, Reply.OPENER, k);
    } else {
      Differs(all, OPEN, k, end - k);
    }
  }

  lemma NothingClosesInside(middle: string, k: int)
    requires Reply.Plain(middle) && 0 <= k < |OPEN| + |middle|
    ensures !At(OPEN + middle + CLOSE, CLOSE, k)
  {
    HiddenLines();
    var all, end := OPEN + middle + CLOSE, |OPEN| + |middle|;
    assert all[end] == '<' && all[5] == 'a';
    if k < |OPEN| {
      Differs(all, CLOSE, k, if k == 0 then 5 else 0);
    } else if k + 4 <= end {
      assert all == OPEN + (middle + CLOSE) && Reply.OPENER <= CLOSE;
      AtInTail(OPEN, middle + CLOSE, Reply.OPENER, k);
      AtInHead(middle, CLOSE, Reply.OPENER, k - |OPEN|);
      NotStarted(all, CLOSE, Reply.OPENER, k);
    } else {
      Differs(all, CLOSE, k, end - k);
    }
  }

  /** What is written between the hidden lines is a footer as long as it opens no comment of its own; and with nothing to
      write, the hidden lines alone are one. */
  lemma WhatIsHeldIsAFooter(middle: string)
    requires Reply.Plain(middle) && '\r' !in middle
    ensures IsFooter(Held(OPEN + middle + CLOSE)) && IsFooter(Held(""))
  {
    HiddenLines();
    HeldIsAFooter();
    var all, end := OPEN + middle + CLOSE, |OPEN| + |middle|;
    assert all == OPEN + (middle + CLOSE);
    AtInHead(OPEN, middle + CLOSE, OPEN, 0);
    forall k | 0 < k ensures !At(all, OPEN, k) {
      NothingOpensInside(middle, k);
    }
    LastIs(all, OPEN, 0);
    AtInTail(OPEN + middle, CLOSE, CLOSE, end);
    forall k | 0 <= k < end ensures !At(all, CLOSE, k) {
      NothingClosesInside(middle, k);
    }
    FirstIs(all, CLOSE, end);
  }
}
