/** Whatever the session wrote, a revision's reply reads back as what it was printed from. */
module ReplyReadBack {
  import opened Base
  import opened Text
  import opened Decimal
  import opened Description
  import opened Reply

  // ---- The reply ----

  function Short(name: string): string {
    if |name| <= 7 then name else name[..7]
  }

  const WORDS := "[Changes since your review]"
  const FROM := "(https://github.com/"
  const COMPARE := "/compare/"
  const OF := "): `"
  const TO := "` to `"
  const STOP := "`.\n"

  function Link(repo: string, read: string, pushed: string): string {
    WORDS + FROM + repo + COMPARE + read + "..." + pushed + OF + Short(read) + TO + Short(pushed) + STOP
  }

  function Section(text: string): string {
    if text == "" then "" else "\n" + text + "\n"
  }

  /** What follows the markers: the agent's link and size, the session's part, and the footer. */
  function Said(repo: string, read: string, pushed: string, size: string, text: string, footer: string): string {
    Link(repo, read, pushed) + size + Section(SectionsOf(text)) + Section(footer)
  }

  function Body(n: nat, pushed: string, read: string, points: seq<nat>, reviews: seq<nat>, said: string): string {
    (ReplyMarker(n, pushed) + "\n") + ((ReadMarker(read) + "\n") + (Markers(points, reviews) + said))
  }

  /** The name of a commit, or of a repository: nothing that opens a comment, or ends a marker. */
  predicate IsName(s: string) {
    '<' !in s && ' ' !in s
  }

  /** A size line starts on a line of its own, if there is one. */
  predicate IsSize(s: string) {
    '<' !in s && (s == "" || s[0] == '\n')
  }

  ghost predicate IsSpend(footer: string) {
    footer == "" || exists middle :: footer == OPEN + middle + CLOSE && Plain(middle)
  }

  // ---- Where no marker is ----

  /** No revision marker starts in it. */
  ghost predicate Quiet(s: string) {
    forall k :: !At(s, AFK, k)
  }

  lemma Marks()
    ensures |AFK| == 17 && |READ| == 28 && OPENER <= AFK && AFK <= READ && AFK + " " <= COMMENT && AFK + " " <= REVIEW
    ensures AFK[0] == '<' && AFK[5] == 'a' && AFK[9] == 'r' && OPEN[9] == 's' && READ[17] == '-' && READ[20] == 'a'
    ensures forall j :: 1 <= j < |AFK| ==> AFK[j] != '<' && AFK[j] != '\n' && AFK[j] != '['
    ensures |COMMENT| == 26 && |REVIEW| == 38 && COMMENT[18] == 'c' && REVIEW[18] == 'p'
    ensures forall j :: 1 <= j < |COMMENT| ==> COMMENT[j] != '<'
    ensures forall j :: 1 <= j < |REVIEW| ==> REVIEW[j] != '<'
    ensures forall j :: 1 <= j < |READ| ==> READ[j] != '<'
  {
  }

  lemma PlainIsQuiet(s: string)
    requires Plain(s)
    ensures Quiet(s)
  {
    Marks();
    forall k ensures !At(s, AFK, k) {
      NotStarted(s, AFK, OPENER, k);
    }
  }

  /** Nothing starts across a join where the second text starts on a line, a comment or a bracket. */
  lemma QuietJoin(a: string, b: string)
    requires Quiet(a) && Quiet(b) && (b == "" || b[0] == '\n' || b[0] == '<' || b[0] == '[')
    ensures Quiet(a + b)
  {
    Marks();
    forall k ensures !At(a + b, AFK, k) {
      if k + |AFK| <= |a| {
        AtInHead(a, b, AFK, k);
      } else if |a| <= k {
        AtInTail(a, b, AFK, k);
      } else if 0 <= k && b != "" {
        assert (a + b)[|a|] == b[0];
        Differs(a + b, AFK, k, |a| - k);
      }
    }
  }

  lemma SpendIsQuiet(footer: string)
    requires IsSpend(footer)
    ensures Quiet(Section(footer))
  {
    Marks();
    HiddenLines();
    NoAngleIsPlain("");
    PlainIsQuiet("");
    if footer != "" {
      var middle :| footer == OPEN + middle + CLOSE && Plain(middle);
      forall k ensures !At(footer, AFK, k) {
        HiddenIsQuiet(middle, k);
      }
      NoAngleIsPlain("\n");
      PlainIsQuiet("\n");
      QuietJoin("\n", footer);
      QuietJoin("\n" + footer, "\n");
    }
  }

  lemma HiddenIsQuiet(middle: string, k: int)
    requires Plain(middle)
    ensures !At(OPEN + middle + CLOSE, AFK, k)
  {
    Marks();
    HiddenLines();
    var all := OPEN + middle + CLOSE;
    var end := |OPEN| + |middle|;
    assert all[end] == '<';
    if k < |OPEN| {
      Differs(all, AFK, k, if k == 0 then 9 else 0);
    } else if k + 4 <= end {
      assert all == OPEN + (middle + CLOSE);
      AtInTail(OPEN, middle + CLOSE, OPENER, k);
      AtInHead(middle, CLOSE, OPENER, k - |OPEN|);
      NotStarted(all, AFK, OPENER, k);
    } else if k < end {
      Differs(all, AFK, k, end - k);
    } else {
      Differs(all, AFK, k, if k == end then 5 else 0);
    }
  }

  /** What follows the markers starts none, whatever the session wrote. */
  lemma SaidIsQuiet(repo: string, read: string, pushed: string, size: string, text: string, footer: string)
    requires IsName(repo) && IsName(read) && IsName(pushed) && IsSize(size) && IsSpend(footer)
    ensures Quiet(Said(repo, read, pushed, size, text, footer))
  {
    var link := Link(repo, read, pushed);
    LinkHasNoAngle(repo, read, pushed);
    NoAngleIsPlain(link);
    PlainIsQuiet(link);
    NoAngleIsPlain(size);
    PlainIsQuiet(size);
    QuietJoin(link, size);
    SectionsArePlain(text);
    SectionIsQuiet(SectionsOf(text));
    QuietJoin(link + size, Section(SectionsOf(text)));
    SpendIsQuiet(footer);
    QuietJoin(link + size + Section(SectionsOf(text)), Section(footer));
  }

  lemma LinkHasNoAngle(repo: string, read: string, pushed: string)
    requires '<' !in repo && '<' !in read && '<' !in pushed
    ensures '<' !in Link(repo, read, pushed)
  {
    assert '<' !in WORDS && '<' !in FROM && '<' !in COMPARE && '<' !in OF && '<' !in TO && '<' !in STOP && '<' !in "..." by { LinkWords(); }
    hide WORDS, FROM, COMPARE, OF, TO, STOP;
  }

  lemma LinkWords()
    ensures '<' !in WORDS && '<' !in FROM && '<' !in COMPARE && '<' !in OF && '<' !in TO && '<' !in STOP && '<' !in "..."
  {
    assert forall k :: 0 <= k < |WORDS| ==> WORDS[k] != '<';
  }

  lemma SectionIsQuiet(text: string)
    requires Plain(text)
    ensures Quiet(Section(text))
  {
    NoAngleIsPlain("\n");
    PlainJoin("\n", text);
    if text != "" {
      PlainJoin("\n" + text, "\n");
    }
    PlainIsQuiet(Section(text));
  }

  // ---- Reading ----

  lemma {:induction false} NothingAsked(s: string)
    requires Quiet(s)
    ensures CommandsIn(s) == [] && RevisionRead(s) == None
    decreases |s|
  {
    Marks();
    if s != "" {
      assert !At(s, AFK, 0);
      assert !(AFK <= s);
      forall k ensures !At(s[1..], AFK, k) {
        assert s == s[..1] + s[1..];
        if 0 <= k {
          AtInTail(s[..1], s[1..], AFK, k + 1);
        }
      }
      NothingAsked(s[1..]);
    }
  }

  /** Up to `tail`, no command marker starts, nor any read marker. */
  lemma {:induction false} SkipCommands(front: string, tail: string)
    requires forall k :: 0 <= k < |front| ==> !At(front + tail, AFK + " ", k)
    ensures CommandsIn(front + tail) == CommandsIn(tail)
    decreases |front|
  {
    Marks();
    if front == "" {
      assert front + tail == tail;
    } else {
      var all := front + tail;
      assert !At(all, AFK + " ", 0);
      assert !(AFK + " " <= all);
      assert all[1..] == front[1..] + tail;
      forall k | 0 <= k < |front[1..]| ensures !At(front[1..] + tail, AFK + " ", k) {
        assert all == all[..1] + all[1..];
        AtInTail(all[..1], all[1..], AFK + " ", k + 1);
      }
      SkipCommands(front[1..], tail);
    }
  }

  lemma {:induction false} SkipReads(front: string, tail: string)
    requires forall k :: 0 <= k < |front| ==> !At(front + tail, READ, k)
    ensures RevisionRead(front + tail) == RevisionRead(tail)
    decreases |front|
  {
    if front == "" {
      assert front + tail == tail;
    } else {
      var all := front + tail;
      assert !At(all, READ, 0);
      assert all[1..] == front[1..] + tail;
      forall k | 0 <= k < |front[1..]| ensures !At(front[1..] + tail, READ, k) {
        assert all == all[..1] + all[1..];
        AtInTail(all[..1], all[1..], READ, k + 1);
      }
      SkipReads(front[1..], tail);
    }
  }

  /** A marker that opens once, at its start, is no other that is spelled otherwise somewhere. */
  lemma OnlyItself(marker: string, tail: string, other: string, j: nat)
    requires marker != "" && (forall k :: 1 <= k < |marker| ==> marker[k] != '<')
    requires j < |other| && j < |marker| && marker[j] != other[j] && other[0] == '<'
    ensures forall k :: 0 <= k < |marker| ==> !At(marker + tail, other, k)
  {
    forall k | 0 <= k < |marker| ensures !At(marker + tail, other, k) {
      Differs(marker + tail, other, k, if k == 0 then j else 0);
    }
  }

  lemma {:induction false} DigitRunStops(ds: string, rest: string)
    requires Digits(ds) && (rest == "" || !IsDigit(rest[0]))
    ensures DigitRun(ds + rest) == ds
    decreases |ds|
  {
    if ds == "" {
      assert ds + rest == rest;
    } else {
      assert (ds + rest)[1..] == ds[1..] + rest;
      DigitRunStops(ds[1..], rest);
    }
  }

  lemma NumberReadsBack(start: string, id: nat, rest: string)
    ensures NumberAt(start + Print(id) + END + rest, |start|) == Some((Print(id), |start + Print(id) + END|))
  {
    var s := start + Print(id) + END + rest;
    assert s[|start|..] == Print(id) + (END + rest);
    DigitRunStops(Print(id), END + rest);
    assert s[|start| + |Print(id)|..] == END + rest;
  }

  lemma MarkerReadsBack(id: nat, rest: string)
    ensures CommandsIn(RevisionMarker(id) + rest) == [OfComment(Print(id))] + CommandsIn(rest)
    ensures CommandsIn(ReviewMarker(id) + rest) == [OfReview(Print(id))] + CommandsIn(rest)
  {
    Marks();
    NumberReadsBack(COMMENT, id, rest);
    NumberReadsBack(REVIEW, id, rest);
    var c, r := RevisionMarker(id) + rest, ReviewMarker(id) + rest;
    assert COMMENT <= c && c[|RevisionMarker(id)|..] == rest;
    assert REVIEW <= r && !(COMMENT <= r) && r[|ReviewMarker(id)|..] == rest;
  }

  function OfComments(points: seq<nat>): (r: seq<Command>)
    ensures AreRead(r)
  {
    if points == [] then [] else [OfComment(Print(points[0]))] + OfComments(points[1..])
  }

  function OfReviews(reviews: seq<nat>): (r: seq<Command>)
    ensures AreRead(r)
  {
    if reviews == [] then [] else [OfReview(Print(reviews[0]))] + OfReviews(reviews[1..])
  }

  lemma LineEndIsNoMarker(tail: string)
    ensures CommandsIn("\n" + tail) == CommandsIn(tail)
  {
    Marks();
    assert ("\n" + tail)[1..] == tail;
    assert COMMENT[0] == '<' && REVIEW[0] == '<';
  }

  lemma Regrouped(a: string, b: string, c: string, d: string)
    ensures (a + b + c) + d == (a + b) + (c + d)
  {
  }

  /** The first marker, and the rest of them. */
  lemma MarkersAre(points: seq<nat>, reviews: seq<nat>, rest: string)
    ensures points != [] ==>
              Markers(points, reviews) + rest == (RevisionMarker(points[0]) + "\n") + (Markers(points[1..], reviews) + rest)
    ensures points == [] && reviews != [] ==>
              Markers(points, reviews) + rest == (ReviewMarker(reviews[0]) + "\n") + (Markers(points, reviews[1..]) + rest)
    ensures points == [] && reviews == [] ==> Markers(points, reviews) + rest == rest
  {
    hide RevisionMarker, ReviewMarker;
    if points != [] {
      Regrouped(RevisionMarker(points[0]), "\n", Markers(points[1..], reviews), rest);
    } else if reviews != [] {
      Regrouped(ReviewMarker(reviews[0]), "\n", Markers(points, reviews[1..]), rest);
    } else {
      assert "" + rest == rest;
    }
  }

  lemma LineReadsBack(id: nat, rest: string)
    ensures CommandsIn((RevisionMarker(id) + "\n") + rest) == [OfComment(Print(id))] + CommandsIn(rest)
    ensures CommandsIn((ReviewMarker(id) + "\n") + rest) == [OfReview(Print(id))] + CommandsIn(rest)
  {
    hide CommandsIn;
    assert (RevisionMarker(id) + "\n") + rest == RevisionMarker(id) + ("\n" + rest);
    assert (ReviewMarker(id) + "\n") + rest == ReviewMarker(id) + ("\n" + rest);
    MarkerReadsBack(id, "\n" + rest);
    LineEndIsNoMarker(rest);
  }

  lemma {:induction false} MarkersReadBack(points: seq<nat>, reviews: seq<nat>, rest: string)
    ensures CommandsIn(Markers(points, reviews) + rest) == OfComments(points) + OfReviews(reviews) + CommandsIn(rest)
    decreases |points| + |reviews|
  {
    hide CommandsIn, Markers, RevisionMarker, ReviewMarker;
    MarkersAre(points, reviews, rest);
    if points != [] {
      LineReadsBack(points[0], Markers(points[1..], reviews) + rest);
      MarkersReadBack(points[1..], reviews, rest);
    } else if reviews != [] {
      LineReadsBack(reviews[0], Markers(points, reviews[1..]) + rest);
      MarkersReadBack(points, reviews[1..], rest);
    }
  }

  lemma IdsFirst(c: Command, rest: seq<Command>, comments: bool)
    requires IsRead(c) && AreRead(rest)
    ensures AreRead([c] + rest) && Ids([c] + rest, comments) == IdOf(c, comments) + Ids(rest, comments)
  {
    hide IsRead, IdOf;
    assert ([c] + rest)[1..] == rest;
  }

  lemma {:induction false} IdsOfBoth(xs: seq<Command>, ys: seq<Command>, comments: bool)
    requires AreRead(xs) && AreRead(ys)
    ensures AreRead(xs + ys) && Ids(xs + ys, comments) == Ids(xs, comments) + Ids(ys, comments)
    decreases |xs|
  {
    if xs == [] {
      assert xs + ys == ys;
    } else {
      assert IsRead(xs[0]) && AreRead(xs[1..]);
      assert xs == [xs[0]] + xs[1..] && xs + ys == [xs[0]] + (xs[1..] + ys);
      hide IsRead, AreRead, Ids, IdOf;
      IdsOfBoth(xs[1..], ys, comments);
      IdsFirst(xs[0], xs[1..], comments);
      IdsFirst(xs[0], xs[1..] + ys, comments);
    }
  }

  lemma IdReadsBack(id: nat)
    requires id <= MAX_ID
    ensures IsRead(OfComment(Print(id))) && IsRead(OfReview(Print(id)))
    ensures IdOf(OfComment(Print(id)), true) == [id] && IdOf(OfComment(Print(id)), false) == []
    ensures IdOf(OfReview(Print(id)), false) == [id] && IdOf(OfReview(Print(id)), true) == []
  {
    PrintReadsBack(id);
  }

  lemma {:induction false} IdsReadBack(ids: seq<nat>)
    requires forall k :: 0 <= k < |ids| ==> ids[k] <= MAX_ID
    ensures Ids(OfComments(ids), true) == ids && Ids(OfComments(ids), false) == []
    ensures Ids(OfReviews(ids), false) == ids && Ids(OfReviews(ids), true) == []
    decreases |ids|
  {
    if ids != [] {
      var c, r := OfComment(Print(ids[0])), OfReview(Print(ids[0]));
      assert OfComments(ids) == [c] + OfComments(ids[1..]) && OfReviews(ids) == [r] + OfReviews(ids[1..]);
      hide OfComments, OfReviews, Ids, IdOf, IsRead, AreRead, Print;
      IdReadsBack(ids[0]);
      IdsReadBack(ids[1..]);
      IdsFirst(c, OfComments(ids[1..]), true);
      IdsFirst(c, OfComments(ids[1..]), false);
      IdsFirst(r, OfReviews(ids[1..]), true);
      IdsFirst(r, OfReviews(ids[1..]), false);
      assert [ids[0]] + ids[1..] == ids;
    }
  }

  // ---- The head that was read ----

  lemma NameReadsBack(read: string, tail: string)
    requires ' ' !in read
    ensures ReadAt(ReadMarker(read) + tail) == if FullName(read) then Some(read) else None
  {
    var s := ReadMarker(read) + tail;
    var rest := read + (END + tail);
    assert READ <= s && s[|READ|..] == rest;
    NameIsAll(read, tail, 40);
    NameIsAll(read, tail, 64);
    assert |read| <= |rest| && rest[..|read|] == read;
  }

  lemma NameIsAll(read: string, tail: string, n: nat)
    requires ' ' !in read && n > 0
    ensures NameOf(read + (END + tail), n) <==> |read| == n && AllHex(read)
  {
    var rest := read + (END + tail);
    assert rest[|read|] == ' ' && END[0] == ' ';
    if |read| == n {
      assert rest[..n] == read && rest[n..] == END + tail;
    } else if |read| < n && n <= |rest| {
      assert rest[..n][|read|] == ' ';
    } else if n < |read| {
      assert rest[n..][0] == read[n] && read[n] in read;
    }
  }

  lemma MarkerIsNoRead(id: nat, tail: string)
    ensures RevisionRead((RevisionMarker(id) + "\n") + tail) == RevisionRead(tail)
    ensures RevisionRead((ReviewMarker(id) + "\n") + tail) == RevisionRead(tail)
  {
    Marks();
    PrintsNoAngle(id);
    hide RevisionRead;
    var c, r := RevisionMarker(id) + "\n", ReviewMarker(id) + "\n";
    assert c[17] == COMMENT[17] == ' ' && r[17] == REVIEW[17] == ' ';
    OnlyItself(c, tail, READ, 17);
    OnlyItself(r, tail, READ, 17);
    SkipReads(c, tail);
    SkipReads(r, tail);
  }

  lemma {:induction false} NoReadInMarkers(points: seq<nat>, reviews: seq<nat>, rest: string)
    ensures RevisionRead(Markers(points, reviews) + rest) == RevisionRead(rest)
    decreases |points| + |reviews|
  {
    hide RevisionRead, Markers, RevisionMarker, ReviewMarker;
    MarkersAre(points, reviews, rest);
    if points != [] {
      MarkerIsNoRead(points[0], Markers(points[1..], reviews) + rest);
      NoReadInMarkers(points[1..], reviews, rest);
    } else if reviews != [] {
      MarkerIsNoRead(reviews[0], Markers(points, reviews[1..]) + rest);
      NoReadInMarkers(points, reviews[1..], rest);
    }
  }

  lemma PrintsNoAngle(n: nat)
    ensures forall k :: 0 <= k < |Print(n)| ==> Print(n)[k] != '<'
  {
  }

  lemma ReplyMarkerIsItself(n: nat, pushed: string, tail: string)
    requires IsName(pushed)
    ensures CommandsIn((ReplyMarker(n, pushed) + "\n") + tail) == CommandsIn(tail)
    ensures RevisionRead((ReplyMarker(n, pushed) + "\n") + tail) == RevisionRead(tail)
  {
    Marks();
    PrintsNoAngle(n);
    var marker := ReplyMarker(n, pushed) + "\n";
    assert marker[17] == '-' && marker[20] == 'p';
    OnlyItself(marker, tail, AFK + " ", 17);
    OnlyItself(marker, tail, READ, 20);
    SkipCommands(marker, tail);
    SkipReads(marker, tail);
  }

  lemma ReadMarkerIsNoCommand(read: string, tail: string)
    requires IsName(read)
    ensures CommandsIn((ReadMarker(read) + "\n") + tail) == CommandsIn(tail)
  {
    Marks();
    hide CommandsIn;
    var marker := ReadMarker(read) + "\n";
    assert marker[17] == READ[17] == '-';
    OnlyItself(marker, tail, AFK + " ", 17);
    SkipCommands(marker, tail);
  }

  lemma ReadIs(body: string)
    requires body != ""
    ensures RevisionRead(body) == if ReadAt(body).Some? then ReadAt(body) else RevisionRead(body[1..])
  {
  }

  lemma ReadMarkerStarts(read: string)
    requires IsName(read)
    ensures var marker := ReadMarker(read) + "\n"; marker != "" && forall k :: 1 <= k < |marker| ==> marker[k] != '<'
  {
    Marks();
  }

  lemma ReadMarkerReadsBack(read: string, tail: string)
    requires IsName(read) && RevisionRead(tail) == None
    ensures RevisionRead((ReadMarker(read) + "\n") + tail) == if FullName(read) then Some(read) else None
  {
    hide RevisionRead, ReadAt, FullName, ReadMarker;
    ReadMarkerStarts(read);
    var marker := ReadMarker(read) + "\n";
    var all := marker + tail;
    assert all == ReadMarker(read) + ("\n" + tail);
    NameReadsBack(read, "\n" + tail);
    ReadIs(all);
    assert all[1..] == marker[1..] + tail;
    NoSecondRead(marker, tail);
    SkipReads(marker[1..], tail);
  }

  lemma NoSecondRead(marker: string, tail: string)
    requires marker != "" && forall k :: 1 <= k < |marker| ==> marker[k] != '<'
    ensures forall k :: 0 <= k < |marker[1..]| ==> !At(marker[1..] + tail, READ, k)
  {
    Marks();
    forall k | 0 <= k < |marker[1..]| ensures !At(marker[1..] + tail, READ, k) {
      assert (marker[1..] + tail)[k] == marker[k + 1];
      Differs(marker[1..] + tail, READ, k, 0);
    }
  }

  /** A reply reads back as exactly the commands it answers, each kind in its order, and as the head it was written
      against exactly if that is a commit's whole name. */
  lemma TheReplyReadsBack(n: nat, pushed: string, read: string, points: seq<nat>, reviews: seq<nat>,
                          repo: string, size: string, text: string, footer: string)
    requires IsName(repo) && IsName(read) && IsName(pushed) && IsSize(size) && IsSpend(footer)
    requires (forall k :: 0 <= k < |points| ==> points[k] <= MAX_ID) && (forall k :: 0 <= k < |reviews| ==> reviews[k] <= MAX_ID)
    ensures var body := Body(n, pushed, read, points, reviews, Said(repo, read, pushed, size, text, footer));
            && RevisionCommands(body) == (points, reviews)
            && RevisionRead(body) == if FullName(read) then Some(read) else None
  {
    hide CommandsIn, RevisionRead, Markers, ReadMarker, ReplyMarker, Said, FullName, Print, Quiet, IsSpend;
    var said := Said(repo, read, pushed, size, text, footer);
    SaidIsQuiet(repo, read, pushed, size, text, footer);
    NothingAsked(said);
    MarkersReadBack(points, reviews, said);
    NoReadInMarkers(points, reviews, said);
    ReadMarkerIsNoCommand(read, Markers(points, reviews) + said);
    ReadMarkerReadsBack(read, Markers(points, reviews) + said);
    ReplyMarkerIsItself(n, pushed, (ReadMarker(read) + "\n") + (Markers(points, reviews) + said));
    var body := Body(n, pushed, read, points, reviews, said);
    assert CommandsIn(body) == OfComments(points) + OfReviews(reviews);
    assert OfComments(points) + OfReviews(reviews) + [] == OfComments(points) + OfReviews(reviews);
    IdsOfBoth(OfComments(points), OfReviews(reviews), true);
    IdsOfBoth(OfComments(points), OfReviews(reviews), false);
    IdsReadBack(points);
    IdsReadBack(reviews);
    assert points + [] == points && [] + reviews == reviews;
  }
}
