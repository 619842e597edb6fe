/** An advisory review edited for how its correction ended: what is edited is marked around, and every line of the review
    stays (internal/correction/correction.go). */
module Amended {
  import opened Text
  import opened Decimal
  import opened Review

  /** How a finding ended. */
  datatype Fate = Failed | Corrected(sha: string) | Uncorrected

  /** The correction: the findings it was given, by number, whether it failed, and the commits that corrected them. */
  datatype Ending = Ending(ours: set<nat>, failed: bool, commits: map<nat, string>, repo: string)

  predicate Correctable(axis: string) {
    SameFolded(axis, "Correctness") || SameFolded(axis, "Standards")
  }

  predicate IsEdited(b: Block, e: Ending) {
    b.number in e.ours && Correctable(b.axis)
  }

  function FateOf(b: Block, e: Ending): Fate {
    if e.failed then Failed
    else if b.number in e.commits && e.commits[b.number] != "" then Corrected(e.commits[b.number])
    else Uncorrected
  }

  function Short(sha: string): string {
    if |sha| <= 7 then sha else sha[..7]
  }

  function CommitLink(repo: string, sha: string): string {
    if repo == "" then "<code>" + Short(sha) + "</code>"
    else "<a href=\"https://github.com/" + repo + "/commit/" + sha + "\"><code>" + Short(sha) + "</code></a>"
  }

  /** What stands ahead of a finding, and after it. */
  function Ahead(b: Block, e: Ending): seq<string> {
    match FateOf(b, e)
    case Corrected(sha) => ["<details><summary>" + Print(b.number) + ". Corrected in " + CommitLink(e.repo, sha) + ".</summary>", ""]
    case _ => []
  }

  function Behind(b: Block, e: Ending): seq<string> {
    match FateOf(b, e)
    case Failed => ["", "_Correction attempted, failed: this is advice._"]
    case Corrected(_) => ["", "</details>"]
    case Uncorrected => ["", "_Correction attempted: no commit corrected this, so it is advice._"]
  }

  // ---- Lines kept among lines put in ----

  /** The lines of `lines` stand in `out`, in order, at `kept`. */
  ghost predicate Keeps(lines: seq<string>, out: seq<string>, kept: seq<nat>) {
    && |kept| == |lines|
    && (forall i :: 0 <= i < |kept| ==> kept[i] < |out| && out[kept[i]] == lines[i])
    && (forall i, j :: 0 <= i < j < |kept| ==> kept[i] < kept[j])
  }

  function From(at: nat, n: nat): (r: seq<nat>)
    ensures |r| == n && forall i :: 0 <= i < n ==> r[i] == at + i
  {
    seq(n, i requires 0 <= i < n => at + i)
  }

  lemma KeepsMore(lines: seq<string>, out: seq<string>, kept: seq<nat>, more: seq<string>)
    requires Keeps(lines, out, kept)
    ensures Keeps(lines + more, out + more, kept + From(|out|, |more|))
  {
  }

  lemma KeepsAround(lines: seq<string>, out: seq<string>, kept: seq<nat>, put: seq<string>)
    requires Keeps(lines, out, kept)
    ensures Keeps(lines, out + put, kept)
  {
  }

  /** A finding stands whole, with what is put ahead of it and after it around it. */
  ghost predicate Marked(b: Block, e: Ending, out: seq<string>, kept: seq<nat>) {
    && b.start < b.end <= |kept|
    && |Ahead(b, e)| <= kept[b.start]
    && kept[b.start] + (b.end - b.start) + |Behind(b, e)| <= |out|
    && (forall j :: b.start <= j < b.end ==> kept[j] == kept[b.start] + (j - b.start))
    && out[kept[b.start] - |Ahead(b, e)|..kept[b.start]] == Ahead(b, e)
    && out[kept[b.start] + (b.end - b.start)..kept[b.start] + (b.end - b.start) + |Behind(b, e)|] == Behind(b, e)
  }

  lemma MarkedStays(b: Block, e: Ending, out: seq<string>, kept: seq<nat>, put: seq<string>, more: seq<nat>)
    requires Marked(b, e, out, kept)
    ensures Marked(b, e, out + put, kept + more)
  {
    var s, t := kept[b.start], kept[b.start] + (b.end - b.start);
    assert (out + put)[s - |Ahead(b, e)|..s] == out[s - |Ahead(b, e)|..s];
    assert (out + put)[t..t + |Behind(b, e)|] == out[t..t + |Behind(b, e)|];
  }

  /** How many lines are put in for the first `k` findings. */
  function PutIn(blocks: seq<Block>, k: nat, e: Ending): nat
    requires k <= |blocks|
  {
    if k == 0 then 0
    else PutIn(blocks, k - 1, e) + (if IsEdited(blocks[k - 1], e) then |Ahead(blocks[k - 1], e)| + |Behind(blocks[k - 1], e)| else 0)
  }

  lemma KeepsFinding(lines: seq<string>, out: seq<string>, kept: seq<nat>, at: nat, b: Block, ahead: seq<string>, behind: seq<string>)
    requires at <= b.start < b.end <= |lines| && Keeps(lines[..at], out, kept)
    ensures Keeps(lines[..b.end], out + lines[at..b.start] + ahead + lines[b.start..b.end] + behind,
                  kept + From(|out|, b.start - at) + From(|out| + (b.start - at) + |ahead|, b.end - b.start))
  {
    hide Keeps;
    var before, finding := lines[at..b.start], lines[b.start..b.end];
    KeepsMore(lines[..at], out, kept, before);
    assert lines[..at] + before == lines[..b.start];
    var kept1 := kept + From(|out|, |before|);
    KeepsAround(lines[..b.start], out + before, kept1, ahead);
    KeepsMore(lines[..b.start], out + before + ahead, kept1, finding);
    assert lines[..b.start] + finding == lines[..b.end];
    KeepsAround(lines[..b.end], out + before + ahead + finding, kept1 + From(|out| + |before| + |ahead|, |finding|), behind);
  }

  lemma Stretches(front: seq<string>, ahead: seq<string>, finding: seq<string>, behind: seq<string>)
    ensures var all := front + ahead + finding + behind;
            var s, t := |front| + |ahead|, |front| + |ahead| + |finding|;
            all[s - |ahead|..s] == ahead && all[t..t + |behind|] == behind
  {
  }

  lemma KeptRuns(kept: seq<nat>, n: nat, at: nat, b: Block, ahead: nat)
    requires |kept| == at <= b.start < b.end
    ensures var kept2 := kept + From(n, b.start - at) + From(n + (b.start - at) + ahead, b.end - b.start);
            |kept2| == b.end && forall j :: b.start <= j < b.end ==> kept2[j] == n + (b.start - at) + ahead + (j - b.start)
  {
  }

  lemma MarkedBy(b: Block, e: Ending, front: seq<string>, finding: seq<string>, kept: seq<nat>)
    requires b.start < b.end == |kept| && |finding| == b.end - b.start
    requires forall j :: b.start <= j < b.end ==> kept[j] == |front| + |Ahead(b, e)| + (j - b.start)
    ensures Marked(b, e, front + Ahead(b, e) + finding + Behind(b, e), kept)
  {
    hide Ahead, Behind;
    Stretches(front, Ahead(b, e), finding, Behind(b, e));
  }

  /** One finding, with the lines before it since the last, put out around with what is said of it. */
  lemma MarksOne(lines: seq<string>, out: seq<string>, kept: seq<nat>, at: nat, b: Block, e: Ending)
    requires at <= b.start < b.end <= |lines| && Keeps(lines[..at], out, kept)
    ensures var all := out + lines[at..b.start] + Ahead(b, e) + lines[b.start..b.end] + Behind(b, e);
            var kept2 := kept + From(|out|, b.start - at) + From(|out| + (b.start - at) + |Ahead(b, e)|, b.end - b.start);
            Keeps(lines[..b.end], all, kept2) && Marked(b, e, all, kept2)
  {
    assert |kept| == at;
    hide Keeps, Ahead, Behind, From, Marked;
    KeepsFinding(lines, out, kept, at, b, Ahead(b, e), Behind(b, e));
    KeptRuns(kept, |out|, at, b, |Ahead(b, e)|);
    var kept2 := kept + From(|out|, b.start - at) + From(|out| + (b.start - at) + |Ahead(b, e)|, b.end - b.start);
    assert |out + lines[at..b.start]| == |out| + (b.start - at) && |lines[b.start..b.end]| == b.end - b.start;
    MarkedBy(b, e, out + lines[at..b.start], lines[b.start..b.end], kept2);
  }

  ghost predicate AllMarked(blocks: seq<Block>, k: nat, e: Ending, out: seq<string>, kept: seq<nat>) {
    k <= |blocks| && forall j :: 0 <= j < k && IsEdited(blocks[j], e) ==> Marked(blocks[j], e, out, kept)
  }

  /** Some finding of the first `k` was corrected. */
  ghost predicate Links(blocks: seq<Block>, k: nat, e: Ending) {
    k <= |blocks| && exists j :: 0 <= j < k && IsEdited(blocks[j], e) && FateOf(blocks[j], e).Corrected?
  }

  /** The first `k` findings done with, and the first `at` lines put out. */
  ghost predicate SoFar(lines: seq<string>, blocks: seq<Block>, k: nat, e: Ending, at: nat, out: seq<string>, kept: seq<nat>) {
    && k <= |blocks| && at <= |lines|
    && (forall j :: k <= j < |blocks| ==> at <= blocks[j].start)
    && Keeps(lines[..at], out, kept)
    && AllMarked(blocks, k, e, out, kept)
    && |out| == at + PutIn(blocks, k, e)
  }

  lemma AllMarkedStay(blocks: seq<Block>, k: nat, e: Ending, out: seq<string>, kept: seq<nat>, put: seq<string>, more: seq<nat>)
    requires AllMarked(blocks, k, e, out, kept)
    ensures AllMarked(blocks, k, e, out + put, kept + more)
  {
    hide Marked, IsEdited;
    forall j | 0 <= j < k && IsEdited(blocks[j], e) ensures Marked(blocks[j], e, out + put, kept + more) {
      MarkedStays(blocks[j], e, out, kept, put, more);
    }
  }

  function PutOut(lines: seq<string>, b: Block, e: Ending, at: nat): seq<string>
    requires at <= b.start < b.end <= |lines|
  {
    lines[at..b.start] + Ahead(b, e) + lines[b.start..b.end] + Behind(b, e)
  }

  function KeptOut(b: Block, e: Ending, at: nat, n: nat): seq<nat>
    requires at <= b.start < b.end
  {
    From(n, b.start - at) + From(n + (b.start - at) + |Ahead(b, e)|, b.end - b.start)
  }

  lemma PutOutIs(lines: seq<string>, b: Block, e: Ending, at: nat, out: seq<string>, kept: seq<nat>)
    requires at <= b.start < b.end <= |lines|
    ensures |PutOut(lines, b, e, at)| == b.end - at + |Ahead(b, e)| + |Behind(b, e)|
    ensures out + PutOut(lines, b, e, at) == out + lines[at..b.start] + Ahead(b, e) + lines[b.start..b.end] + Behind(b, e)
    ensures kept + KeptOut(b, e, at, |out|) == kept + From(|out|, b.start - at) + From(|out| + (b.start - at) + |Ahead(b, e)|, b.end - b.start)
  {
    hide Ahead, Behind;
  }

  lemma Apart(lines: seq<string>, k: nat)
    requires k < |Blocks(lines)|
    ensures Blocks(lines)[k].start < Blocks(lines)[k].end <= |lines|
    ensures forall j :: k < j < |Blocks(lines)| ==> Blocks(lines)[k].end <= Blocks(lines)[j].start
  {
  }

  lemma EditsOne(lines: seq<string>, blocks: seq<Block>, k: nat, e: Ending, at: nat, out: seq<string>, kept: seq<nat>)
    requires blocks == Blocks(lines) && k < |blocks| && SoFar(lines, blocks, k, e, at, out, kept) && IsEdited(blocks[k], e)
    ensures at <= blocks[k].start < blocks[k].end <= |lines|
    ensures SoFar(lines, blocks, k + 1, e, blocks[k].end, out + PutOut(lines, blocks[k], e, at), kept + KeptOut(blocks[k], e, at, |out|))
  {
    hide Marked, Keeps, IsEdited, Ahead, Behind, PutOut, KeptOut, Blocks;
    var b := blocks[k];
    Apart(lines, k);
    MarksOne(lines, out, kept, at, b, e);
    PutOutIs(lines, b, e, at, out, kept);
    AllMarkedStay(blocks, k, e, out, kept, PutOut(lines, b, e, at), KeptOut(b, e, at, |out|));
  }

  lemma EditsNone(lines: seq<string>, blocks: seq<Block>, k: nat, e: Ending, at: nat, out: seq<string>, kept: seq<nat>)
    requires k < |blocks| && SoFar(lines, blocks, k, e, at, out, kept) && !IsEdited(blocks[k], e)
    ensures SoFar(lines, blocks, k + 1, e, at, out, kept)
  {
    hide Marked, Keeps, IsEdited;
  }

  lemma EditsAll(lines: seq<string>, blocks: seq<Block>, e: Ending, at: nat, out: seq<string>, kept: seq<nat>)
    requires SoFar(lines, blocks, |blocks|, e, at, out, kept)
    ensures var all := kept + From(|out|, |lines| - at);
            && Keeps(lines, out + lines[at..], all) && AllMarked(blocks, |blocks|, e, out + lines[at..], all)
            && |out + lines[at..]| == |lines| + PutIn(blocks, |blocks|, e)
  {
    KeepsMore(lines[..at], out, kept, lines[at..]);
    assert lines[..at] + lines[at..] == lines;
    AllMarkedStay(blocks, |blocks|, e, out, kept, lines[at..], From(|out|, |lines| - at));
  }

  lemma LinksOneMore(blocks: seq<Block>, k: nat, e: Ending)
    requires k < |blocks|
    ensures Links(blocks, k + 1, e) <==> Links(blocks, k, e) || (IsEdited(blocks[k], e) && FateOf(blocks[k], e).Corrected?)
  {
  }

  lemma NothingKept(lines: seq<string>, blocks: seq<Block>, e: Ending)
    ensures SoFar(lines, blocks, 0, e, 0, [], [])
  {
  }

  /** The review's lines with its corrected findings folded and the rest marked as advice, and whether any was corrected.
      Its own lines all stand in what is made, in order, at `kept`; every finding of the correction's stands whole among
      them, with what is said of it around it, and nothing else is put in. */
  method Amend(body: string, e: Ending) returns (out: seq<string>, linked: bool, ghost kept: seq<nat>)
    ensures Keeps(LinesOf(body), out, kept)
    ensures AllMarked(Blocks(LinesOf(body)), |Blocks(LinesOf(body))|, e, out, kept)
    ensures |out| == |LinesOf(body)| + PutIn(Blocks(LinesOf(body)), |Blocks(LinesOf(body))|, e)
    ensures linked <==> Links(Blocks(LinesOf(body)), |Blocks(LinesOf(body))|, e)
    ensures linked <==> AnyCorrected(Blocks(LinesOf(body)), e)
  {
    hide AnyCorrected;
    LinksAre(Blocks(LinesOf(body)), e);
    hide SoFar, Keeps, AllMarked, IsEdited, Links, FateOf, PutOut;
    var lines, blocks := ParseReview(body);
    out, linked, kept := [], false, [];
    var at: nat := 0;
    NothingKept(lines, blocks, e);
    assert !Links(blocks, 0, e) by { NothingLinks(blocks, e); }
    for k := 0 to |blocks|
      invariant SoFar(lines, blocks, k, e, at, out, kept)
      invariant linked <==> Links(blocks, k, e)
    {
      var b := blocks[k];
      LinksOneMore(blocks, k, e);
      if IsEdited(b, e) {
        EditsOne(lines, blocks, k, e, at, out, kept);
        kept := kept + KeptOut(b, e, at, |out|);
        out := out + PutOut(lines, b, e, at);
        if FateOf(b, e).Corrected? {
          linked := true;
        }
        at := b.end;
      } else {
        EditsNone(lines, blocks, k, e, at, out, kept);
      }
    }
    assert at <= |lines| by { WithinLines(lines, blocks, |blocks|, e, at, out, kept); }
    EditsAll(lines, blocks, e, at, out, kept);
    kept := kept + From(|out|, |lines| - at);
    out := out + lines[at..];
  }

  /** The correction did not fail, and some commit of it names one of its findings under one of its headings. */
  ghost predicate AnyCorrected(blocks: seq<Block>, e: Ending) {
    !e.failed && exists b :: b in blocks && b.number in e.ours && Correctable(b.axis) && b.number in e.commits && e.commits[b.number] != ""
  }

  lemma LinksAre(blocks: seq<Block>, e: Ending)
    ensures Links(blocks, |blocks|, e) <==> AnyCorrected(blocks, e)
  {
    if b :| b in blocks && b.number in e.ours && Correctable(b.axis) && b.number in e.commits && e.commits[b.number] != "" {
      var k :| 0 <= k < |blocks| && blocks[k] == b;
      assert !e.failed ==> IsEdited(blocks[k], e) && FateOf(blocks[k], e).Corrected?;
    }
  }

  /** What is said of a finding, by how the correction ended: a failed one says so of every finding; otherwise the finding a
      commit names is folded under that commit's link, and any other is left as advice. */
  lemma WhatIsSaid(b: Block, e: Ending)
    ensures Ahead(b, e) != [] <==> !e.failed && b.number in e.commits && e.commits[b.number] != ""
    ensures Ahead(b, e) != [] ==> Ahead(b, e) == ["<details><summary>" + Print(b.number) + ". Corrected in " + CommitLink(e.repo, e.commits[b.number]) + ".</summary>", ""]
                                  && Behind(b, e) == ["", "</details>"]
    ensures e.failed ==> Behind(b, e) == ["", "_Correction attempted, failed: this is advice._"]
    ensures !e.failed && Ahead(b, e) == [] ==> Behind(b, e) == ["", "_Correction attempted: no commit corrected this, so it is advice._"]
  {
  }

  lemma NothingLinks(blocks: seq<Block>, e: Ending)
    ensures !Links(blocks, 0, e)
  {
  }

  lemma WithinLines(lines: seq<string>, blocks: seq<Block>, k: nat, e: Ending, at: nat, out: seq<string>, kept: seq<nat>)
    requires SoFar(lines, blocks, k, e, at, out, kept)
    ensures at <= |lines|
  {
  }
}
