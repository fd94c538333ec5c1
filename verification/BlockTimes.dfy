/**
 When the blocks of a segment run forward in time. The parser lets each word start a
 millisecond before the one before it ends, so a block of several words can end before it
 starts, and one at the very beginning can start before zero; the segments table refuses both.
 */
module BlockTimes {
  import opened Common
  import opened Ranking
  import opened Transcript
  import opened Alignment
  import opened AlignmentLaws
  import W = Words

  // ---- Blocks and runs of words -----------------------------------------------------------------

  /** The words `from` to `last` have one label, and their neighbours have other ones. */
  predicate MaximalRun(labels: seq<Option<Label>>, from: nat, last: nat)
  {
    && from <= last < |labels| && (forall k | from <= k <= last :: labels[k] == labels[from])
    && (from > 0 ==> labels[from - 1] != labels[from]) && (last + 1 < |labels| ==> labels[last + 1] != labels[from])
  }

  /** The stretch of time of the words `from` to `last`. */
  function Stretch(words: seq<Word>, from: nat, last: nat): Span
    requires from <= last < |words|
  {
    Span(words[from].span.start, words[last].span.end)
  }

  predicate Starts(labels: seq<Option<Label>>, from: nat)
    requires from <= |labels|
  {
    0 < from < |labels| ==> labels[from - 1] != labels[from]
  }

  /** Every part is a maximal run, which `a` and `b` name. */
  lemma {:induction false} PartIsRun(text: string, words: seq<Word>, labels: seq<Option<Label>>, from: nat, i: nat) returns (a: nat, b: nat)
    requires |labels| == |words| == |W.Tokens(text)| && from <= |words| && Starts(labels, from)
    requires i < |PartsFrom(text, words, labels, from)|
    ensures MaximalRun(labels, a, b) && PartsFrom(text, words, labels, from)[i].span == Stretch(words, a, b)
    ensures PartsFrom(text, words, labels, from)[i].who == labels[a]
    decreases |words| - from
  {
    var end := RunEnd(labels, from);
    PartsStep(text, words, labels, from, end);
    if i == 0 {
      a, b := from, end - 1;
    } else {
      assert end < |labels| ==> labels[end - 1] == labels[from];
      a, b := PartIsRun(text, words, labels, end, i - 1);
      assert PartsFrom(text, words, labels, from)[i] == PartsFrom(text, words, labels, end)[i - 1];
    }
  }

  /** Every maximal run is a part, which `i` names. */
  lemma {:induction false} RunIsPart(text: string, words: seq<Word>, labels: seq<Option<Label>>, from: nat, a: nat, b: nat) returns (i: nat)
    requires |labels| == |words| == |W.Tokens(text)| && from <= a && MaximalRun(labels, a, b)
    ensures i < |PartsFrom(text, words, labels, from)| && PartsFrom(text, words, labels, from)[i].span == Stretch(words, a, b)
    decreases |words| - from
  {
    if from == a {
      PartsStep(text, words, labels, a, b + 1);
      i := 0;
    } else {
      assert labels[a - 1] != labels[a];
      var end := RunEnd(labels, from);
      PartsStep(text, words, labels, from, end);
      var rest := RunIsPart(text, words, labels, end, a, b);
      i := rest + 1;
    }
  }

  lemma BlockIsRun(s: Segment, turns: seq<Turn>, i: nat) returns (a: nat, b: nat)
    requires SplitOf(s, turns).Parts? && i < |SegmentBlocks(s, turns)|
    ensures MaximalRun(LabelsOf(s.words.value, turns), a, b) && SegmentBlocks(s, turns)[i].span == Stretch(s.words.value, a, b)
    ensures SplitOf(s, turns).parts[i].who == LabelsOf(s.words.value, turns)[a]
  {
    hide MaximalRun, PartsFrom, LabelsOf;
    a, b := PartIsRun(s.text, s.words.value, LabelsOf(s.words.value, turns), 0, i);
  }

  lemma RunIsBlock(s: Segment, turns: seq<Turn>, a: nat, b: nat) returns (i: nat)
    requires SplitOf(s, turns).Parts? && MaximalRun(LabelsOf(s.words.value, turns), a, b)
    ensures i < |SegmentBlocks(s, turns)| && SegmentBlocks(s, turns)[i].span == Stretch(s.words.value, a, b)
  {
    hide MaximalRun, PartsFrom, LabelsOf;
    i := RunIsPart(s.text, s.words.value, LabelsOf(s.words.value, turns), 0, a, b);
  }

  // ---- What the table stores ----------------------------------------------------------------------

  /** `numeric(12,3)`, in thousandths: the nearest one, halves away from zero. */
  function Stored(x: real): int
  {
    if x >= 0.0 then (x * 1000.0 + 0.5).Floor else -((-x * 1000.0 + 0.5).Floor)
  }

  lemma StoredIsMonotone(a: real, b: real)
    requires a <= b
    ensures Stored(a) <= Stored(b)
  {
  }

  /** The CHECKs on a segment's times: `start_sec >= 0` and `segments_time_order`. */
  predicate RowAccepted(span: Span) { 0 <= Stored(span.start) <= Stored(span.end) }

  /** The table takes every block of a segment exactly when it was left whole or each run of one label, as stored, runs forward from zero. */
  lemma SegmentAcceptedIff(s: Segment, turns: seq<Turn>)
    requires SegmentSound(s)
    ensures (forall i | 0 <= i < |SegmentBlocks(s, turns)| :: RowAccepted(SegmentBlocks(s, turns)[i].span))
            <==> (SplitOf(s, turns).Parts? ==>
                    forall a, b | MaximalRun(LabelsOf(s.words.value, turns), a, b) :: RowAccepted(Stretch(s.words.value, a, b)))
  {
    if SplitOf(s, turns).Whole? {
      StoredIsMonotone(0.0, s.span.start);
      StoredIsMonotone(s.span.start, s.span.end);
    } else {
      var labels := LabelsOf(s.words.value, turns);
      if forall i | 0 <= i < |SegmentBlocks(s, turns)| :: RowAccepted(SegmentBlocks(s, turns)[i].span) {
        forall a, b | MaximalRun(labels, a, b) ensures RowAccepted(Stretch(s.words.value, a, b)) { var i := RunIsBlock(s, turns, a, b); }
      }
      if forall a, b | MaximalRun(labels, a, b) :: RowAccepted(Stretch(s.words.value, a, b)) {
        forall i | 0 <= i < |SegmentBlocks(s, turns)| ensures RowAccepted(SegmentBlocks(s, turns)[i].span) { var a, b := BlockIsRun(s, turns, i); }
      }
    }
  }

  /** No word ends before an earlier one, or before zero, starts. */
  predicate WordsForward(words: seq<Word>)
  {
    forall i, j | 0 <= i <= j < |words| :: 0.0 <= words[i].span.start <= words[j].span.end
  }

  /** Whatever the turns, words that run forward make blocks that do. */
  lemma ForwardWordsAreAccepted(s: Segment, turns: seq<Turn>, i: nat)
    requires SegmentSound(s) && (s.words.Some? ==> WordsForward(s.words.value)) && i < |SegmentBlocks(s, turns)|
    ensures SegmentBlocks(s, turns)[i].span.start <= SegmentBlocks(s, turns)[i].span.end && RowAccepted(SegmentBlocks(s, turns)[i].span)
  {
    if SplitOf(s, turns).Parts? { var a, b := BlockIsRun(s, turns, i); }
    var span := SegmentBlocks(s, turns)[i].span;
    StoredIsMonotone(0.0, span.start);
    StoredIsMonotone(span.start, span.end);
  }

  // ---- For which words some turns turn a block back ---------------------------------------------------

  /** A word lasts at least a millisecond or no time at all, as words timed in whole milliseconds do. */
  predicate InMilliseconds(words: seq<Word>)
  {
    forall k | 0 <= k < |words| :: words[k].span.start == words[k].span.end || words[k].span.start + TOLERANCE <= words[k].span.end
  }

  lemma {:induction false} LastingWordsGoForward(words: seq<Word>, within: Span, from: nat, last: nat)
    requires WordsInside(words, within) && from <= last < |words|
    requires forall k | from <= k <= last :: words[k].span.start + TOLERANCE <= words[k].span.end
    ensures words[from].span.end <= words[last].span.end
    decreases last
  {
    if from < last { LastingWordsGoForward(words, within, from, last - 1); }
  }

  /** A stretch that runs backward holds a word that takes no time. */
  lemma BackwardHoldsEmptyWord(words: seq<Word>, within: Span, from: nat, last: nat) returns (k: nat)
    requires WordsInside(words, within) && InMilliseconds(words) && from <= last < |words|
    requires words[last].span.end < words[from].span.start
    ensures from <= k <= last && words[k].span.start == words[k].span.end
  {
    if forall l | from <= l <= last :: words[l].span.start != words[l].span.end {
      LastingWordsGoForward(words, within, from, last);
      assert false;
    }
    k :| from <= k <= last && words[k].span.start == words[k].span.end;
  }

  lemma {:induction false} SomeTurnIsHeard(turns: seq<Turn>, s: Span, x: Label) returns (j: nat)
    requires Seconds(turns, s, x) > 0.0
    ensures j < |turns| && Overlap(s, turns[j]) > 0.0
  {
    if Overlap(s, turns[0]) > 0.0 {
      j := 0;
    } else {
      var rest := SomeTurnIsHeard(turns[1..], s, x);
      j := rest + 1;
    }
  }

  lemma {:induction false} NobodyIsHeard(turns: seq<Turn>, s: Span, x: Label)
    requires forall j | 0 <= j < |turns| :: Overlap(s, turns[j]) == 0.0
    ensures Seconds(turns, s, x) == 0.0
  {
    if turns != [] {
      assert Overlap(s, turns[0]) == 0.0;
      forall j | 0 <= j < |turns[1..]| ensures Overlap(s, turns[1..][j]) == 0.0 { assert turns[1..][j] == turns[j + 1]; }
      NobodyIsHeard(turns[1..], s, x);
    }
  }

  lemma {:induction false} HeardIsCounted(turns: seq<Turn>, s: Span, j: nat)
    requires j < |turns|
    ensures Seconds(turns, s, turns[j].speaker) >= Overlap(s, turns[j])
  {
    if j > 0 {
      HeardIsCounted(turns[1..], s, j - 1);
    } else {
      SecondsNonNegative(turns[1..], s, turns[0].speaker);
    }
  }

  /** A stretch has no label exactly when no turn overlaps it. */
  lemma SilentIff(turns: seq<Turn>, s: Span)
    ensures RankOf(turns, s).winner.None? <==> forall j | 0 <= j < |turns| :: Overlap(s, turns[j]) == 0.0
  {
    var r := RankOf(turns, s);
    if r.winner.None? {
      forall j | 0 <= j < |turns| ensures Overlap(s, turns[j]) == 0.0 { HeardIsCounted(turns, s, j); }
    } else {
      var j := SomeTurnIsHeard(turns, s, r.winner.value);
    }
  }

  /** A block that ends before it starts is nobody's. */
  lemma BackwardBlocksAreSilent(s: Segment, turns: seq<Turn>, i: nat)
    requires i < |SegmentBlocks(s, turns)| && SegmentBlocks(s, turns)[i].span.end <= SegmentBlocks(s, turns)[i].span.start
    ensures SegmentBlocks(s, turns)[i].speaker.None?
  {
    var span := SegmentBlocks(s, turns)[i].span;
    SilentIff(turns, span);
    forall j | 0 <= j < |turns| ensures Overlap(span, turns[j]) == 0.0 { EmptyOverlap(span, turns[j]); }
  }

  lemma EmptyOverlap(s: Span, t: Turn)
    requires s.end <= s.start
    ensures Overlap(s, t) == 0.0
  {
  }

  /** Turns as the parser lets them through. */
  predicate TurnsAccepted(turns: seq<Turn>) { forall j | 0 <= j < |turns| :: 0.0 <= turns[j].start <= turns[j].end }

  /** From `a` to `b` word `k` is spoken and none of the words `from` to `last` is. */
  predicate Alone(words: seq<Word>, k: nat, from: nat, last: nat, a: real, b: real)
    requires k < |words| && from <= last < |words|
  {
    && 0.0 <= a < b && words[k].span.start <= a && b <= words[k].span.end
    && forall l | from <= l <= last :: words[l].span.start == words[l].span.end || words[l].span.end <= a || b <= words[l].span.start
  }

  ghost predicate StandsOut(words: seq<Word>, k: nat, from: nat, last: nat)
    requires k < |words| && from <= last < |words|
  {
    exists a, b :: Alone(words, k, from, last, a, b)
  }

  /** A backward stretch that is not all of the segment, and whose neighbours can be heard when it is silent. */
  ghost predicate CanTurnBack(words: seq<Word>, from: nat, last: nat)
  {
    && from <= last < |words| && (from > 0 || last + 1 < |words|)
    && words[last].span.end < words[from].span.start
    && (from > 0 ==> StandsOut(words, from - 1, from, last))
    && (last + 1 < |words| ==> StandsOut(words, last + 1, from, last))
  }

  ghost predicate EmitsBackward(s: Segment, turns: seq<Turn>)
  {
    exists i :: 0 <= i < |SegmentBlocks(s, turns)| && SegmentBlocks(s, turns)[i].span.end < SegmentBlocks(s, turns)[i].span.start
  }

  /** A word that is heard next to silent ones stands out from them. */
  lemma HeardStandsOut(words: seq<Word>, turns: seq<Turn>, k: nat, from: nat, last: nat)
    requires TurnsAccepted(turns) && k < |words| && from <= last < |words|
    requires RankOf(turns, words[k].span).winner.Some?
    requires forall l | from <= l <= last :: RankOf(turns, words[l].span).winner.None? && words[l].span.start <= words[l].span.end
    ensures StandsOut(words, k, from, last)
  {
    SilentIff(turns, words[k].span);
    var j :| 0 <= j < |turns| && Overlap(words[k].span, turns[j]) != 0.0;
    var (a, b) := (MaxReal(words[k].span.start, turns[j].start), MinReal(words[k].span.end, turns[j].end));
    forall l | from <= l <= last
      ensures words[l].span.start == words[l].span.end || words[l].span.end <= a || b <= words[l].span.start
    {
      SilentIff(turns, words[l].span);
      assert Overlap(words[l].span, turns[j]) == 0.0;
    }
    assert Alone(words, k, from, last, a, b);
  }

  lemma BackwardRunIsSilent(words: seq<Word>, within: Span, turns: seq<Turn>, from: nat, last: nat)
    requires WordsInside(words, within) && InMilliseconds(words) && MaximalRun(LabelsOf(words, turns), from, last)
    requires words[last].span.end < words[from].span.start
    ensures forall l | from <= l <= last :: RankOf(turns, words[l].span).winner.None?
  {
    var labels := LabelsOf(words, turns);
    var k := BackwardHoldsEmptyWord(words, within, from, last);
    SilentIff(turns, words[k].span);
    forall j | 0 <= j < |turns| ensures Overlap(words[k].span, turns[j]) == 0.0 { EmptyOverlap(words[k].span, turns[j]); }
    assert labels[k].None? && labels[k] == labels[from];
    forall l | from <= l <= last ensures RankOf(turns, words[l].span).winner.None? {
      assert labels[l] == labels[from];
      assert labels[l] == RankOf(turns, words[l].span).winner;
    }
  }

  lemma BackwardRunStandsOut(words: seq<Word>, within: Span, turns: seq<Turn>, from: nat, last: nat)
    requires WordsInside(words, within) && InMilliseconds(words) && TurnsAccepted(turns)
    requires MaximalRun(LabelsOf(words, turns), from, last) && words[last].span.end < words[from].span.start
    ensures from > 0 ==> StandsOut(words, from - 1, from, last)
    ensures last + 1 < |words| ==> StandsOut(words, last + 1, from, last)
  {
    BackwardRunIsSilent(words, within, turns, from, last);
    var labels := LabelsOf(words, turns);
    assert labels[from].None?;
    if from > 0 {
      assert labels[from - 1].Some?;
      HeardStandsOut(words, turns, from - 1, from, last);
    }
    if last + 1 < |words| {
      assert labels[last + 1].Some?;
      HeardStandsOut(words, turns, last + 1, from, last);
    }
  }

  lemma WholeRunHasNoChange(labels: seq<Option<Label>>)
    requires labels != [] && MaximalRun(labels, 0, |labels| - 1)
    ensures !Changes(labels)
  {
    forall c | 0 < c < |labels| ensures labels[c] == labels[c - 1] { assert labels[c - 1] == labels[0] && labels[c] == labels[0]; }
  }

  lemma ChangesLeaveSome(labels: seq<Option<Label>>, from: nat, last: nat)
    requires Changes(labels) && MaximalRun(labels, from, last)
    ensures from > 0 || last + 1 < |labels|
  {
    if from == 0 && last + 1 == |labels| { WholeRunHasNoChange(labels); }
  }

  lemma BackwardBlockNeedsSuchWords(s: Segment, turns: seq<Turn>) returns (from: nat, last: nat)
    requires SegmentSound(s) && TurnsAccepted(turns) && EmitsBackward(s, turns) && (s.words.Some? ==> InMilliseconds(s.words.value))
    ensures s.words.Some? && Corresponds(s.text, s.words.value) && CanTurnBack(s.words.value, from, last)
  {
    var i :| 0 <= i < |SegmentBlocks(s, turns)| && SegmentBlocks(s, turns)[i].span.end < SegmentBlocks(s, turns)[i].span.start;
    from, last := BlockIsRun(s, turns, i);
    ChangesLeaveSome(LabelsOf(s.words.value, turns), from, last);
    BackwardRunStandsOut(s.words.value, s.span, turns, from, last);
  }

  /** A turn on each side that has a word, where that word stands out. */
  ghost function TurnsAround(words: seq<Word>, from: nat, last: nat): (turns: seq<Turn>)
    requires CanTurnBack(words, from, last)
    ensures TurnsAccepted(turns)
    ensures forall j, l | 0 <= j < |turns| && from <= l <= last :: Overlap(words[l].span, turns[j]) == 0.0
    ensures from > 0 ==> exists j :: 0 <= j < |turns| && Overlap(words[from - 1].span, turns[j]) > 0.0
    ensures last + 1 < |words| ==> exists j :: 0 <= j < |turns| && Overlap(words[last + 1].span, turns[j]) > 0.0
  {
    var before := if from > 0 then [TurnBeside(words, from - 1, from, last)] else [];
    var after := if last + 1 < |words| then [TurnBeside(words, last + 1, from, last)] else [];
    var turns := before + after;
    assert from > 0 ==> turns[0] == before[0];
    assert last + 1 < |words| ==> turns[|before|] == after[0];
    turns
  }

  ghost function TurnBeside(words: seq<Word>, k: nat, from: nat, last: nat): (t: Turn)
    requires k < |words| && from <= last < |words| && StandsOut(words, k, from, last)
    ensures 0.0 <= t.start <= t.end && Overlap(words[k].span, t) > 0.0
    ensures forall l | from <= l <= last :: Overlap(words[l].span, t) == 0.0
  {
    var a, b :| Alone(words, k, from, last, a, b);
    Turn(a, b, 1)
  }

  lemma SilentRunIsMaximal(words: seq<Word>, turns: seq<Turn>, from: nat, last: nat)
    requires from <= last < |words| && (from > 0 || last + 1 < |words|)
    requires forall j, l | 0 <= j < |turns| && from <= l <= last :: Overlap(words[l].span, turns[j]) == 0.0
    requires from > 0 ==> exists j :: 0 <= j < |turns| && Overlap(words[from - 1].span, turns[j]) > 0.0
    requires last + 1 < |words| ==> exists j :: 0 <= j < |turns| && Overlap(words[last + 1].span, turns[j]) > 0.0
    ensures Changes(LabelsOf(words, turns)) && MaximalRun(LabelsOf(words, turns), from, last)
  {
    var labels := LabelsOf(words, turns);
    forall l | from <= l <= last ensures labels[l].None? { SilentIff(turns, words[l].span); }
    if from > 0 {
      SilentIff(turns, words[from - 1].span);
      assert labels[from] != labels[from - 1];
    }
    if last + 1 < |words| {
      SilentIff(turns, words[last + 1].span);
      assert labels[last + 1] != labels[last + 1 - 1];
    }
  }

  lemma SuchWordsTurnBack(s: Segment, from: nat, last: nat) returns (turns: seq<Turn>)
    requires SegmentSound(s) && s.words.Some? && Corresponds(s.text, s.words.value) && CanTurnBack(s.words.value, from, last)
    ensures TurnsAccepted(turns) && EmitsBackward(s, turns)
  {
    turns := TurnsAround(s.words.value, from, last);
    SilentRunIsMaximal(s.words.value, turns, from, last);
    var i := RunIsBlock(s, turns, from, last);
  }

  /**
   Exactly which segments can yield a block that ends before it starts, for some turns: those
   whose words are the text's and hold a backward stretch that its neighbours stand out from.
   */
  lemma BackwardBlockPossibleIff(s: Segment)
    requires SegmentSound(s) && (s.words.Some? ==> InMilliseconds(s.words.value))
    ensures (exists turns :: TurnsAccepted(turns) && EmitsBackward(s, turns))
            <==> s.words.Some? && Corresponds(s.text, s.words.value) && exists from, last :: CanTurnBack(s.words.value, from, last)
  {
    if turns :| TurnsAccepted(turns) && EmitsBackward(s, turns) {
      var from, last := BackwardBlockNeedsSuchWords(s, turns);
    }
    if s.words.Some? && Corresponds(s.text, s.words.value) && exists from, last :: CanTurnBack(s.words.value, from, last) {
      var from, last :| CanTurnBack(s.words.value, from, last);
      var turns := SuchWordsTurnBack(s, from, last);
    }
  }

  // ---- A transcript the table refuses -----------------------------------------------------------------

  lemma OneTurnIsHeard(t: Turn, s: Span)
    ensures RankOf([t], s).winner.None? <==> Overlap(s, t) == 0.0
  {
    SilentIff([t], s);
    assert forall j | 0 <= j < |[t]| :: [t][j] == t;
  }

  /** Three words, of which only the last is heard: the first two make a block of nobody's. */
  lemma SilentPairIsBlock(s: Segment, t: Turn)
    requires s.words.Some? && |s.words.value| == 3 && Corresponds(s.text, s.words.value)
    requires Overlap(s.words.value[0].span, t) == Overlap(s.words.value[1].span, t) == 0.0 < Overlap(s.words.value[2].span, t)
    ensures |SegmentBlocks(s, [t])| > 0 && SegmentBlocks(s, [t])[0].span == Stretch(s.words.value, 0, 1)
  {
    forall k | 0 <= k < 3 ensures LabelsOf(s.words.value, [t])[k].None? <==> k < 2 { OneTurnIsHeard(t, s.words.value[k].span); }
    TwoThenOne(s, [t]);
  }

  function Spoken(word: string, start: real, end: real): WordRecord { WordRecord(Number(start), Number(end), Text(word)) }

  /** A line of a transcript, in milliseconds: the second word is over before the first one starts. */
  function BackwardLine(): SegmentRecord
  {
    SegmentRecord(Number(0.0), Number(0.5), Number(3.0), Text("a b c"), Missing,
                  List([Spoken("a", 1.0, 1.0), Spoken("b", 0.999, 0.999), Spoken("c", 2.0, 3.0)]))
  }

  /** A line whose first word starts a millisecond before the recording does. */
  function EarlyLine(): SegmentRecord
  {
    SegmentRecord(Number(0.0), Number(0.0), Number(3.0), Text("a b c"), Missing,
                  List([Spoken("a", -0.001, 0.5), Spoken("b", 0.5, 1.0), Spoken("c", 2.0, 3.0)]))
  }

  const HEAD := TranscriptHead(Text(TRANSCRIPT_SCHEMA), Number(2.0), Number(3.0), Text("m"), Number(1.0))
  const LAST_HEARD := Turn(2.0, 3.0, 2)

  lemma BackwardLineIsAccepted()
    ensures TranscriptOk(HEAD, [BackwardLine()])
  {
    assert WordsFit(BackwardLine().words.entries, Span(0.5, 3.0));
  }

  lemma EarlyLineIsAccepted()
    ensures TranscriptOk(HEAD, [EarlyLine()])
  {
    assert WordsFit(EarlyLine().words.entries, Span(0.0, 3.0));
  }

  /** An accepted transcript with a block that ends before it starts, which the table refuses. */
  lemma BlocksCanEndBeforeTheyStart() returns (s: Segment)
    ensures TranscriptOk(HEAD, [BackwardLine()]) && SegmentsOf([BackwardLine()]) == [s]
    ensures |SegmentBlocks(s, [LAST_HEARD])| > 0
    ensures var span := SegmentBlocks(s, [LAST_HEARD])[0].span; span == Span(1.0, 0.999) && !RowAccepted(span)
  {
    BackwardLineIsAccepted();
    s := SegmentOf(BackwardLine());
    LettersCorrespond(s.words.value);
    SilentPairIsBlock(s, LAST_HEARD);
  }

  /** An accepted transcript with a block that starts before zero, which the table refuses too. */
  lemma BlocksCanStartBeforeZero() returns (s: Segment)
    ensures TranscriptOk(HEAD, [EarlyLine()]) && SegmentsOf([EarlyLine()]) == [s]
    ensures |SegmentBlocks(s, [LAST_HEARD])| > 0
    ensures var span := SegmentBlocks(s, [LAST_HEARD])[0].span; span == Span(-0.001, 1.0) && !RowAccepted(span)
  {
    EarlyLineIsAccepted();
    s := SegmentOf(EarlyLine());
    LettersCorrespond(s.words.value);
    SilentPairIsBlock(s, LAST_HEARD);
  }
}
