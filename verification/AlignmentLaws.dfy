/**
 What the alignment promises about its blocks: dense indices, independence of the turns'
 order, times within their segment, and labels that agree with the words when these leave no
 gaps inside a run of one label; with an input on which a gap changes the label.
 */
module AlignmentLaws {
  import opened Common
  import opened Ranking
  import opened Transcript
  import opened Alignment
  import W = Words

  // ---- Indices ----------------------------------------------------------------------------------

  /** For every transcript the parser accepts, the blocks are numbered densely from 0. */
  lemma IndicesAreDense(head: TranscriptHead, rows: seq<SegmentRecord>, turns: Option<seq<Turn>>, k: nat)
    requires TranscriptOk(head, rows) && k < |Aligned(SegmentsOf(rows), turns)|
    ensures Aligned(SegmentsOf(rows), turns)[k].index == k
  {
    if turns.None? || turns.value == [] { AcceptedIsSound(head, rows, k); }
  }

  // ---- The set of turns ---------------------------------------------------------------------------

  lemma SameLabels(words: seq<Word>, a: seq<Turn>, b: seq<Turn>)
    requires multiset(a) == multiset(b)
    ensures LabelsOf(words, a) == LabelsOf(words, b)
  {
    forall i | 0 <= i < |words| ensures LabelsOf(words, a)[i] == LabelsOf(words, b)[i] {
      RankIgnoresOrder(a, b, words[i].span);
    }
  }

  lemma SameSplit(s: Segment, a: seq<Turn>, b: seq<Turn>)
    requires multiset(a) == multiset(b)
    ensures SplitOf(s, a) == SplitOf(s, b)
  {
    RankIgnoresOrder(a, b, s.span);
    if s.words.Some? { SameLabels(s.words.value, a, b); }
  }

  lemma SameSegmentBlocks(s: Segment, a: seq<Turn>, b: seq<Turn>)
    requires multiset(a) == multiset(b)
    ensures SegmentBlocks(s, a) == SegmentBlocks(s, b)
  {
    SameSplit(s, a, b);
    match SplitOf(s, a)
    case Whole(_) => RankIgnoresOrder(a, b, s.span);
    case Parts(parts) =>
      forall i | 0 <= i < |parts| ensures PartBlock(s, parts[i], a) == PartBlock(s, parts[i], b) {
        RankIgnoresOrder(a, b, parts[i].span);
      }
  }

  /** Alignment is a function of the set of turns: permuting them changes no block, label or flag. */
  lemma AlignmentIgnoresTurnOrder(segments: seq<Segment>, a: seq<Turn>, b: seq<Turn>)
    requires multiset(a) == multiset(b)
    ensures Aligned(segments, Some(a)) == Aligned(segments, Some(b))
  {
    assert |a| == |multiset(a)| == |multiset(b)| == |b|;
    forall i | 0 <= i < |segments| ensures SegmentBlocks(segments[i], a) == SegmentBlocks(segments[i], b) {
      SameSegmentBlocks(segments[i], a, b);
    }
    assert BlockLists(segments, a) == BlockLists(segments, b);
  }

  // ---- Times ------------------------------------------------------------------------------------------

  /** A later word starts, and so ends, no earlier than a millisecond per word in between allows. */
  lemma {:induction false} WordsDrift(words: seq<Word>, within: Span, from: nat, to: nat)
    requires WordsInside(words, within) && from <= to < |words|
    ensures words[to].span.start >= words[from].span.start - TOLERANCE * (to - from) as real
    ensures words[to].span.end >= words[from].span.start - TOLERANCE * (to - from) as real
    decreases |words| - from
  {
    if from < to {
      WordsDrift(words, within, from + 1, to);
      assert TOLERANCE * (to - from) as real == TOLERANCE * (to - from - 1) as real + TOLERANCE;
    }
  }

  /** A block of `n` words lies within a millisecond of its segment and ends at most n - 1 milliseconds before it starts. */
  predicate Timed(span: Span, n: nat, within: Span)
  {
    && within.start - 0.001 <= span.start <= within.end + 0.001
    && within.start - 0.001 <= span.end <= within.end + 0.001
    && span.end >= span.start - 0.001 * (n - 1) as real
  }

  lemma {:induction false} PartsAreTimed(text: string, words: seq<Word>, labels: seq<Option<Label>>, within: Span, from: nat, i: nat)
    requires WordsInside(words, within) && |labels| == |words| == |W.Tokens(text)|
    requires from <= |words| && i < |PartsFrom(text, words, labels, from)|
    ensures var p := PartsFrom(text, words, labels, from)[i];
            p.wordCount >= 1 && p.wordCount == |W.WordsOf(p.text)| && Timed(p.span, p.wordCount, within)
    decreases |words| - from
  {
    var end := RunEnd(labels, from);
    PartsStep(text, words, labels, from, end);
    if i == 0 {
      WordsDrift(words, within, from, end - 1);
      W.SliceKeepsWords(text, from, end - 1);
    } else {
      PartsAreTimed(text, words, labels, within, end, i - 1);
    }
  }

  /** Times of one segment's blocks; a block cut from it has as many words as it took from the segment. */
  lemma SegmentBlocksAreTimed(s: Segment, turns: seq<Turn>, i: nat)
    requires SegmentSound(s) && i < |SegmentBlocks(s, turns)|
    ensures var b := SegmentBlocks(s, turns)[i];
            if SplitOf(s, turns).Whole? then b.span == s.span && b.span.start <= b.span.end
            else |W.WordsOf(b.text)| >= 1 && Timed(b.span, |W.WordsOf(b.text)|, s.span)
  {
    if SplitOf(s, turns).Parts? {
      PartsAreTimed(s.text, s.words.value, LabelsOf(s.words.value, turns), s.span, 0, i);
    }
  }

  // ---- Labels --------------------------------------------------------------------------------------------

  /** The words follow one another without a gap. */
  predicate Gapless(words: seq<Word>, from: nat, last: nat)
    requires from <= last < |words|
  {
    && (forall k | from <= k <= last :: words[k].span.start <= words[k].span.end)
    && (forall k | from < k <= last :: words[k].span.start == words[k - 1].span.end)
  }

  lemma {:induction false} GaplessGrows(words: seq<Word>, from: nat, last: nat)
    requires from <= last < |words| && Gapless(words, from, last)
    ensures words[from].span.start <= words[last].span.end
    decreases last
  {
    if from < last { GaplessGrows(words, from, last - 1); }
  }

  /** Over gapless words of one label, the label of the whole stretch is that label, the absent one included. */
  lemma {:induction false} GaplessRunKeepsLabel(words: seq<Word>, turns: seq<Turn>, from: nat, last: nat, who: Option<Label>)
    requires TurnsOk(turns) && from <= last < |words| && Gapless(words, from, last)
    requires forall k | from <= k <= last :: RankOf(turns, words[k].span).winner == who
    ensures RankOf(turns, Span(words[from].span.start, words[last].span.end)).winner == who
    decreases last
  {
    if from == last {
      assert words[from].span == Span(words[from].span.start, words[from].span.end);
    } else {
      GaplessRunKeepsLabel(words, turns, from, last - 1, who);
      GaplessGrows(words, from, last - 1);
      assert words[last].span == Span(words[last - 1].span.end, words[last].span.end);
      AgreementAdds(turns, words[from].span.start, words[last - 1].span.end, words[last].span.end);
    }
  }

  /** Inside every run of equal labels the words are gapless; between two speakers there may be a pause. */
  predicate RunsGapless(words: seq<Word>, labels: seq<Option<Label>>)
    requires |labels| == |words|
  {
    && (forall k | 0 <= k < |words| :: words[k].span.start <= words[k].span.end)
    && (forall k | 0 < k < |words| && labels[k] == labels[k - 1] :: words[k].span.start == words[k - 1].span.end)
  }

  lemma RunKeepsLabel(words: seq<Word>, turns: seq<Turn>, from: nat, last: nat)
    requires TurnsOk(turns) && from <= last < |words| && RunsGapless(words, LabelsOf(words, turns))
    requires forall k | from <= k <= last :: LabelsOf(words, turns)[k] == LabelsOf(words, turns)[from]
    ensures RankOf(turns, Span(words[from].span.start, words[last].span.end)).winner == LabelsOf(words, turns)[from]
  {
    var labels := LabelsOf(words, turns);
    forall k | from <= k <= last ensures RankOf(turns, words[k].span).winner == labels[from] { assert labels[k] == labels[from]; }
    forall k | from < k <= last ensures words[k].span.start == words[k - 1].span.end { assert labels[k] == labels[k - 1]; }
    GaplessRunKeepsLabel(words, turns, from, last, labels[from]);
  }

  lemma {:induction false} GaplessPartKeepsLabel(text: string, words: seq<Word>, turns: seq<Turn>, from: nat, i: nat)
    requires TurnsOk(turns) && |words| == |W.Tokens(text)| && from <= |words| && RunsGapless(words, LabelsOf(words, turns))
    requires i < |PartsFrom(text, words, LabelsOf(words, turns), from)|
    ensures var p := PartsFrom(text, words, LabelsOf(words, turns), from)[i];
            RankOf(turns, p.span).winner == p.who
    decreases |words| - from
  {
    var labels := LabelsOf(words, turns);
    var end := RunEnd(labels, from);
    PartsStep(text, words, labels, from, end);
    if i == 0 {
      RunKeepsLabel(words, turns, from, end - 1);
    } else {
      GaplessPartKeepsLabel(text, words, turns, end, i - 1);
    }
  }

  /** Ranking a block anew agrees with its words, whenever these are gapless; pauses at a change of speaker do not matter. */
  lemma BlocksKeepTheirWordsLabel(s: Segment, turns: seq<Turn>, i: nat)
    requires TurnsOk(turns) && SplitOf(s, turns).Parts? && i < |SplitOf(s, turns).parts|
    requires RunsGapless(s.words.value, LabelsOf(s.words.value, turns))
    ensures SegmentBlocks(s, turns)[i].speaker == SplitOf(s, turns).parts[i].who
  {
    GaplessPartKeepsLabel(s.text, s.words.value, turns, 0, i);
  }

  lemma {:induction false} UnchangedLabels(labels: seq<Option<Label>>, k: nat)
    requires !Changes(labels) && k < |labels|
    ensures labels[k] == labels[0]
  {
    if k > 0 { UnchangedLabels(labels, k - 1); }
  }

  /** A segment left whole because all its words agree gets their label, when it spans exactly them. */
  lemma WholeKeepsItsWordsLabel(s: Segment, turns: seq<Turn>)
    requires TurnsOk(turns) && s.words.Some? && s.words.value != [] && SplitOf(s, turns) == Whole(false)
    requires RunsGapless(s.words.value, LabelsOf(s.words.value, turns))
    requires s.span == Span(s.words.value[0].span.start, s.words.value[|s.words.value| - 1].span.end)
    ensures |SegmentBlocks(s, turns)| == 1 && SegmentBlocks(s, turns)[0].speaker == LabelsOf(s.words.value, turns)[0]
  {
    var words := s.words.value;
    forall k | 0 <= k < |words| ensures LabelsOf(words, turns)[k] == LabelsOf(words, turns)[0] { UnchangedLabels(LabelsOf(words, turns), k); }
    RunKeepsLabel(words, turns, 0, |words| - 1);
  }

  lemma SecondsOfThree(a: Turn, b: Turn, c: Turn, s: Span, x: Label)
    ensures Seconds([a, b, c], s, x)
            == (if a.speaker == x then Overlap(s, a) else 0.0) + (if b.speaker == x then Overlap(s, b) else 0.0)
               + (if c.speaker == x then Overlap(s, c) else 0.0)
  {
    assert [a, b, c] == [a] + ([b] + [c]);
    SecondsAppend([a], [b] + [c], s, x);
    SecondsAppend([b], [c], s, x);
    SecondsOfOne(a, s, x);
    SecondsOfOne(b, s, x);
    SecondsOfOne(c, s, x);
  }

  lemma SecondsOfOne(a: Turn, s: Span, x: Label)
    ensures Seconds([a], s, x) == if a.speaker == x then Overlap(s, a) else 0.0
  {
    assert [a][1..] == [];
  }

  lemma WinnerOfThree(a: Turn, b: Turn, c: Turn, s: Span, l: Label)
    requires Seconds([a, b, c], s, l) > 0.0
    requires forall x | x != l :: Seconds([a, b, c], s, x) < Seconds([a, b, c], s, l)
    ensures RankOf([a, b, c], s).winner == Some(l)
  {
    WinnerIs([a, b, c], s, l);
  }

  /** Two words of the first speaker around a long silence of theirs, and one of nobody's. */
  function GappedSegment(): Segment
  {
    Segment(0, Span(0.0, 11.0), "a b c", None, Some([Word(Span(0.0, 1.0), "a"), Word(Span(9.0, 10.0), "b"), Word(Span(10.0, 11.0), "c")]))
  }

  const GAPPED_TURNS := [Turn(0.0, 1.0, 1), Turn(1.0, 9.0, 2), Turn(9.0, 10.0, 1)]

  lemma GappedLabels()
    ensures LabelsOf(GappedSegment().words.value, GAPPED_TURNS) == [Some(1), Some(1), None]
    ensures RankOf(GAPPED_TURNS, Span(0.0, 10.0)).winner == Some(2)
  {
    var (a, b, c) := (Turn(0.0, 1.0, 1), Turn(1.0, 9.0, 2), Turn(9.0, 10.0, 1));
    forall x, s ensures Seconds([a, b, c], s, x)
            == (if a.speaker == x then Overlap(s, a) else 0.0) + (if b.speaker == x then Overlap(s, b) else 0.0)
               + (if c.speaker == x then Overlap(s, c) else 0.0) { SecondsOfThree(a, b, c, s, x); }
    WinnerOfThree(a, b, c, Span(0.0, 1.0), 1);
    WinnerOfThree(a, b, c, Span(9.0, 10.0), 1);
    WinnerOfThree(a, b, c, Span(0.0, 10.0), 2);
    assert forall x :: Seconds([a, b, c], Span(10.0, 11.0), x) == 0.0;
    assert RankOf(GAPPED_TURNS, Span(10.0, 11.0)).winner == None;
  }

  /** What becomes of a segment of three words when only the last one is someone else's. */
  lemma TwoThenOne(s: Segment, turns: seq<Turn>)
    requires s.words.Some? && |s.words.value| == 3 && Corresponds(s.text, s.words.value)
    requires var labels := LabelsOf(s.words.value, turns); labels[0] == labels[1] && labels[1] != labels[2]
    ensures var (words, split) := (s.words.value, SplitOf(s, turns));
            && split.Parts? && |split.parts| > 0 && split.parts[0].who == LabelsOf(words, turns)[0]
            && split.parts[0].span == Span(words[0].span.start, words[1].span.end)
  {
    var labels := LabelsOf(s.words.value, turns);
    assert labels[2] != labels[2 - 1];
    PartsStep(s.text, s.words.value, labels, 0, 2);
  }

  lemma LettersCorrespond(words: seq<Word>)
    requires |words| == 3 && words[0].text == "a" && words[1].text == "b" && words[2].text == "c"
    ensures Corresponds("a b c", words)
  {
    W.ThreeLetters();
  }

  lemma GappedIsSound() returns (s: Segment, turns: seq<Turn>)
    ensures s == GappedSegment() && turns == GAPPED_TURNS && SegmentSound(s) && TurnsOk(turns)
  {
    s, turns := GappedSegment(), GAPPED_TURNS;
  }

  lemma RelabelledBlock(s: Segment, turns: seq<Turn>)
    requires s.words.Some? && |s.words.value| == 3 && Corresponds(s.text, s.words.value)
    requires LabelsOf(s.words.value, turns) == [Some(1), Some(1), None]
    requires RankOf(turns, Span(s.words.value[0].span.start, s.words.value[1].span.end)).winner == Some(2)
    ensures SplitOf(s, turns).Parts? && |SplitOf(s, turns).parts| > 0
    ensures SplitOf(s, turns).parts[0].who == Some(1) && SegmentBlocks(s, turns)[0].speaker == Some(2)
  {
    TwoThenOne(s, turns);
  }

  /** With a gap the two can differ: a block cut because its words are the first speaker's is emitted as the second's. */
  lemma GapsCanChangeTheLabel() returns (s: Segment, turns: seq<Turn>)
    ensures SegmentSound(s) && TurnsOk(turns) && SplitOf(s, turns).Parts? && |SplitOf(s, turns).parts| > 0
    ensures SplitOf(s, turns).parts[0].who == Some(1) && SegmentBlocks(s, turns)[0].speaker == Some(2)
  {
    GappedLabels();
    LettersCorrespond(GappedSegment().words.value);
    s, turns := GappedIsSound();
    RelabelledBlock(s, turns);
  }

  // ---- Flags --------------------------------------------------------------------------------------------

  lemma RatioAtLeast(x: real, d: real, threshold: real)
    requires d > 0.0
    ensures x / d >= threshold <==> x >= threshold * d
  {
    assert (x / d) * d == x;
    if x / d >= threshold { Scaled(threshold, x / d, d); }
    if x / d < threshold { ScaledStrictly(x / d, threshold, d); }
  }

  lemma Scaled(a: real, b: real, d: real)
    requires a <= b && d > 0.0
    ensures a * d <= b * d
  {
  }

  lemma ScaledStrictly(a: real, b: real, d: real)
    requires a < b && d > 0.0
    ensures a * d < b * d
  {
  }

  /** `overlap` says that a second voice covers a quarter of the block; a firm block is one that its speaker mostly fills. */
  lemma FlagsTell(source: Segment, span: Span, text: string, wordCount: nat, unplaceable: bool, turns: seq<Turn>)
    ensures var b := BlockOf(source, span, text, wordCount, unplaceable, RankOf(turns, span));
            && (b.overlap <==>
                  exists l, x :: b.speaker == Some(l) && x != l && Seconds(turns, span, x) >= 0.25 * MaxReal(span.end - span.start, 0.000000001))
            && (!b.uncertain <==>
                  && !unplaceable
                  && (b.speaker.Some? ==>
                        && (wordCount == 0 || wordCount >= 3)
                        && Seconds(turns, span, b.speaker.value) >= 0.6 * MaxReal(span.end - span.start, 0.000000001)))
  {
    var (r, d) := (RankOf(turns, span), MaxReal(span.end - span.start, 0.000000001));
    assert Duration(span) == d > 0.0;
    RatioAtLeast(r.runnerUp, d, 0.25);
    RatioAtLeast(r.best, d, 0.6);
    RunnerUpIs(turns, span, 0.25 * d);
  }

  // ---- When a segment is cut -------------------------------------------------------------------------------

  /** Two neighbouring words are of different speakers. */
  ghost predicate SpeakerChanges(words: seq<Word>, turns: seq<Turn>)
  {
    exists i :: 0 < i < |words| && RankOf(turns, words[i].span).winner != RankOf(turns, words[i - 1].span).winner
  }

  /** The words, without the spaces at both ends, are the words of the text. */
  predicate WordsAreText(words: seq<Word>, text: string)
  {
    |words| == |W.WordsOf(text)| && forall i | 0 <= i < |words| :: W.Trim(words[i].text) == W.WordsOf(text)[i]
  }

  lemma ChangesAre(words: seq<Word>, turns: seq<Turn>)
    ensures Changes(LabelsOf(words, turns)) <==> SpeakerChanges(words, turns)
  {
    var labels := LabelsOf(words, turns);
    if Changes(labels) {
      var i :| 0 < i < |labels| && labels[i] != labels[i - 1];
      assert RankOf(turns, words[i].span).winner != RankOf(turns, words[i - 1].span).winner;
    }
    if SpeakerChanges(words, turns) {
      var i :| 0 < i < |words| && RankOf(turns, words[i].span).winner != RankOf(turns, words[i - 1].span).winner;
      assert labels[i] != labels[i - 1];
    }
  }

  lemma RunnerUpIs(turns: seq<Turn>, span: Span, seconds: real)
    requires seconds > 0.0
    ensures var r := RankOf(turns, span);
            r.winner.Some? && r.runnerUp >= seconds <==> exists l, x :: r.winner == Some(l) && x != l && Seconds(turns, span, x) >= seconds
  {
    var r := RankOf(turns, span);
    if r.winner.Some? && r.runnerUp >= seconds {
      var x :| x != r.winner.value && Seconds(turns, span, x) == r.runnerUp;
      assert r.winner == Some(r.winner.value) && x != r.winner.value && Seconds(turns, span, x) >= seconds;
    }
  }

  /**
   A segment is cut exactly when its words are those of its text and change speaker. One left whole
   hides a change exactly when its words change speaker but are not its text's, or, without words,
   when a second voice is heard in it for a fifth of a second.
   */
  lemma SplitTells(s: Segment, turns: seq<Turn>)
    ensures var words := s.words.GetOr([]);
            var (split, changes, hidden) := (SplitOf(s, turns), SpeakerChanges(words, turns),
                                             exists l, x :: RankOf(turns, s.span).winner == Some(l) && x != l && Seconds(turns, s.span, x) >= 0.2);
            && (split.Parts? <==> changes && WordsAreText(words, s.text))
            && (split == Whole(true) <==> (changes && !WordsAreText(words, s.text)) || (words == [] && hidden))
  {
    RunnerUpIs(turns, s.span, 0.2);
    ChangesAre(s.words.GetOr([]), turns);
  }

  /** Over a stretch inside a turn the speaker is heard for its length, over one outside for nothing. */
  lemma OverlapIsLength(s: Span, t: Turn)
    requires s.start <= s.end
    ensures t.start <= s.start && s.end <= t.end ==> Overlap(s, t) == s.end - s.start
    ensures t.end <= s.start || s.end <= t.start ==> Overlap(s, t) == 0.0
  {
  }

  /** Without a diarization every segment is a block of its own, unnamed and unflagged. */
  lemma UnlabelledIs(segments: seq<Segment>, turns: Option<seq<Turn>>, i: nat)
    requires turns.GetOr([]) == [] && i < |segments|
    ensures |Aligned(segments, turns)| == |segments|
    ensures var (b, s) := (Aligned(segments, turns)[i], segments[i]);
            b.source == s && b.index == s.index && b.span == s.span && b.text == s.text && b.speaker == None && !b.overlap && !b.uncertain
  {
  }
}
