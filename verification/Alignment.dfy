/**
 Which speaker said what: a segment is cut at word boundaries where the speaker changes, and
 every block gets the label whose turns overlap it most.
 */
module Alignment {
  import opened Common
  import opened Ranking
  import opened Transcript
  import W = Words

  /** A stretch of one speaker inside a segment. */
  datatype Part = Part(who: Option<Label>, span: Span, text: string, wordCount: nat)

  /** `splitByWords`: the parts, or the whole segment, perhaps with a change that could not be placed. */
  datatype Split = Whole(unplaceable: bool) | Parts(parts: seq<Part>)

  /** `AlignedSegment`. `source` is the segment whose other fields it copies. */
  datatype Block = Block(source: Segment, index: int, span: Span, text: string, speaker: Option<Label>, overlap: bool, uncertain: bool)

  const OVERLAP_THRESHOLD: real := 0.25
  const MIN_WORDS_FOR_FIRM_SPEAKER: nat := 3
  const FIRM_COVERAGE: real := 0.6
  const UNPLACEABLE_MIN_SEC: real := 0.2
  const SHORTEST: real := 0.000000001

  // ---- Splitting ---------------------------------------------------------------------------------

  /** `hasInternalSpeakerChange`, from the ranking. */
  predicate InternalChange(r: Rank) { r.winner.Some? && r.runnerUp >= UNPLACEABLE_MIN_SEC }

  /** The label of each word. */
  ghost function LabelsOf(words: seq<Word>, turns: seq<Turn>): (labels: seq<Option<Label>>)
    ensures |labels| == |words|
  {
    seq(|words|, i requires 0 <= i < |words| => RankOf(turns, words[i].span).winner)
  }

  predicate Changes(labels: seq<Option<Label>>) { exists i :: 0 < i < |labels| && labels[i] != labels[i - 1] }

  /** The words are the text's tokens, one to one. */
  predicate Corresponds(text: string, words: seq<Word>)
  {
    |W.WordsOf(text)| == |words| && forall i | 0 <= i < |words| :: W.WordsOf(text)[i] == W.Trim(words[i].text)
  }

  /** Where the run of equal labels that starts at `from` ends. */
  function RunEnd(labels: seq<Option<Label>>, from: nat): (end: nat)
    requires from < |labels|
    ensures from < end <= |labels|
    ensures forall k | from <= k < end :: labels[k] == labels[from]
    ensures end < |labels| ==> labels[end] != labels[from]
    decreases |labels| - from
  {
    if from + 1 == |labels| || labels[from + 1] != labels[from] then from + 1 else RunEnd(labels, from + 1)
  }

  /** The part that covers the words `from` to `to`. */
  function PartOf(text: string, words: seq<Word>, labels: seq<Option<Label>>, from: nat, to: nat): Part
    requires from <= to < |words| && |labels| == |words| == |W.Tokens(text)|
    requires W.Tokens(text)[from].start <= W.Tokens(text)[to].end
  {
    Part(labels[from], Span(words[from].span.start, words[to].span.end),
         text[W.Tokens(text)[from].start..W.Tokens(text)[to].end], to - from + 1)
  }

  lemma TokensInOrder(text: string, a: nat, b: nat)
    requires a <= b < |W.Tokens(text)|
    ensures W.Tokens(text)[a].start <= W.Tokens(text)[b].end
  {
    W.CutsAtToken(text, a, b);
  }

  /** The runs of equal labels from `from` on, as parts. */
  function PartsFrom(text: string, words: seq<Word>, labels: seq<Option<Label>>, from: nat): seq<Part>
    requires from <= |words| && |labels| == |words| == |W.Tokens(text)|
    decreases |words| - from
  {
    if from == |words| then []
    else
      var end := RunEnd(labels, from);
      TokensInOrder(text, from, end - 1);
      [PartOf(text, words, labels, from, end - 1)] + PartsFrom(text, words, labels, end)
  }

  ghost function SplitOf(s: Segment, turns: seq<Turn>): Split
  {
    if s.words.None? || s.words.value == [] then Whole(InternalChange(RankOf(turns, s.span)))
    else
      var labels := LabelsOf(s.words.value, turns);
      if !Changes(labels) then Whole(false)
      else if !Corresponds(s.text, s.words.value) then Whole(true)
      else Parts(PartsFrom(s.text, s.words.value, labels, 0))
  }

  method LabelWords(words: seq<Word>, turns: seq<Turn>) returns (labels: seq<Option<Label>>, changes: bool)
    ensures labels == LabelsOf(words, turns) && changes == Changes(labels)
  {
    labels, changes := [], false;
    for i := 0 to |words|
      invariant labels == LabelsOf(words[..i], turns) && changes == Changes(labels)
    {
      var r := RankLabels(turns, words[i].span);
      RankIsUnique(turns, words[i].span, r, RankOf(turns, words[i].span));
      ghost var before := labels;
      labels := labels + [r.winner];
      assert words[..i + 1] == words[..i] + [words[i]];
      if i > 0 && labels[i] != labels[i - 1] { changes := true; }
      assert changes == Changes(labels) by {
        if Changes(before) {
          var k :| 0 < k < |before| && before[k] != before[k - 1];
          assert labels[k] != labels[k - 1];
        }
        if Changes(labels) {
          var k :| 0 < k < |labels| && labels[k] != labels[k - 1];
          if k < |before| { assert before[k] != before[k - 1]; }
        }
      }
    }
    assert words[..|words|] == words;
  }

  /** The comparison of the words with the tokens of the text. */
  method Compare(text: string, words: seq<Word>) returns (same: bool)
    ensures same == Corresponds(text, words)
  {
    var tokens := W.Tokenize(text);
    if |tokens| != |words| { return false; }
    for i := 0 to |words|
      invariant forall k | 0 <= k < i :: W.WordsOf(text)[k] == W.Trim(words[k].text)
    {
      if text[tokens[i].start..tokens[i].end] != W.Trim(words[i].text) {
        assert W.WordsOf(text)[i] != W.Trim(words[i].text);
        return false;
      }
    }
    return true;
  }

  predicate IsRun(labels: seq<Option<Label>>, from: nat, end: nat)
  {
    from < end <= |labels| && forall k | from <= k < end :: labels[k] == labels[from]
  }

  lemma RunEndIs(labels: seq<Option<Label>>, from: nat, end: nat)
    requires IsRun(labels, from, end) && (end < |labels| ==> labels[end] != labels[from])
    ensures RunEnd(labels, from) == end
  {
    assert IsRun(labels, from, RunEnd(labels, from));
  }

  lemma PartsStep(text: string, words: seq<Word>, labels: seq<Option<Label>>, from: nat, end: nat)
    requires |labels| == |words| == |W.Tokens(text)| && IsRun(labels, from, end)
    requires end < |labels| ==> labels[end] != labels[from]
    ensures W.Tokens(text)[from].start <= W.Tokens(text)[end - 1].end
    ensures PartsFrom(text, words, labels, from) == [PartOf(text, words, labels, from, end - 1)] + PartsFrom(text, words, labels, end)
  {
    RunEndIs(labels, from, end);
    TokensInOrder(text, from, end - 1);
  }

  /** One part pushed. */
  method CutOne(text: string, words: seq<Word>, labels: seq<Option<Label>>, from: nat, end: nat, tokens: seq<W.Token>) returns (part: Part)
    requires |labels| == |words| == |W.Tokens(text)| && tokens == W.Tokens(text) && IsRun(labels, from, end)
    requires end < |labels| ==> labels[end] != labels[from]
    ensures PartsFrom(text, words, labels, from) == [part] + PartsFrom(text, words, labels, end)
  {
    PartsStep(text, words, labels, from, end);
    part := Part(labels[from], Span(words[from].span.start, words[end - 1].span.end),
                 text[tokens[from].start..tokens[end - 1].end], end - from);
  }

  /** The loop over the runs: a part is pushed each time the label changes, and at the end. */
  method CutRuns(text: string, words: seq<Word>, labels: seq<Option<Label>>) returns (parts: seq<Part>)
    requires words != [] && |labels| == |words| == |W.Tokens(text)|
    ensures parts == PartsFrom(text, words, labels, 0)
  {
    var tokens := W.Tokenize(text);
    parts := [];
    var from := 0;
    for i := 1 to |words| + 1
      invariant if i <= |words| then IsRun(labels, from, i) else from == |words|
      invariant from <= |words|
      invariant parts + PartsFrom(text, words, labels, from) == PartsFrom(text, words, labels, 0)
    {
      if i < |words| && labels[i] == labels[from] { continue; }
      var part := CutOne(text, words, labels, from, i, tokens);
      parts := parts + [part];
      from := i;
    }
  }

  method SplitByWords(s: Segment, turns: seq<Turn>) returns (split: Split)
    ensures split == SplitOf(s, turns)
  {
    if s.words.None? || s.words.value == [] {
      var r := RankLabels(turns, s.span);
      RankIsUnique(turns, s.span, r, RankOf(turns, s.span));
      return Whole(InternalChange(r));
    }
    var labels, changes := LabelWords(s.words.value, turns);
    if !changes { return Whole(false); }
    var same := Compare(s.text, s.words.value);
    if !same { return Whole(true); }
    var parts := CutRuns(s.text, s.words.value, labels);
    return Parts(parts);
  }

  // ---- Emitting --------------------------------------------------------------------------------------

  function Duration(s: Span): real { MaxReal(s.end - s.start, SHORTEST) }

  /** `emit`, given the ranking over the block's own span; its index is its place in the result. */
  function BlockOf(source: Segment, span: Span, text: string, wordCount: nat, unplaceable: bool, r: Rank): Block
  {
    var heard := r.winner.Some?;
    Block(source, 0, span, text, r.winner,
          heard && r.runnerUp / Duration(span) >= OVERLAP_THRESHOLD,
          unplaceable || (heard && 0 < wordCount < MIN_WORDS_FOR_FIRM_SPEAKER) || (heard && r.best / Duration(span) < FIRM_COVERAGE))
  }

  ghost function PartBlock(source: Segment, p: Part, turns: seq<Turn>): Block
  {
    BlockOf(source, p.span, p.text, p.wordCount, false, RankOf(turns, p.span))
  }

  ghost function WholeBlock(s: Segment, unplaceable: bool, turns: seq<Turn>): Block
  {
    BlockOf(s, s.span, s.text, 0, unplaceable, RankOf(turns, s.span))
  }

  /** The blocks of one segment. */
  ghost function SegmentBlocks(s: Segment, turns: seq<Turn>): (blocks: seq<Block>)
    ensures SplitOf(s, turns).Parts? ==> |blocks| == |SplitOf(s, turns).parts|
  {
    match SplitOf(s, turns)
    case Whole(unplaceable) => [WholeBlock(s, unplaceable, turns)]
    case Parts(parts) => seq(|parts|, i requires 0 <= i < |parts| => PartBlock(s, parts[i], turns))
  }

  /** The blocks of every segment. */
  ghost function BlockLists(segments: seq<Segment>, turns: seq<Turn>): (lists: seq<seq<Block>>)
    ensures |lists| == |segments|
  {
    seq(|segments|, i requires 0 <= i < |segments| => SegmentBlocks(segments[i], turns))
  }

  function Flatten(lists: seq<seq<Block>>): seq<Block> { if lists == [] then [] else lists[0] + Flatten(lists[1..]) }

  function Numbered(blocks: seq<Block>): (numbered: seq<Block>)
    ensures |numbered| == |blocks|
  {
    seq(|blocks|, i requires 0 <= i < |blocks| => blocks[i].(index := i))
  }

  /** Without a diarization nobody is named and nothing is renumbered. */
  function Unlabelled(segments: seq<Segment>): (blocks: seq<Block>)
    ensures |blocks| == |segments|
  {
    seq(|segments|, i requires 0 <= i < |segments| =>
      Block(segments[i], segments[i].index, segments[i].span, segments[i].text, None, false, false))
  }

  /** `alignSegments`, as a value. */
  ghost function Aligned(segments: seq<Segment>, turns: Option<seq<Turn>>): seq<Block>
  {
    if turns.None? || turns.value == [] then Unlabelled(segments)
    else Numbered(Flatten(BlockLists(segments, turns.value)))
  }

  method Emit(source: Segment, span: Span, text: string, wordCount: nat, unplaceable: bool, turns: seq<Turn>, index: int) returns (b: Block)
    ensures b == BlockOf(source, span, text, wordCount, unplaceable, RankOf(turns, span)).(index := index)
  {
    var r := RankLabels(turns, span);
    RankIsUnique(turns, span, r, RankOf(turns, span));
    b := BlockOf(source, span, text, wordCount, unplaceable, r).(index := index);
  }

  lemma NumberedNext(plain: seq<Block>, b: Block)
    ensures Numbered(plain + [b]) == Numbered(plain) + [b.(index := |plain|)]
  {
  }

  /** Blocks drafted one by one and pushed onto what was aligned before. */
  method EmitParts(s: Segment, parts: seq<Part>, turns: seq<Turn>, before: seq<Block>, ghost plain: seq<Block>, ghost blocks: seq<Block>)
    returns (aligned: seq<Block>)
    requires before == Numbered(plain)
    requires |blocks| == |parts| && forall i | 0 <= i < |parts| :: blocks[i] == PartBlock(s, parts[i], turns)
    ensures aligned == Numbered(plain + blocks)
  {
    aligned := before;
    assert plain + blocks[..0] == plain;
    for i := 0 to |parts|
      invariant aligned == Numbered(plain + blocks[..i])
    {
      var b := Emit(s, parts[i].span, parts[i].text, parts[i].wordCount, false, turns, |aligned|);
      NumberedNext(plain + blocks[..i], blocks[i]);
      assert plain + blocks[..i + 1] == plain + blocks[..i] + [blocks[i]];
      aligned := aligned + [b];
    }
    assert blocks[..|parts|] == blocks;
  }

  /** The blocks of one segment, pushed onto what was aligned before it. */
  method EmitSegment(s: Segment, turns: seq<Turn>, before: seq<Block>, ghost plain: seq<Block>, ghost blocks: seq<Block>)
    returns (aligned: seq<Block>)
    requires before == Numbered(plain) && blocks == SegmentBlocks(s, turns)
    ensures aligned == Numbered(plain + blocks)
  {
    var split := SplitByWords(s, turns);
    match split
    case Whole(unplaceable) =>
      var b := Emit(s, s.span, s.text, 0, unplaceable, turns, |before|);
      NumberedNext(plain, blocks[0]);
      aligned := before + [b];
    case Parts(parts) => aligned := EmitParts(s, parts, turns, before, plain, blocks);
  }

  lemma {:induction false} FlattenAppend(lists: seq<seq<Block>>, last: seq<Block>)
    ensures Flatten(lists + [last]) == Flatten(lists) + last
  {
    if lists == [] {
      assert lists + [last] == [last] && [last][1..] == [];
      assert Flatten([last]) == last + Flatten([]);
    } else {
      FlattenAppend(lists[1..], last);
      assert (lists + [last])[1..] == lists[1..] + [last] && (lists + [last])[0] == lists[0];
      Associative(lists[0], Flatten(lists[1..]), last);
    }
  }

  lemma FlattenNext(lists: seq<seq<Block>>, i: nat)
    requires i < |lists|
    ensures Flatten(lists[..i + 1]) == Flatten(lists[..i]) + lists[i]
  {
    assert lists[..i + 1] == lists[..i] + [lists[i]];
    FlattenAppend(lists[..i], lists[i]);
  }

  /** `alignSegments`: the blocks; module TalkShare has the shares it returns beside them. */
  method AlignSegments(segments: seq<Segment>, turns: Option<seq<Turn>>) returns (aligned: seq<Block>)
    ensures aligned == Aligned(segments, turns)
  {
    if turns.None? || turns.value == [] { return Unlabelled(segments); }
    aligned := [];
    ghost var lists := BlockLists(segments, turns.value);
    for i := 0 to |segments|
      invariant aligned == Numbered(Flatten(lists[..i]))
    {
      aligned := EmitSegment(segments[i], turns.value, aligned, Flatten(lists[..i]), lists[i]);
      FlattenNext(lists, i);
    }
    assert lists[..|segments|] == lists;
  }

  // ---- Nothing is lost -----------------------------------------------------------------------------------

  /** The words of the blocks, in order. */
  function BlockWords(blocks: seq<Block>): seq<string>
  {
    if blocks == [] then [] else W.WordsOf(blocks[0].text) + BlockWords(blocks[1..])
  }

  function SegmentWords(segments: seq<Segment>): seq<string>
  {
    if segments == [] then [] else W.WordsOf(segments[0].text) + SegmentWords(segments[1..])
  }

  lemma {:induction false} BlockWordsAppend(a: seq<Block>, b: seq<Block>)
    ensures BlockWords(a + b) == BlockWords(a) + BlockWords(b)
  {
    if a == [] {
      assert a + b == b;
    } else {
      BlockWordsAppend(a[1..], b);
      assert (a + b)[1..] == a[1..] + b && (a + b)[0] == a[0];
      Associative(W.WordsOf(a[0].text), BlockWords(a[1..]), BlockWords(b));
    }
  }

  lemma {:induction false} NumberingKeepsWords(a: seq<Block>, b: seq<Block>)
    requires |a| == |b| && forall i | 0 <= i < |a| :: a[i].text == b[i].text
    ensures BlockWords(a) == BlockWords(b)
  {
    if a != [] { NumberingKeepsWords(a[1..], b[1..]); }
  }

  /** What the parts of a segment say together. */
  function PartWords(parts: seq<Part>): seq<string>
  {
    if parts == [] then [] else W.WordsOf(parts[0].text) + PartWords(parts[1..])
  }

  lemma SlicesJoin(words: seq<string>, from: nat, end: nat)
    requires from <= end <= |words|
    ensures words[from..] == words[from..end] + words[end..]
  {
  }

  lemma {:induction false} PartsKeepWords(text: string, words: seq<Word>, labels: seq<Option<Label>>, from: nat)
    requires |labels| == |words| == |W.Tokens(text)| && from <= |words|
    ensures PartWords(PartsFrom(text, words, labels, from)) == W.WordsOf(text)[from..]
    decreases |words| - from
  {
    if from < |words| {
      var end := RunEnd(labels, from);
      PartsStep(text, words, labels, from, end);
      PartsKeepWords(text, words, labels, end);
      W.SliceKeepsWords(text, from, end - 1);
      SlicesJoin(W.WordsOf(text), from, end);
    }
  }

  lemma {:induction false} PartsAndBlocksAgree(parts: seq<Part>, blocks: seq<Block>)
    requires |parts| == |blocks| && forall i | 0 <= i < |parts| :: parts[i].text == blocks[i].text
    ensures PartWords(parts) == BlockWords(blocks)
  {
    if parts != [] { PartsAndBlocksAgree(parts[1..], blocks[1..]); }
  }

  lemma SegmentKeepsWords(s: Segment, turns: seq<Turn>)
    ensures BlockWords(SegmentBlocks(s, turns)) == W.WordsOf(s.text)
  {
    if SplitOf(s, turns).Parts? {
      SplitKeepsWords(s, turns);
      PartsAndBlocksAgree(SplitOf(s, turns).parts, SegmentBlocks(s, turns));
    } else {
      OneBlockWords(WholeBlock(s, SplitOf(s, turns).unplaceable, turns));
    }
  }

  lemma SplitKeepsWords(s: Segment, turns: seq<Turn>)
    requires SplitOf(s, turns).Parts?
    ensures PartWords(SplitOf(s, turns).parts) == W.WordsOf(s.text)
  {
    PartsKeepWords(s.text, s.words.value, LabelsOf(s.words.value, turns), 0);
    assert W.WordsOf(s.text)[0..] == W.WordsOf(s.text);
  }

  lemma OneBlockWords(b: Block)
    ensures BlockWords([b]) == W.WordsOf(b.text)
  {
    assert [b][1..] == [];
  }

  lemma {:induction false} FlattenKeepsWords(lists: seq<seq<Block>>, segments: seq<Segment>)
    requires |lists| == |segments| && forall i | 0 <= i < |lists| :: BlockWords(lists[i]) == W.WordsOf(segments[i].text)
    ensures BlockWords(Flatten(lists)) == SegmentWords(segments)
  {
    if lists != [] {
      FlattenKeepsWords(lists[1..], segments[1..]);
      BlockWordsAppend(lists[0], Flatten(lists[1..]));
    }
  }

  lemma {:induction false} UnlabelledKeepsWords(segments: seq<Segment>)
    ensures BlockWords(Unlabelled(segments)) == SegmentWords(segments)
  {
    if segments != [] {
      UnlabelledKeepsWords(segments[1..]);
      assert Unlabelled(segments)[1..] == Unlabelled(segments[1..]);
    }
  }

  /** Splitting loses nothing and invents nothing: the words of the blocks are the words of the segments, in order. */
  lemma AlignmentKeepsWords(segments: seq<Segment>, turns: Option<seq<Turn>>)
    ensures BlockWords(Aligned(segments, turns)) == SegmentWords(segments)
  {
    if turns.None? || turns.value == [] {
      UnlabelledKeepsWords(segments);
    } else {
      var lists := BlockLists(segments, turns.value);
      forall i | 0 <= i < |lists| ensures BlockWords(lists[i]) == W.WordsOf(segments[i].text) {
        SegmentKeepsWords(segments[i], turns.value);
      }
      FlattenKeepsWords(lists, segments);
      NumberingKeepsWords(Numbered(Flatten(lists)), Flatten(lists));
    }
  }
}