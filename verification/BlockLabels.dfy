/**
 When a block is emitted with the label of its words: exactly when that label is heard most over
 the words and the gaps between them, counting an overlap of two words once.
 */
module BlockLabels {
  import opened Common
  import opened Ranking
  import opened Transcript
  import opened Alignment
  import opened BlockTimes

  /** The seconds of a label from `a` to `b`, negative if `b` is earlier. */
  function Signed(turns: seq<Turn>, a: real, b: real, x: Label): real
  {
    if a <= b then Seconds(turns, Span(a, b), x) else -Seconds(turns, Span(b, a), x)
  }

  /** However three instants lie, the seconds from the first to the last are those by way of the other one. */
  lemma SignedAdds(turns: seq<Turn>, a: real, b: real, c: real, x: Label)
    requires TurnsOk(turns)
    ensures Signed(turns, a, c, x) == Signed(turns, a, b, x) + Signed(turns, b, c, x)
  {
    if a <= b && b <= c { SecondsAdd(turns, a, b, c, x); }
    if a <= c && c <= b { SecondsAdd(turns, a, c, b, x); }
    if b <= a && a <= c { SecondsAdd(turns, b, a, c, x); }
    if b <= c && c <= a { SecondsAdd(turns, b, c, a, x); }
    if c <= a && a <= b { SecondsAdd(turns, c, a, b, x); }
    if c <= b && b <= a { SecondsAdd(turns, c, b, a, x); }
  }

  predicate WordsOrdered(words: seq<Word>) { forall k | 0 <= k < |words| :: words[k].span.start <= words[k].span.end }

  /** What is heard of a label in the words `from` to `last` and in between. */
  function Heard(words: seq<Word>, turns: seq<Turn>, from: nat, last: nat, x: Label): real
    requires from <= last < |words|
    decreases last
  {
    if from == last then Seconds(turns, words[last].span, x)
    else
      Heard(words, turns, from, last - 1, x)
      + Signed(turns, words[last - 1].span.end, words[last].span.start, x) + Seconds(turns, words[last].span, x)
  }

  lemma {:induction false} StretchIsHeard(words: seq<Word>, turns: seq<Turn>, from: nat, last: nat, x: Label)
    requires TurnsOk(turns) && WordsOrdered(words) && from <= last < |words|
    ensures Signed(turns, words[from].span.start, words[last].span.end, x) == Heard(words, turns, from, last, x)
    decreases last
  {
    assert words[last].span == Span(words[last].span.start, words[last].span.end);
    if from < last {
      StretchIsHeard(words, turns, from, last - 1, x);
      SignedAdds(turns, words[from].span.start, words[last - 1].span.end, words[last].span.start, x);
      SignedAdds(turns, words[from].span.start, words[last].span.start, words[last].span.end, x);
    }
  }

  lemma BackwardIsUnheard(turns: seq<Turn>, s: Span, x: Label)
    requires s.end <= s.start
    ensures Seconds(turns, s, x) == 0.0
  {
    forall j | 0 <= j < |turns| ensures Overlap(s, turns[j]) == 0.0 { EmptyOverlap(s, turns[j]); }
    NobodyIsHeard(turns, s, x);
  }

  /** Over the block's own span a label has what is heard of it, or nothing when that is negative. */
  lemma SpanIsHeard(words: seq<Word>, turns: seq<Turn>, from: nat, last: nat, x: Label)
    requires TurnsOk(turns) && WordsOrdered(words) && from <= last < |words|
    ensures Seconds(turns, Stretch(words, from, last), x) == MaxReal(0.0, Heard(words, turns, from, last, x))
    ensures Stretch(words, from, last).start <= Stretch(words, from, last).end ==> Heard(words, turns, from, last, x) >= 0.0
    ensures Stretch(words, from, last).end < Stretch(words, from, last).start ==> Heard(words, turns, from, last, x) <= 0.0
  {
    var s := Stretch(words, from, last);
    StretchIsHeard(words, turns, from, last, x);
    SecondsNonNegative(turns, s, x);
    SecondsNonNegative(turns, Span(s.end, s.start), x);
    if s.end <= s.start { BackwardIsUnheard(turns, s, x); }
  }

  /** `who` is heard most in the words and in between, or nobody is heard at all. */
  ghost predicate HeardMost(words: seq<Word>, turns: seq<Turn>, from: nat, last: nat, who: Option<Label>)
    requires from <= last < |words|
  {
    match who
    case None => forall x :: Heard(words, turns, from, last, x) <= 0.0
    case Some(l) =>
      && Heard(words, turns, from, last, l) > 0.0
      && forall x | x != l ::
           Heard(words, turns, from, last, x) < Heard(words, turns, from, last, l)
           || (Heard(words, turns, from, last, x) == Heard(words, turns, from, last, l) && l < x)
  }

  lemma WinnerIff(turns: seq<Turn>, s: Span, l: Label)
    ensures RankOf(turns, s).winner == Some(l) <==> Seconds(turns, s, l) > 0.0 && forall x | x != l :: Beats(turns, s, l, x)
  {
    var r := RankOf(turns, s);
    if r.winner.Some? && r.winner.value != l {
      assert Beats(turns, s, r.winner.value, l) && !Beats(turns, s, l, r.winner.value);
    }
  }

  lemma StretchWinnerIff(words: seq<Word>, turns: seq<Turn>, from: nat, last: nat, who: Option<Label>)
    requires TurnsOk(turns) && WordsOrdered(words) && from <= last < |words|
    ensures RankOf(turns, Stretch(words, from, last)).winner == who <==> HeardMost(words, turns, from, last, who)
  {
    var s := Stretch(words, from, last);
    forall x ensures Seconds(turns, s, x) == MaxReal(0.0, Heard(words, turns, from, last, x))
                     && (s.start <= s.end ==> Heard(words, turns, from, last, x) >= 0.0)
                     && (s.end < s.start ==> Heard(words, turns, from, last, x) <= 0.0)
    {
      SpanIsHeard(words, turns, from, last, x);
    }
    match who
    case Some(l) => WinnerIff(turns, s, l);
    case None => NobodyWinsIff(turns, s);
  }

  lemma NobodyWinsIff(turns: seq<Turn>, s: Span)
    ensures RankOf(turns, s).winner.None? <==> forall x :: Seconds(turns, s, x) <= 0.0
  {
    var r := RankOf(turns, s);
    if r.winner.Some? { assert Seconds(turns, s, r.winner.value) > 0.0; }
  }

  /** A block is emitted with its words' label exactly when that label is heard most over the words and the gaps between them. */
  lemma BlockKeepsLabelIff(s: Segment, turns: seq<Turn>, i: nat) returns (from: nat, last: nat)
    requires SegmentSound(s) && TurnsOk(turns) && SplitOf(s, turns).Parts? && i < |SplitOf(s, turns).parts|
    ensures MaximalRun(LabelsOf(s.words.value, turns), from, last)
    ensures SplitOf(s, turns).parts[i].who == LabelsOf(s.words.value, turns)[from]
    ensures SegmentBlocks(s, turns)[i].span == Stretch(s.words.value, from, last)
    ensures SegmentBlocks(s, turns)[i].speaker == SplitOf(s, turns).parts[i].who
            <==> HeardMost(s.words.value, turns, from, last, LabelsOf(s.words.value, turns)[from])
  {
    from, last := BlockIsRun(s, turns, i);
    StretchWinnerIff(s.words.value, turns, from, last, LabelsOf(s.words.value, turns)[from]);
  }
}
