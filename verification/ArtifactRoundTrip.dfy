/**
 Reading back what was written: an artifact written out from segments or turns that are in order
 is accepted, and what is read from it is exactly what was written.
 */
module ArtifactRoundTrip {
  import opened Common
  import opened Ranking
  import opened Transcript
  import W = Words

  // ---- Transcripts ------------------------------------------------------------------------------

  function WrittenWord(w: Word): WordRecord { WordRecord(Number(w.span.start), Number(w.span.end), Text(w.text)) }

  function WrittenWords(words: Option<seq<Word>>): WordList
  {
    if words.None? then NoWords else List(seq(|words.value|, k requires 0 <= k < |words.value| => WrittenWord(words.value[k])))
  }

  function Written(s: Segment): SegmentRecord
  {
    SegmentRecord(Number(s.index as real), Number(s.span.start), Number(s.span.end), Text(s.text),
                  if s.confidence.Some? then Number(s.confidence.value) else Missing, WrittenWords(s.words))
  }

  function WrittenSegments(segments: seq<Segment>): (rows: seq<SegmentRecord>)
    ensures |rows| == |segments|
  {
    seq(|segments|, k requires 0 <= k < |segments| => Written(segments[k]))
  }

  /** The head of a transcript of this length. */
  function WrittenHead(duration: real, model: string, count: nat): TranscriptHead
  {
    TranscriptHead(Text("meetings.transcript"), Number(2.0), Number(duration), Text(model), Number(count as real))
  }

  /** A segment that says what it should: times and words in order, a confidence between 0 and 1. */
  predicate Proper(s: Segment)
  {
    SegmentSound(s) && s.index >= 0 && (s.confidence.Some? ==> 0.0 <= s.confidence.value <= 1.0)
  }

  lemma WordsComeBack(words: seq<Word>, within: Span)
    requires WordsInside(words, within)
    ensures WordListOk(WrittenWords(Some(words)), within) && WordListOf(WrittenWords(Some(words)), within) == Some(words)
  {
    var entries := WrittenWords(Some(words)).entries;
    assert forall k | 0 <= k < |words| :: entries[k] == WrittenWord(words[k]) && WordOf(entries[k]) == words[k];
    assert WordsFrom(entries) == words;
  }

  lemma SegmentComesBack(s: Segment)
    requires Proper(s)
    ensures SegmentOk(Written(s)) && SegmentOf(Written(s)) == s
  {
    if s.words.Some? { WordsComeBack(s.words.value, s.span); }
    assert (s.index as real).Floor == s.index;
  }

  /** Every transcript of proper segments, numbered from 0, is accepted and read back as it was. */
  lemma TranscriptComesBack(segments: seq<Segment>, duration: real, model: string)
    requires duration >= 0.0 && forall k | 0 <= k < |segments| :: Proper(segments[k]) && segments[k].index == k
    ensures TranscriptOk(WrittenHead(duration, model, |segments|), WrittenSegments(segments))
    ensures SegmentsOf(WrittenSegments(segments)) == segments
  {
    forall k | 0 <= k < |segments| ensures SegmentOk(WrittenSegments(segments)[k]) && SegmentOf(WrittenSegments(segments)[k]) == segments[k] {
      SegmentComesBack(segments[k]);
    }
  }

  /** And nothing else is ever read: what the parser accepts is proper and numbered from 0. */
  lemma OnlyProperIsRead(head: TranscriptHead, rows: seq<SegmentRecord>, k: nat)
    requires TranscriptOk(head, rows) && k < |rows|
    ensures Proper(SegmentsOf(rows)[k]) && SegmentsOf(rows)[k].index == k
  {
    AcceptedIsSound(head, rows, k);
    assert SegmentOk(rows[k]);
  }

  /** Writing out what was read loses nothing: it is accepted again, and reads the same. */
  lemma ReadingTwiceIsReadingOnce(head: TranscriptHead, rows: seq<SegmentRecord>)
    requires TranscriptOk(head, rows)
    ensures TranscriptOk(head, WrittenSegments(SegmentsOf(rows)))
    ensures SegmentsOf(WrittenSegments(SegmentsOf(rows))) == SegmentsOf(rows)
  {
    var segments := SegmentsOf(rows);
    forall k | 0 <= k < |segments| ensures Proper(segments[k]) && segments[k].index == k { OnlyProperIsRead(head, rows, k); }
    TranscriptComesBack(segments, 0.0, "");
  }

  // ---- Diarizations --------------------------------------------------------------------------------

  datatype NamedTurn = NamedTurn(start: real, end: real, speaker: string)

  predicate ProperTurn(t: NamedTurn) { 0.0 <= t.start <= t.end && t.speaker != "" && W.Trim(t.speaker) == t.speaker }

  function WrittenTurns(turns: seq<NamedTurn>): (rows: seq<TurnRecord>)
    ensures |rows| == |turns|
  {
    seq(|turns|, k requires 0 <= k < |turns| => TurnRecord(Number(turns[k].start), Number(turns[k].end), Text(turns[k].speaker)))
  }

  /** Every diarization of proper turns, from either back end, is accepted and read back as it was. */
  lemma DiarizationComesBack(turns: seq<NamedTurn>, backend: string, place: string -> Label)
    requires (backend == "wespeaker" || backend == "pyannote_full") && forall k | 0 <= k < |turns| :: ProperTurn(turns[k])
    ensures var head := DiarizationHead(Text("meetings.diarization"), Number(1.0), Text(backend), Number(|turns| as real));
            DiarizationOk(head, WrittenTurns(turns))
    ensures forall k | 0 <= k < |turns| :: TurnsFrom(WrittenTurns(turns), place)[k] == Turn(turns[k].start, turns[k].end, place(turns[k].speaker))
  {
    forall k | 0 <= k < |turns| ensures TurnOk(WrittenTurns(turns)[k]) { assert ProperTurn(turns[k]); }
  }
}
