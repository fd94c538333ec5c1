/**
 The artifacts a worker uploads, from their decoded records: what is accepted, what it
 becomes, and with which code anything else is refused.
 */
module Transcript {
  import opened Common
  import opened Ranking
  import Words

  /** A field of a decoded record. */
  datatype Value = Missing | Null | Number(n: real) | Text(s: string) | Other

  datatype WordRecord = NotAnObject | WordRecord(start: Value, end: Value, word: Value)

  datatype WordList = NoWords | NotAList | List(entries: seq<WordRecord>)

  datatype SegmentRecord = SegmentRecord(i: Value, start: Value, end: Value, text: Value, confidence: Value, words: WordList)

  datatype TranscriptHead = TranscriptHead(schema: Value, schemaVersion: Value, duration: Value, model: Value, segmentCount: Value)

  datatype TurnRecord = TurnRecord(start: Value, end: Value, speaker: Value)

  datatype DiarizationHead = DiarizationHead(schema: Value, schemaVersion: Value, backend: Value, turnCount: Value)

  datatype ArtifactError = ArtifactMalformed | UnsupportedSchemaVersion

  datatype Result<+T> = Ok(value: T) | Err(code: ArtifactError)

  datatype Word = Word(span: Span, text: string)

  /** `words` is absent, never empty. */
  datatype Segment = Segment(index: int, span: Span, text: string, confidence: Option<real>, words: Option<seq<Word>>)

  const TRANSCRIPT_SCHEMA := "meetings.transcript"
  const DIARIZATION_SCHEMA := "meetings.diarization"

  /** A millisecond: both sides round to three decimals. */
  const TOLERANCE: real := 0.001

  // ---- Words ---------------------------------------------------------------------------------

  predicate WordShape(w: WordRecord) { w.WordRecord? && w.start.Number? && w.end.Number? && w.word.Text? }

  predicate WordFits(w: WordRecord, within: Span)
    requires WordShape(w)
  {
    w.start.n <= w.end.n && within.start - TOLERANCE <= w.start.n && w.end.n <= within.end + TOLERANCE
  }

  /** Well formed, inside the segment and in order, to within the tolerance. */
  predicate WordsFit(entries: seq<WordRecord>, within: Span)
  {
    && (forall k | 0 <= k < |entries| :: WordShape(entries[k]) && WordFits(entries[k], within))
    && (forall k | 0 < k < |entries| :: entries[k - 1].end.n - TOLERANCE <= entries[k].start.n)
  }

  function WordOf(w: WordRecord): Word
    requires WordShape(w)
  {
    Word(Span(w.start.n, w.end.n), w.word.s)
  }

  function WordsFrom(entries: seq<WordRecord>): (words: seq<Word>)
    requires forall k | 0 <= k < |entries| :: WordShape(entries[k])
    ensures |words| == |entries|
  {
    seq(|entries|, k requires 0 <= k < |entries| => WordOf(entries[k]))
  }

  predicate WordListOk(field: WordList, within: Span) { field.NoWords? || (field.List? && WordsFit(field.entries, within)) }

  function WordListOf(field: WordList, within: Span): Option<seq<Word>>
    requires WordListOk(field, within)
  {
    if field.NoWords? || field.entries == [] then None else Some(WordsFrom(field.entries))
  }

  /** `parseWords`. */
  method ParseWords(field: WordList, within: Span) returns (r: Result<Option<seq<Word>>>)
    ensures r == if WordListOk(field, within) then Ok(WordListOf(field, within)) else Err(ArtifactMalformed)
  {
    if field.NoWords? { return Ok(None); }
    if field.NotAList? { return Err(ArtifactMalformed); }
    if field.entries == [] { return Ok(None); }
    var words: seq<Word> := [];
    var previousEnd: Option<real> := None;
    for k := 0 to |field.entries|
      invariant WordsFit(field.entries[..k], within) && words == WordsFrom(field.entries[..k])
      invariant previousEnd == if k == 0 then None else Some(field.entries[k - 1].end.n)
    {
      var w := field.entries[k];
      if !WordShape(w) { return Err(ArtifactMalformed); }
      if w.end.n < w.start.n { return Err(ArtifactMalformed); }
      if w.start.n < within.start - TOLERANCE || w.end.n > within.end + TOLERANCE { return Err(ArtifactMalformed); }
      if previousEnd.Some? && w.start.n < previousEnd.value - TOLERANCE { return Err(ArtifactMalformed); }
      previousEnd := Some(w.end.n);
      words := words + [WordOf(w)];
      assert field.entries[..k + 1] == field.entries[..k] + [w];
    }
    assert field.entries[..|field.entries|] == field.entries;
    return Ok(Some(words));
  }

  // ---- Segments --------------------------------------------------------------------------------

  predicate IsIndex(v: Value) { v.Number? && v.n.Floor as real == v.n && v.n >= 0.0 }

  predicate ConfidenceOk(v: Value) { v.Missing? || v.Null? || (v.Number? && 0.0 <= v.n <= 1.0) }

  predicate SegmentOk(row: SegmentRecord)
  {
    && IsIndex(row.i) && row.start.Number? && row.end.Number? && 0.0 <= row.start.n <= row.end.n
    && ConfidenceOk(row.confidence) && row.text.Text?
    && WordListOk(row.words, Span(row.start.n, row.end.n))
  }

  function SegmentOf(row: SegmentRecord): Segment
    requires SegmentOk(row)
  {
    Segment(row.i.n.Floor, Span(row.start.n, row.end.n), row.text.s,
            if row.confidence.Number? then Some(row.confidence.n) else None,
            WordListOf(row.words, Span(row.start.n, row.end.n)))
  }

  method ParseSegment(row: SegmentRecord) returns (r: Result<Segment>)
    ensures r == if SegmentOk(row) then Ok(SegmentOf(row)) else Err(ArtifactMalformed)
  {
    if !row.i.Number? || !row.start.Number? || !row.end.Number? { return Err(ArtifactMalformed); }
    if row.i.n.Floor as real != row.i.n || row.i.n < 0.0 { return Err(ArtifactMalformed); }
    if row.start.n < 0.0 { return Err(ArtifactMalformed); }
    if row.end.n < row.start.n { return Err(ArtifactMalformed); }
    var confidence: Option<real> := None;
    if !row.confidence.Missing? && !row.confidence.Null? {
      if !row.confidence.Number? || row.confidence.n < 0.0 || row.confidence.n > 1.0 { return Err(ArtifactMalformed); }
      confidence := Some(row.confidence.n);
    }
    if !row.text.Text? { return Err(ArtifactMalformed); }
    var words := ParseWords(row.words, Span(row.start.n, row.end.n));
    if words.Err? { return Err(words.code); }
    return Ok(Segment(row.i.n.Floor, Span(row.start.n, row.end.n), row.text.s, confidence, words.value));
  }

  predicate IsSchema(v: Value, schema: string) { v == Text(schema) }

  predicate TranscriptHeadOk(head: TranscriptHead)
  {
    && IsSchema(head.schema, TRANSCRIPT_SCHEMA) && (head.schemaVersion == Number(1.0) || head.schemaVersion == Number(2.0))
    && head.duration.Number? && head.duration.n >= 0.0 && head.model.Text? && head.segmentCount.Number?
  }

  /** An artifact that is read: a good head, good lines, dense indices, and as many lines as declared. */
  predicate TranscriptOk(head: TranscriptHead, rows: seq<SegmentRecord>)
  {
    && TranscriptHeadOk(head)
    && (forall k | 0 <= k < |rows| :: SegmentOk(rows[k]) && rows[k].i.n == k as real)
    && head.segmentCount.n == |rows| as real
  }

  function SegmentsOf(rows: seq<SegmentRecord>): (segments: seq<Segment>)
    requires forall k | 0 <= k < |rows| :: SegmentOk(rows[k])
    ensures |segments| == |rows|
  {
    seq(|rows|, k requires 0 <= k < |rows| => SegmentOf(rows[k]))
  }

  /** Only a transcript of a version not known is refused as such; every other fault is a malformed artifact. */
  predicate UnknownVersion(schema: Value, version: Value, expected: string, known: set<real>)
  {
    IsSchema(schema, expected) && version.Number? && version.n !in known
  }

  /** `parseTranscriptArtifact`, from the decoded lines. */
  method ParseTranscript(head: TranscriptHead, rows: seq<SegmentRecord>) returns (r: Result<seq<Segment>>)
    ensures r.Ok? <==> TranscriptOk(head, rows)
    ensures r.Ok? ==> r.value == SegmentsOf(rows)
    ensures r.Err? ==> (r.code.UnsupportedSchemaVersion? <==> UnknownVersion(head.schema, head.schemaVersion, TRANSCRIPT_SCHEMA, {1.0, 2.0}))
  {
    if !IsSchema(head.schema, TRANSCRIPT_SCHEMA) { return Err(ArtifactMalformed); }
    if !head.schemaVersion.Number? { return Err(ArtifactMalformed); }
    if head.schemaVersion.n != 1.0 && head.schemaVersion.n != 2.0 { return Err(UnsupportedSchemaVersion); }
    if !head.duration.Number? || !head.model.Text? || !head.segmentCount.Number? { return Err(ArtifactMalformed); }
    if head.duration.n < 0.0 { return Err(ArtifactMalformed); }
    var segments: seq<Segment> := [];
    for k := 0 to |rows|
      invariant forall j | 0 <= j < k :: SegmentOk(rows[j])
      invariant segments == SegmentsOf(rows[..k])
    {
      var parsed := ParseSegment(rows[k]);
      if parsed.Err? { return Err(parsed.code); }
      segments := segments + [parsed.value];
      assert rows[..k + 1] == rows[..k] + [rows[k]];
    }
    assert rows[..|rows|] == rows;
    for k := 0 to |segments|
      invariant forall j | 0 <= j < k :: rows[j].i.n == j as real
    {
      if segments[k].index != k { return Err(ArtifactMalformed); }
      assert segments[k] == SegmentOf(rows[k]);
    }
    if head.segmentCount.n != |segments| as real { return Err(ArtifactMalformed); }
    return Ok(segments);
  }

  // ---- What an accepted transcript promises --------------------------------------------------------

  /** The words of a segment that came through the parser. */
  predicate WordsInside(words: seq<Word>, within: Span)
  {
    && words != []
    && (forall k | 0 <= k < |words| ::
          words[k].span.start <= words[k].span.end
          && within.start - 0.001 <= words[k].span.start && words[k].span.end <= within.end + 0.001)
    && (forall k | 0 < k < |words| :: words[k - 1].span.end - 0.001 <= words[k].span.start)
  }

  predicate SegmentSound(s: Segment)
  {
    0.0 <= s.span.start <= s.span.end && (s.words.Some? ==> WordsInside(s.words.value, s.span))
  }

  lemma AcceptedIsSound(head: TranscriptHead, rows: seq<SegmentRecord>, k: nat)
    requires TranscriptOk(head, rows) && k < |rows|
    ensures SegmentsOf(rows)[k].index == k && SegmentSound(SegmentsOf(rows)[k])
  {
    assert SegmentOk(rows[k]);
  }

  // ---- Diarization -----------------------------------------------------------------------------------

  predicate TurnOk(row: TurnRecord)
  {
    row.start.Number? && row.end.Number? && 0.0 <= row.start.n <= row.end.n
    && row.speaker.Text? && Words.Trim(row.speaker.s) != ""
  }

  function TurnOf(row: TurnRecord, place: string -> Label): Turn
    requires TurnOk(row)
  {
    Turn(row.start.n, row.end.n, place(Words.Trim(row.speaker.s)))
  }

  predicate DiarizationOk(head: DiarizationHead, rows: seq<TurnRecord>)
  {
    && IsSchema(head.schema, DIARIZATION_SCHEMA) && head.schemaVersion == Number(1.0)
    && (head.backend == Text("wespeaker") || head.backend == Text("pyannote_full"))
    && (forall k | 0 <= k < |rows| :: TurnOk(rows[k]))
    && head.turnCount == Number(|rows| as real)
  }

  function TurnsFrom(rows: seq<TurnRecord>, place: string -> Label): (turns: seq<Turn>)
    requires forall k | 0 <= k < |rows| :: TurnOk(rows[k])
    ensures |turns| == |rows|
  {
    seq(|rows|, k requires 0 <= k < |rows| => TurnOf(rows[k], place))
  }

  lemma AcceptedTurnsAreOk(head: DiarizationHead, rows: seq<TurnRecord>, place: string -> Label)
    requires DiarizationOk(head, rows)
    ensures TurnsOk(TurnsFrom(rows, place))
  {
    forall k | 0 <= k < |rows| ensures TurnsFrom(rows, place)[k].start <= TurnsFrom(rows, place)[k].end { assert TurnOk(rows[k]); }
  }

  /** `parseDiarizationArtifact`; `place` is a speaker's place in the collation order. */
  method ParseDiarization(head: DiarizationHead, rows: seq<TurnRecord>, place: string -> Label) returns (r: Result<seq<Turn>>)
    ensures r.Ok? <==> DiarizationOk(head, rows)
    ensures r.Ok? ==> r.value == TurnsFrom(rows, place)
    ensures r.Err? ==> (r.code.UnsupportedSchemaVersion? <==> UnknownVersion(head.schema, head.schemaVersion, DIARIZATION_SCHEMA, {1.0}))
  {
    if !IsSchema(head.schema, DIARIZATION_SCHEMA) { return Err(ArtifactMalformed); }
    if !head.schemaVersion.Number? { return Err(ArtifactMalformed); }
    if head.schemaVersion.n != 1.0 { return Err(UnsupportedSchemaVersion); }
    if head.backend != Text("wespeaker") && head.backend != Text("pyannote_full") { return Err(ArtifactMalformed); }
    var turns: seq<Turn> := [];
    for k := 0 to |rows|
      invariant forall j | 0 <= j < k :: TurnOk(rows[j])
      invariant turns == TurnsFrom(rows[..k], place)
    {
      var row := rows[k];
      if !row.start.Number? || !row.end.Number? { return Err(ArtifactMalformed); }
      if row.start.n < 0.0 || row.end.n < row.start.n { return Err(ArtifactMalformed); }
      if !row.speaker.Text? || Words.Trim(row.speaker.s) == "" { return Err(ArtifactMalformed); }
      turns := turns + [TurnOf(row, place)];
      assert rows[..k + 1] == rows[..k] + [row];
    }
    assert rows[..|rows|] == rows;
    if head.turnCount != Number(|turns| as real) { return Err(ArtifactMalformed); }
    return Ok(turns);
  }
}
