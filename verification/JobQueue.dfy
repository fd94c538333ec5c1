/**
 Runs, their jobs, derived media and transcript versions: the tables of a meeting that a
 worker's progress moves. Each function here is the part of a transaction that touches them.
 */
module JobQueue {
  import opened Common
  import opened JobRows
  import U = UploadRows

  datatype Outcome = RunSucceeded | RunPartial | RunFailed | RunCancelled

  /** `meeting_processing_runs`. `diarize` is that flag of `requested_options`, if present. */
  datatype Run = Run(meeting: Id, diarize: Option<bool>, outcome: Option<Outcome>)

  /** What ffprobe measured of the normalised audio. */
  datatype Probe = Probe(duration: Option<real>, sampleRate: nat, channels: nat, codec: string)

  /** A derived row of `meeting_media`, under the upload whose storage key it carries. */
  datatype Media = Media(content: U.Digested, probe: Probe, live: bool)

  /** A parsed artifact, by an identifier; module Alignment says what one contains. */
  type Document = Id

  /** `meeting_transcript_versions`: `speakers` is present exactly when a diarization was aligned. */
  datatype Version = Version(transcript: Document, speakers: Option<Document>)

  datatype Queue = Queue(
    runs: map<Id, Run>,
    jobs: map<JobId, Job>,
    media: map<U.UploadId, Media>,
    versions: map<Id, Version>)

  /** Foreign keys among the four tables. */
  predicate Linked(q: Queue)
  {
    && (forall j | j in q.jobs :: j.run in q.runs)
    && (forall u | u in q.media :: u.job in q.jobs)
    && (forall r | r in q.versions :: r in q.runs)
  }

  predicate Active(q: Queue, m: Id, r: Id)
  {
    r in q.runs && q.runs[r].meeting == m && q.runs[r].outcome.None?
  }

  /** `runs_one_active_per_meeting_idx`. */
  ghost predicate OneActiveRun(q: Queue)
  {
    forall m, r, p :: Active(q, m, r) && Active(q, m, p) ==> r == p
  }

  /** `getActiveRun`. */
  ghost function ActiveRun(q: Queue, m: Id): (r: Option<Id>)
    ensures r.Some? ==> Active(q, m, r.value)
    ensures r.None? ==> forall p :: !Active(q, m, p)
  {
    if exists p :: Active(q, m, p) then (var p :| Active(q, m, p); Some(p)) else None
  }

  function PutJob(q: Queue, id: JobId, j: Job): (t: Queue)
    requires Linked(q) && id.run in q.runs
    ensures Linked(t)
  {
    q.(jobs := q.jobs[id := j])
  }

  /** `createJob`: ON CONFLICT (run_id, stage) DO NOTHING. */
  function Enqueue(q: Queue, r: Id, stage: Stage, now: int): (t: Queue)
    requires Linked(q) && r in q.runs
    ensures Linked(t)
  {
    var id := JobId(r, stage);
    PutJob(q, id, if id in q.jobs then q.jobs[id] else Fresh(now))
  }

  /** A new run with its first job. */
  function OpenRun(q: Queue, m: Id, r: Id, diarize: Option<bool>, now: int): (t: Queue)
    requires Linked(q) && r !in q.runs
    ensures Linked(t)
  {
    Enqueue(q.(runs := q.runs[r := Run(m, diarize, None)]), r, Normalize, now)
  }

  /** `finishRun`: the first outcome stays. */
  function Finish(q: Queue, r: Id, outcome: Outcome): (t: Queue)
    requires Linked(q) && r in q.runs
    ensures Linked(t)
  {
    var run := q.runs[r];
    q.(runs := q.runs[r := if run.outcome.Some? then run else run.(outcome := Some(outcome))])
  }

  datatype DiarizationOutcome = Aligned(speakers: Document) | NotAsked | GaveUp(code: string)

  /** `ingestTranscriptVersion` and `finishRun`; `usable` says whether a verified transcript exists. */
  function Ingest(q: Queue, r: Id, how: DiarizationOutcome, transcript: Document, usable: bool): (t: Queue)
    requires Linked(q) && r in q.runs
    ensures Linked(t)
  {
    if !usable then Finish(q, r, RunFailed)
    else
      var version := Version(transcript, if how.Aligned? then Some(how.speakers) else None);
      Finish(q.(versions := q.versions[r := if r in q.versions then q.versions[r] else version]),
             r, if how.GaveUp? then RunPartial else RunSucceeded)
  }

  /** `resolveTerminalFailure` of the job `id`, whose row is already `failed`. */
  function Resolve(q: Queue, id: JobId, code: string, transcript: Document, usable: bool): (t: Queue)
    requires Linked(q) && id.run in q.runs
    ensures Linked(t)
  {
    if id.stage == Diarize then Ingest(q, id.run, GaveUp(code), transcript, usable) else Finish(q, id.run, RunFailed)
  }

  /** The derived medium of a closed `normalize`, superseding any other live one of its run. */
  function InsertMedia(q: Queue, u: U.UploadId, row: Media): (t: Queue)
    requires Linked(q) && u.job in q.jobs
    ensures Linked(t)
  {
    var retired := map v | v in q.media ::
      if v.job.run == u.job.run && v != u then q.media[v].(live := false) else q.media[v];
    q.(media := retired[u := if u in retired then retired[u] else row])
  }

  /** Whether the active run of a meeting asked for diarization; no active run counts as yes. */
  ghost predicate WantsDiarization(q: Queue, m: Id)
  {
    var r := ActiveRun(q, m);
    r.None? || q.runs[r.value].diarize != Some(false)
  }

  /** What a `complete` brings: the derived medium, or the parsed documents. */
  datatype Result = Result(medium: Media, transcript: Document, speakers: Document)

  /** The closing transaction from `markSucceeded` on. */
  ghost function Close(q: Queue, u: U.UploadId, result: Result, usable: bool, now: int): (t: Queue)
    requires Linked(q) && u.job in q.jobs
    ensures Linked(t)
  {
    assert u.job.run in q.runs;
    var r := u.job.run;
    var q1 := PutJob(q, u.job, MarkedSucceeded(q.jobs[u.job]));
    match u.job.stage
    case Normalize => Enqueue(InsertMedia(q1, u, result.medium), r, Transcribe, now)
    case Transcribe =>
      if WantsDiarization(q, q.runs[r].meeting) then Enqueue(q1, r, Diarize, now)
      else Ingest(q1, r, NotAsked, result.transcript, usable)
    case Diarize => Ingest(q1, r, Aligned(result.speakers), result.transcript, usable)
  }

  /** `requeueExpiredLeases`. */
  function SweepAll(q: Queue, now: int): (t: Queue)
    requires Linked(q)
    ensures Linked(t)
  {
    q.(jobs := map j | j in q.jobs :: Swept(q.jobs[j], now))
  }

  /** `cancelJobsForMeeting` and the cancelled outcome of the active run. */
  function CancelAll(q: Queue, m: Id): (t: Queue)
    requires Linked(q)
    ensures Linked(t)
  {
    q.(jobs := map j | j in q.jobs :: if q.runs[j.run].meeting == m then MarkedCancelled(q.jobs[j]) else q.jobs[j],
       runs := map r | r in q.runs ::
         if Active(q, m, r) then q.runs[r].(outcome := Some(RunCancelled)) else q.runs[r])
  }

  /** The cascades of deleting a meeting's row. */
  function Drop(q: Queue, m: Id): (t: Queue)
    requires Linked(q)
    ensures Linked(t)
    ensures forall r :: r in t.runs <==> r in q.runs && q.runs[r].meeting != m
  {
    Queue(map r | r in q.runs && q.runs[r].meeting != m :: q.runs[r],
          map j | j in q.jobs && q.runs[j.run].meeting != m :: q.jobs[j],
          map u | u in q.media && q.runs[u.job.run].meeting != m :: q.media[u],
          map r | r in q.versions && q.runs[r].meeting != m :: q.versions[r])
  }
}
