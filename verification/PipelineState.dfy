/**
 The meetings tables, the signed upload URLs still at large and the object store, as one
 value; and every transaction of `src/meetings/service.ts` and `src/meetings/deletion.ts`
 as a function on it. A refused request returns the state it was given.
 */
module PipelineState {
  import opened Common
  import opened JobRows
  import opened JobQueue
  import U = UploadRows

  type Upload = U.Upload
  type UploadId = U.UploadId

  datatype MediaState = MediaPending | MediaUploading | MediaReady | MediaInvalid
  datatype StageState = Pending | Running | Ready | Failing | Skipped
  datatype DeletionState = Live | Deleting | DeleteFailed

  datatype Warning =
    | StageFailed(stage: Stage, code: string)
    | TranscriptMissing
    | DiarizationFailed(code: string)

  /** `meetings`. `hasOriginal` says whether the `original` row of `meeting_media` exists. */
  datatype Meeting = Meeting(
    tenant: Id,
    client: Id,
    mediaState: MediaState,
    hasOriginal: bool,
    transcriptState: StageState,
    diarizationState: StageState,
    activeTranscript: Option<Id>,
    warnings: seq<Warning>,
    cancelled: bool,
    originalPutExpiresAt: Option<int>,
    deletion: DeletionState,
    deletionNotBefore: Option<int>)

  /** A storage key. StorageKeys.ArtifactKeyIsInjective justifies reading the fields back. */
  datatype ObjectKey = Original(meeting: Id) | Artifact(meeting: Id, upload: UploadId)

  datatype PutUrl = PutUrl(key: ObjectKey, expiresAt: int)

  /** One purge in flight: the deadline it read, and whether its re-list found nothing. */
  datatype Purger = Purger(meeting: Id, notBefore: int, sawEmpty: bool)

  datatype State = State(
    now: int,
    putTtl: nat,
    meetings: map<Id, Meeting>,
    usedMeetings: set<Id>,
    usedRuns: set<Id>,
    queue: Queue,
    uploads: map<UploadId, Upload>,
    urls: set<PutUrl>,
    objects: set<ObjectKey>,
    purgers: set<Purger>)

  datatype Capability = TranscribeCap | AnalyzeCap | MaintenanceCap

  /** `tenant` is absent for an internal pool. */
  datatype Identity = Identity(credential: Id, tenant: Option<Id>, capabilities: set<Capability>,
                               maxBytes: Option<nat>)

  datatype Proof = Proof(job: JobId, attempt: nat, secret: string)

  datatype ErrorCode =
    | NotFound | AttemptStale | InvalidTransition | LeaseInvalid | LeaseExpired
    | InvalidRequest | MediaRejected | TerminalConflict | Internal | ArtifactMalformed
    | ObjectUnconfirmed | ChecksumMismatch | Forbidden

  datatype Reply<+T> = Done(value: T) | Refused(code: ErrorCode)

  function Empty(putTtl: nat): State
  {
    State(0, putTtl, map[], {}, {}, Queue(map[], map[], map[], map[]), map[], {}, {}, {})
  }

  // ---- Rows and links ---------------------------------------------------------------

  predicate MeetingsUsed(meetings: map<Id, Meeting>, used: set<Id>) { forall m | m in meetings :: m in used }

  predicate RunsPlaced(q: Queue, meetings: map<Id, Meeting>, used: set<Id>)
  {
    forall r | r in q.runs :: q.runs[r].meeting in meetings && r in used
  }

  predicate UploadsPlaced(uploads: map<UploadId, Upload>, q: Queue) { forall u | u in uploads :: u.job in q.jobs }

  predicate StorePlaced(urls: set<PutUrl>, objects: set<ObjectKey>, purgers: set<Purger>, used: set<Id>)
  {
    && (forall x | x in urls :: x.key.meeting in used)
    && (forall k | k in objects :: k.meeting in used)
    && (forall p | p in purgers :: p.meeting in used)
  }

  /** Foreign keys of the tables, and primary keys that are never reused. */
  predicate RefsOk(s: State)
  {
    && Linked(s.queue)
    && MeetingsUsed(s.meetings, s.usedMeetings)
    && RunsPlaced(s.queue, s.meetings, s.usedRuns)
    && UploadsPlaced(s.uploads, s.queue)
    && StorePlaced(s.urls, s.objects, s.purgers, s.usedMeetings)
  }

  function MeetingOfJob(s: State, id: JobId): (m: Id)
    requires RefsOk(s) && id in s.queue.jobs
    ensures m in s.meetings
  {
    assert id.run in s.queue.runs;
    s.queue.runs[id.run].meeting
  }

  function SetMeeting(s: State, m: Id, row: Meeting): (t: State)
    requires RefsOk(s) && m in s.meetings
    ensures RefsOk(t)
  {
    s.(meetings := s.meetings[m := row])
  }

  function SetUpload(s: State, u: UploadId, row: Upload): (t: State)
    requires RefsOk(s) && u.job in s.queue.jobs
    ensures RefsOk(t)
  {
    s.(uploads := s.uploads[u := row])
  }

  /** A queue transaction that neither adds runs nor drops jobs. */
  predicate Extends(q: Queue, t: Queue)
  {
    && Linked(t)
    && (forall r | r in t.runs :: r in q.runs && t.runs[r].meeting == q.runs[r].meeting)
    && (forall j | j in q.jobs :: j in t.jobs)
  }

  function SetQueue(s: State, q: Queue): (t: State)
    requires RefsOk(s) && Extends(s.queue, q)
    ensures RefsOk(t)
  {
    s.(queue := q)
  }

  // ---- Application side: meeting, upload, run --------------------------------------

  predicate InScope(s: State, tenant: Id, client: Id, m: Id)
  {
    m in s.meetings && s.meetings[m].tenant == tenant && s.meetings[m].client == client
  }

  function CreateMeeting(s: State, m: Id, tenant: Id, client: Id): (t: State)
    requires RefsOk(s)
    ensures RefsOk(t)
    ensures t.now == s.now && t.queue == s.queue && t.uploads == s.uploads
  {
    if m in s.usedMeetings then s
    else
      s.(usedMeetings := s.usedMeetings + {m},
         meetings := s.meetings[m := Meeting(tenant, client, MediaPending, false, Pending, Pending, None, [],
                                             false, None, Live, None)])
  }

  function Latest(a: Option<int>, b: int): int { if a.Some? then Max(a.value, b) else b }

  /** `uploadInit`, with check, signature and record taken as one step. */
  function UploadInit(s: State, tenant: Id, client: Id, m: Id): (t: (State, Reply<PutUrl>))
    requires RefsOk(s)
    ensures RefsOk(t.0)
    ensures t.0.now == s.now && t.0.queue == s.queue && t.0.uploads == s.uploads
  {
    if !InScope(s, tenant, client, m) then (s, Refused(NotFound))
    else
      var row := s.meetings[m];
      if row.deletion != Live || row.cancelled || row.mediaState == MediaReady then (s, Refused(InvalidTransition))
      else
        var url := PutUrl(Original(m), s.now + s.putTtl);
        (SetMeeting(s, m, row.(originalPutExpiresAt := Some(Latest(row.originalPutExpiresAt, url.expiresAt)),
                               mediaState := MediaUploading)).(urls := s.urls + {url}),
         Done(url))
  }

  /** `uploadComplete` whose object could not be confirmed. */
  function MediaRefused(s: State, m: Id, missing: bool): (t: State)
    requires RefsOk(s)
    ensures RefsOk(t)
    ensures t.now == s.now && t.queue == s.queue && t.uploads == s.uploads
  {
    if m !in s.meetings then s
    else SetMeeting(s, m, s.meetings[m].(mediaState := if missing then MediaPending else MediaInvalid))
  }

  /** A run with its first job, in one transaction. */
  function NewRun(s: State, m: Id, r: Id, diarize: Option<bool>): (t: State)
    requires RefsOk(s) && m in s.meetings && r !in s.usedRuns
    ensures RefsOk(t)
  {
    s.(queue := OpenRun(s.queue, m, r, diarize, s.now), usedRuns := s.usedRuns + {r})
  }

  /**
   * The transaction of `uploadComplete`. The live and not-cancelled checks were read
   * before it and are not repeated inside, so only the row's existence matters here.
   */
  ghost function UploadCommit(s: State, m: Id, r: Id): (t: State)
    requires RefsOk(s)
    ensures RefsOk(t)
    ensures t.now == s.now && t.uploads == s.uploads
  {
    if m !in s.meetings then s
    else
      var s1 := SetMeeting(s, m, s.meetings[m].(mediaState := MediaReady, hasOriginal := true));
      var active := ActiveRun(s.queue, m);
      if active.Some? then SetQueue(s1, Enqueue(s.queue, active.value, Normalize, s.now))
      else if r in s.usedRuns then s
      else NewRun(s1, m, r, None)
  }

  /** A reprocess: refused by the unique index while another run of the meeting is active. */
  ghost function StartRun(s: State, m: Id, r: Id, diarize: Option<bool>): (t: State)
    requires RefsOk(s)
    ensures RefsOk(t)
    ensures t.now == s.now && t.uploads == s.uploads
  {
    if m !in s.meetings || r in s.usedRuns || ActiveRun(s.queue, m).Some? then s
    else NewRun(SetMeeting(s, m, s.meetings[m].(transcriptState := Pending)), m, r, diarize)
  }

  // ---- Worker side -------------------------------------------------------------------

  predicate MayClaim(s: State, who: Identity, id: JobId)
    requires RefsOk(s)
  {
    && id in s.queue.jobs && Claimable(s.queue.jobs[id], s.now)
    && TranscribeCap in who.capabilities
    && var row := s.meetings[MeetingOfJob(s, id)];
       row.deletion == Live && (who.tenant.None? || who.tenant.value == row.tenant)
  }

  /** `claim` once `claimNextJob` has picked a row; any claimable row may be picked. */
  function Claim(s: State, who: Identity, id: JobId, secret: string, leaseMs: nat): (t: State)
    requires RefsOk(s)
    ensures RefsOk(t)
    ensures t.now == s.now && t.uploads == s.uploads
  {
    if !MayClaim(s, who, id) then s
    else
      var s1 := SetQueue(s, PutJob(s.queue, id, Claimed(s.queue.jobs[id], id, who.credential, secret, s.now + leaseMs)));
      var m := MeetingOfJob(s, id);
      match id.stage
      case Normalize => s1
      case Transcribe => SetMeeting(s1, m, s.meetings[m].(transcriptState := Running))
      case Diarize => SetMeeting(s1, m, s.meetings[m].(diarizationState := Running))
  }

  predicate Terminal(j: Job) { j.status == Succeeded || j.status == Failed }

  /** `authorizeLease`: the refusals in the source's order. */
  function Authorize(s: State, who: Identity, proof: Proof, allowTerminal: bool): Reply<Job>
    requires RefsOk(s)
  {
    if proof.job !in s.queue.jobs then Refused(NotFound)
    else
      var j := s.queue.jobs[proof.job];
      if who.tenant.Some? && s.meetings[MeetingOfJob(s, proof.job)].tenant != who.tenant.value then Refused(NotFound)
      else if j.credential != Some(who.credential) then Refused(NotFound)
      else if j.attempts != proof.attempt then Refused(AttemptStale)
      else if Terminal(j) && allowTerminal then Done(j)
      else if !HoldsLease(j) then Refused(InvalidTransition)
      else if j.tokenHash != Some(TokenHash(proof.secret, proof.job, j.attempts, who.credential)) then Refused(LeaseInvalid)
      else if j.leaseExpiresAt.Some? && j.leaseExpiresAt.value <= s.now then Refused(LeaseExpired)
      else Done(j)
  }

  /** `heartbeat`: the new expiry and the cancellation signal. */
  function Heartbeat(s: State, who: Identity, proof: Proof, leaseMs: nat): (t: (State, Reply<(int, bool)>))
    requires RefsOk(s)
    ensures RefsOk(t.0)
    ensures t.0.now == s.now && t.0.uploads == s.uploads
  {
    match Authorize(s, who, proof, false)
    case Refused(c) => (s, Refused(c))
    case Done(j) =>
      (SetQueue(s, PutJob(s.queue, proof.job, Renewed(j, s.now + leaseMs))),
       Done((s.now + leaseMs, s.meetings[MeetingOfJob(s, proof.job)].cancelled)))
  }

  /** Whether `findVerifiedForRun` finds the run's transcript. */
  predicate HasTranscript(s: State, r: Id)
  {
    exists u | u in s.uploads :: u.job == JobId(r, Transcribe) && U.Usable(s.uploads[u])
  }

  /** What `ingestRun` leaves on the meeting's row. */
  function Ingested(row: Meeting, r: Id, how: DiarizationOutcome, usable: bool): Meeting
  {
    if !usable then row.(transcriptState := Failing, warnings := row.warnings + [TranscriptMissing])
    else
      row.(transcriptState := Ready,
           diarizationState := match how { case Aligned(_) => Ready case NotAsked => Skipped case GaveUp(_) => Failing },
           activeTranscript := Some(r),
           warnings := row.warnings + if how.GaveUp? then [DiarizationFailed(how.code)] else [])
  }

  /** `markIngested` of every verified artifact of the run. */
  function IngestUploads(uploads: map<UploadId, Upload>, r: Id, now: int): (t: map<UploadId, Upload>)
    ensures forall u :: u in t <==> u in uploads
  {
    map u | u in uploads :: if u.job.run == r then U.MarkedIngested(uploads[u], now) else uploads[u]
  }

  /** The rows outside the queue that a terminal failure of `id` writes. */
  function GivenUp(row: Meeting, id: JobId, code: string, usable: bool): Meeting
  {
    if id.stage != Diarize then
      row.(transcriptState := Failing, warnings := row.warnings + [StageFailed(id.stage, code)])
    else if !usable then
      row.(transcriptState := Failing, diarizationState := Failing, warnings := row.warnings + [TranscriptMissing])
    else Ingested(row, id.run, GaveUp(code), true)
  }

  const DETAIL_MAX := 2000

  /** `normalizeFailureDetail`. */
  function KeptDetail(detail: Option<string>): Option<string>
  {
    if detail.Some? && |detail.value| > DETAIL_MAX then Some(detail.value[..DETAIL_MAX]) else detail
  }

  /** `fail` from `markFailed` on; `j` is the row it wrote. */
  function FailJob(s: State, id: JobId, j: Job, code: string, reread: Option<Document>): (t: (State, Reply<bool>))
    requires RefsOk(s) && id in s.queue.jobs
    ensures RefsOk(t.0)
    ensures t.0.now == s.now
  {
    var m := MeetingOfJob(s, id);
    var q := PutJob(s.queue, id, j);
    var usable := HasTranscript(s, id.run);
    if j.status == Queued then (SetQueue(s, q), Done(true))
    else if id.stage == Diarize && usable && reread.None? then (s, Refused(ArtifactMalformed))
    else
      var s1 := SetQueue(s, Resolve(q, id, code, reread.GetOr(0), usable));
      (SetMeeting(s1, m, GivenUp(s.meetings[m], id, code, usable))
         .(uploads := if id.stage == Diarize && usable then IngestUploads(s.uploads, id.run, s.now) else s.uploads),
       Done(false))
  }

  /**
   * `fail`; the reply says whether the job went back to the queue. `code` is already trimmed.
   * `reread` is the stored transcript parsed again, absent when it no longer parses, which
   * aborts the transaction of a `diarize` that gives up.
   */
  function Fail(s: State, who: Identity, proof: Proof, code: string, detail: Option<string>, retryAt: int,
                reread: Option<Document>): (t: (State, Reply<bool>))
    requires RefsOk(s)
    ensures RefsOk(t.0)
    ensures t.0.now == s.now
  {
    if |code| == 0 || |code| > 80 then (s, Refused(InvalidRequest))
    else
      match Authorize(s, who, proof, true)
      case Refused(c) => (s, Refused(c))
      case Done(j) =>
        if j.status == Succeeded then (s, Refused(TerminalConflict))
        else if j.status == Failed then
          if j.failureCode != Some(code) || j.failureDetail != KeptDetail(detail) then (s, Refused(TerminalConflict))
          else (s, Done(false))
        else
          FailJob(s, proof.job, MarkedFailed(j, code, KeptDetail(detail), retryAt), code, reread)
  }

  function UploadAt(s: State, u: UploadId): Option<Upload> { if u in s.uploads then Some(s.uploads[u]) else None }

  /** `resultInit`, with check, signature and record taken as one step. */
  function ResultInit(s: State, who: Identity, proof: Proof, declared: U.Digested): (t: (State, Reply<PutUrl>))
    requires RefsOk(s)
    ensures RefsOk(t.0)
    ensures t.0.now == s.now
  {
    match Authorize(s, who, proof, false)
    case Refused(c) => (s, Refused(c))
    case Done(j) =>
      var m := MeetingOfJob(s, proof.job);
      if s.meetings[m].deletion != Live then (s, Refused(InvalidTransition))
      else if declared.bytes == 0 then (s, Refused(InvalidRequest))
      else if who.maxBytes.Some? && declared.bytes > who.maxBytes.value then (s, Refused(MediaRejected))
      else
        var u := U.UploadId(proof.job, j.attempts);
        var url := PutUrl(Artifact(m, u), s.now + s.putTtl);
        (SetUpload(SetQueue(s, PutJob(s.queue, proof.job, MarkedUploading(j))), u,
                   U.Initiated(UploadAt(s, u), url.expiresAt, declared, s.now))
           .(urls := s.urls + {url}),
         Done(url))
  }

  /** `markVerified` and `markRejected` by a request that was authorised earlier. */
  function VerifyUpload(s: State, u: UploadId, observed: U.Digested): (t: State)
    requires RefsOk(s)
    ensures RefsOk(t)
    ensures t.now == s.now && t.queue == s.queue
  {
    if u in s.uploads then SetUpload(s, u, U.MarkedVerified(s.uploads[u], observed, s.now)) else s
  }

  function RejectUpload(s: State, u: UploadId, code: string): (t: State)
    requires RefsOk(s)
    ensures RefsOk(t)
    ensures t.now == s.now && t.queue == s.queue
  {
    if u in s.uploads then SetUpload(s, u, U.MarkedRejected(s.uploads[u], code, s.now)) else s
  }

  datatype CompleteRequest = CompleteRequest(proof: Proof, content: U.Digested, probe: Option<Probe>)

  const SAMPLE_RATE: nat := 16000
  const CHANNELS: nat := 1
  const CODEC := "pcm_s16le"

  /** `assertProbeMatchesStage`. */
  function ProbeError(stage: Stage, probe: Option<Probe>): Option<ErrorCode>
  {
    if stage != Normalize then if probe.Some? then Some(InvalidRequest) else None
    else if probe.None? then Some(InvalidRequest)
    else if probe.value.sampleRate != SAMPLE_RATE || probe.value.channels != CHANNELS || probe.value.codec != CODEC then
      Some(MediaRejected)
    else None
  }

  /** `Math.round(value * 1000) / 1000`. */
  function Quantised(x: real): real { (x * 1000.0 + 0.5).Floor as real / 1000.0 }

  function QuantisedProbe(p: Probe): Probe
  {
    if p.duration.Some? then p.(duration := Some(Quantised(p.duration.value))) else p
  }

  /** `assertTerminalPayloadMatches`: None when the payload is the recorded one. */
  function PayloadError(s: State, u: UploadId, req: CompleteRequest): Option<ErrorCode>
    requires u in s.uploads
  {
    var row := s.uploads[u];
    var recorded := if row.observed.Some? then row.observed else row.declared;
    if recorded.Some? && recorded.value != req.content then Some(TerminalConflict)
    else if u.job.stage != Normalize then None
    else if u !in s.queue.media then Some(Internal)
    else if req.probe.None? || QuantisedProbe(req.probe.value) != s.queue.media[u].probe then Some(TerminalConflict)
    else None
  }

  datatype Completed = Completed(nextJob: Option<JobId>, ingested: bool, transcript: Option<Id>)

  function NextStage(stage: Stage): Option<Stage>
  {
    match stage
    case Normalize => Some(Transcribe)
    case Transcribe => Some(Diarize)
    case Diarize => None
  }

  function FindNextJob(s: State, id: JobId): Option<JobId>
  {
    var next := NextStage(id.stage);
    if next.Some? && JobId(id.run, next.value) in s.queue.jobs then Some(JobId(id.run, next.value)) else None
  }

  /** How the close of a stage ends: no ingestion, or one with this diarization outcome. */
  ghost function Ingestion(s: State, id: JobId, speakers: Document): Option<DiarizationOutcome>
    requires RefsOk(s) && id in s.queue.jobs
  {
    match id.stage
    case Normalize => None
    case Transcribe => if WantsDiarization(s.queue, MeetingOfJob(s, id)) then None else Some(NotAsked)
    case Diarize => Some(Aligned(speakers))
  }

  function ResultOf(req: CompleteRequest, transcript: Document, speakers: Document): Result
  {
    var probe := if req.probe.Some? then QuantisedProbe(req.probe.value) else Probe(None, 0, 0, "");
    Result(Media(req.content, probe, true), transcript, speakers)
  }

  /** The uploads a close marks as ingested: the normalised audio at once, the documents with their run. */
  ghost function ClosedUploads(s: State, u: UploadId, speakers: Document): (t: map<UploadId, Upload>)
    requires RefsOk(s) && u in s.uploads && u.job in s.queue.jobs
    ensures forall v :: v in t <==> v in s.uploads
  {
    if u.job.stage == Normalize then s.uploads[u := U.MarkedIngested(s.uploads[u], s.now)]
    else if Ingestion(s, u.job, speakers).Some? && HasTranscript(s, u.job.run) then
      IngestUploads(s.uploads, u.job.run, s.now)
    else s.uploads
  }

  /** The closing transaction from `markSucceeded` on. */
  ghost function CloseJob(s: State, u: UploadId, req: CompleteRequest, transcript: Document, speakers: Document)
    : (t: (State, Reply<Completed>))
    requires RefsOk(s) && u in s.uploads
    ensures RefsOk(t.0)
    ensures t.0.now == s.now
  {
    assert u.job in s.queue.jobs;
    var id := u.job;
    var m := MeetingOfJob(s, id);
    var usable := HasTranscript(s, id.run);
    var how := Ingestion(s, id, speakers);
    var s1 := SetQueue(s, Close(s.queue, u, ResultOf(req, transcript, speakers), usable, s.now));
    var s2 := s1.(uploads := ClosedUploads(s, u, speakers));
    if how.None? then (s2, Done(Completed(Some(JobId(id.run, NextStage(id.stage).GetOr(Diarize))), false, None)))
    else
      (SetMeeting(s2, m, Ingested(s.meetings[m], id.run, how.value, usable)),
       Done(Completed(None, usable && id.run !in s.queue.versions, if usable then Some(id.run) else None)))
  }

  /**
   * The closing transaction of `resultComplete`. The result of `markSucceeded` is ignored,
   * as in the source, so a `failed` job that `authorizeLease` let through is closed too.
   */
  ghost function Complete(s: State, who: Identity, req: CompleteRequest, transcript: Document, speakers: Document)
    : (t: (State, Reply<Completed>))
    requires RefsOk(s)
    ensures RefsOk(t.0)
    ensures t.0.now == s.now
  {
    match Authorize(s, who, req.proof, true)
    case Refused(c) => (s, Refused(c))
    case Done(j) =>
      var id := req.proof.job;
      var u := U.UploadId(id, j.attempts);
      var m := MeetingOfJob(s, id);
      if ProbeError(id.stage, req.probe).Some? then (s, Refused(ProbeError(id.stage, req.probe).value))
      else if u !in s.uploads then (s, Refused(InvalidTransition))
      else if j.status == Succeeded then
        var e := PayloadError(s, u, req);
        if e.Some? then (s, Refused(e.value))
        else (s, Done(Completed(FindNextJob(s, id), true, s.meetings[m].activeTranscript)))
      else
        CloseJob(s, u, req, transcript, speakers)
  }

  // ---- Sweep, cancellation, deletion ---------------------------------------------------

  function Sweep(s: State): (t: State)
    requires RefsOk(s)
    ensures RefsOk(t)
    ensures t.now == s.now && t.uploads == s.uploads
  {
    SetQueue(s, SweepAll(s.queue, s.now))
  }

  function Cancel(s: State, m: Id): (t: State)
    requires RefsOk(s)
    ensures RefsOk(t)
    ensures t.now == s.now && t.uploads == s.uploads
  {
    if m !in s.meetings then s
    else SetMeeting(SetQueue(s, CancelAll(s.queue, m)), m, s.meetings[m].(cancelled := true))
  }

  /** `t` is the GREATEST(...) of `reserveDeletion`: the latest of now and the recorded expiries. */
  predicate IsDeadline(s: State, m: Id, t: int)
    requires RefsOk(s) && m in s.meetings
  {
    var row := s.meetings[m];
    && s.now <= t
    && (row.originalPutExpiresAt.Some? ==> row.originalPutExpiresAt.value <= t)
    && (row.originalPutExpiresAt.None? && row.mediaState == MediaUploading ==> s.now + s.putTtl <= t)
    && (forall u | u in s.uploads && MeetingOfJob(s, u.job) == m :: s.uploads[u].putExpiresAt <= t)
    && (|| t == s.now
        || row.originalPutExpiresAt == Some(t)
        || (row.originalPutExpiresAt.None? && row.mediaState == MediaUploading && t == s.now + s.putTtl)
        || exists u | u in s.uploads && MeetingOfJob(s, u.job) == m :: s.uploads[u].putExpiresAt == t)
  }

  /** `reserveDeletion`. */
  function Reserve(s: State, m: Id, deadline: int): (t: State)
    requires RefsOk(s)
    ensures RefsOk(t)
    ensures t.now == s.now && t.queue == s.queue && t.uploads == s.uploads
  {
    if m !in s.meetings || s.meetings[m].deletion == Deleting || !IsDeadline(s, m, deadline) then s
    else SetMeeting(s, m, s.meetings[m].(deletion := Deleting, deletionNotBefore := Some(deadline)))
  }

  /** A purge starts: `claimMeetingsToPurge` and the deadline check of `purgeMeeting`. */
  function StartPurge(s: State, m: Id): (t: State)
    requires RefsOk(s)
    ensures RefsOk(t)
    ensures t.now == s.now && t.queue == s.queue && t.uploads == s.uploads
  {
    if m !in s.meetings || s.meetings[m].deletion == Live || s.meetings[m].deletionNotBefore.None?
       || s.now < s.meetings[m].deletionNotBefore.value then s
    else s.(purgers := s.purgers + {Purger(m, s.meetings[m].deletionNotBefore.value, false)})
  }

  /** One key of one page deleted; only keys under the purged prefix are ever listed. */
  function PurgeObject(s: State, p: Purger, k: ObjectKey): (t: State)
    requires RefsOk(s)
    ensures RefsOk(t)
    ensures t.now == s.now && t.queue == s.queue && t.uploads == s.uploads
  {
    if p in s.purgers && k.meeting == p.meeting then s.(objects := s.objects - {k}) else s
  }

  predicate PrefixEmpty(s: State, m: Id) { forall k | k in s.objects :: k.meeting != m }

  /** The re-list after the deletions. */
  function PurgeVerify(s: State, p: Purger): (t: State)
    requires RefsOk(s)
    ensures RefsOk(t)
    ensures t.now == s.now && t.queue == s.queue && t.uploads == s.uploads
  {
    if p in s.purgers && PrefixEmpty(s, p.meeting) then s.(purgers := s.purgers + {p.(sawEmpty := true)}) else s
  }

  function MarkDeleteFailed(s: State, m: Id): (t: State)
    requires RefsOk(s)
    ensures RefsOk(t)
    ensures t.now == s.now && t.queue == s.queue && t.uploads == s.uploads
  {
    if m in s.meetings && s.meetings[m].deletion != Live then
      SetMeeting(s, m, s.meetings[m].(deletion := DeleteFailed))
    else s
  }

  /** `deleteMeetingRow` and its cascades; the URLs already handed out cannot be revoked. */
  function DeleteRow(s: State, p: Purger): (t: State)
    requires RefsOk(s)
    ensures RefsOk(t)
    ensures t.now == s.now && (forall u :: u in t.uploads ==> u in s.uploads && t.uploads[u] == s.uploads[u])
  {
    var m := p.meeting;
    if p !in s.purgers || !p.sawEmpty || m !in s.meetings || s.meetings[m].deletion == Live
       || s.meetings[m].deletionNotBefore.None? || s.now < s.meetings[m].deletionNotBefore.value then s
    else
      var q := Drop(s.queue, m);
      s.(meetings := s.meetings - {m},
         queue := q,
         uploads := map u | u in s.uploads && u.job in q.jobs :: s.uploads[u])
  }

  /** The holder of a URL uses it: the store honours it until it expires and asks nobody. */
  function Put(s: State, url: PutUrl): (t: State)
    requires RefsOk(s)
    ensures RefsOk(t)
    ensures t.now == s.now && t.queue == s.queue && t.uploads == s.uploads
  {
    if url in s.urls && s.now < url.expiresAt then s.(objects := s.objects + {url.key}) else s
  }

  // ---- The transition system -------------------------------------------------------------

  datatype Step =
    | DoCreateMeeting(m: Id, tenant: Id, client: Id)
    | DoUploadInit(tenant: Id, client: Id, m: Id)
    | DoMediaRefused(m: Id, missing: bool)
    | DoUploadCommit(m: Id, r: Id)
    | DoStartRun(m: Id, r: Id, diarize: Option<bool>)
    | DoClaim(who: Identity, job: JobId, secret: string, leaseMs: nat)
    | DoHeartbeat(who: Identity, proof: Proof, leaseMs: nat)
    | DoFail(who: Identity, proof: Proof, code: string, detail: Option<string>, retryAt: int, reread: Option<Document>)
    | DoResultInit(who: Identity, proof: Proof, declared: U.Digested)
    | DoVerify(u: UploadId, observed: U.Digested)
    | DoReject(u: UploadId, reason: string)
    | DoComplete(who: Identity, req: CompleteRequest, transcript: Document, speakers: Document)
    | DoSweep
    | DoCancel(m: Id)
    | DoReserve(m: Id, deadline: int)
    | DoStartPurge(m: Id)
    | DoPurgeObject(p: Purger, k: ObjectKey)
    | DoPurgeVerify(p: Purger)
    | DoMarkDeleteFailed(m: Id)
    | DoDeleteRow(p: Purger)
    | DoPut(url: PutUrl)
    | DoTick(dt: nat)

  predicate IsWorkerStep(step: Step)
  {
    step.DoClaim? || step.DoHeartbeat? || step.DoResultInit? || step.DoFail? || step.DoComplete?
  }

  predicate IsDeletionStep(step: Step)
  {
    || step.DoReserve? || step.DoStartPurge? || step.DoPurgeObject? || step.DoPurgeVerify?
    || step.DoMarkDeleteFailed? || step.DoDeleteRow? || step.DoPut?
  }

  ghost function Next(s: State, step: Step): (t: State)
    requires RefsOk(s)
    ensures RefsOk(t)
  {
    match step
    case DoCreateMeeting(m, tenant, client) => CreateMeeting(s, m, tenant, client)
    case DoUploadInit(tenant, client, m) => UploadInit(s, tenant, client, m).0
    case DoMediaRefused(m, missing) => MediaRefused(s, m, missing)
    case DoUploadCommit(m, r) => UploadCommit(s, m, r)
    case DoStartRun(m, r, diarize) => StartRun(s, m, r, diarize)
    case DoClaim(who, job, secret, leaseMs) => Claim(s, who, job, secret, leaseMs)
    case DoHeartbeat(who, proof, leaseMs) => Heartbeat(s, who, proof, leaseMs).0
    case DoFail(who, proof, code, detail, retryAt, reread) => Fail(s, who, proof, code, detail, retryAt, reread).0
    case DoResultInit(who, proof, declared) => ResultInit(s, who, proof, declared).0
    case DoVerify(u, observed) => VerifyUpload(s, u, observed)
    case DoReject(u, reason) => RejectUpload(s, u, reason)
    case DoComplete(who, req, transcript, speakers) => Complete(s, who, req, transcript, speakers).0
    case DoSweep => Sweep(s)
    case DoCancel(m) => Cancel(s, m)
    case DoReserve(m, deadline) => Reserve(s, m, deadline)
    case DoStartPurge(m) => StartPurge(s, m)
    case DoPurgeObject(p, k) => PurgeObject(s, p, k)
    case DoPurgeVerify(p) => PurgeVerify(s, p)
    case DoMarkDeleteFailed(m) => MarkDeleteFailed(s, m)
    case DoDeleteRow(p) => DeleteRow(s, p)
    case DoPut(url) => Put(s, url)
    case DoTick(dt) => s.(now := s.now + dt)
  }
}
