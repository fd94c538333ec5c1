/**
 The service as it is written: methods that update rows statement by statement. Each one is
 proved to do, as a whole, the transaction of the same name in PipelineState, or in the case of
 the preparation of a `complete` a sequence of its steps, so that the theorems about whole runs
 speak of these methods among the other steps.
 */
module PipelineService {
  import opened Common
  import opened JobRows
  import opened JobQueue
  import opened QueueInvariant
  import opened PipelineState
  import opened PipelineInvariant
  import opened PipelineTraces
  import opened LeaseSafety
  import opened Tenants
  import U = UploadRows

  /** `progressPct` of a heartbeat: absent, or a whole number of per cent. */
  predicate ProgressOk(progress: Option<real>)
  {
    progress.Some? ==> progress.value.Floor as real == progress.value && 0.0 <= progress.value <= 100.0
  }

  class MeetingsService {
    const putTtl: nat
    var now: int
    var meetings: map<Id, Meeting>
    var usedMeetings: set<Id>
    var usedRuns: set<Id>
    var runs: map<Id, Run>
    var jobs: map<JobId, Job>
    var media: map<UploadId, Media>
    var versions: map<Id, Version>
    var uploads: map<UploadId, Upload>
    var urls: set<PutUrl>
    var objects: set<ObjectKey>
    var purgers: set<Purger>

    /** The tables as one value. */
    ghost function S(): State
      reads this
    {
      State(now, putTtl, meetings, usedMeetings, usedRuns, Queue(runs, jobs, media, versions), uploads, urls, objects, purgers)
    }

    ghost function Q(): Queue
      reads this
    {
      Queue(runs, jobs, media, versions)
    }

    constructor (putTtl: nat)
      ensures S() == Empty(putTtl) && PipelineOk(S())
    {
      this.putTtl := putTtl;
      now := 0;
      meetings, usedMeetings, usedRuns := map[], {}, {};
      runs, jobs, media, versions := map[], map[], map[], map[];
      uploads, urls, objects, purgers := map[], {}, {}, {};
    }

    // ---- Statements ----------------------------------------------------------------------

    /** `getActiveRun`. */
    method GetActiveRun(m: Id) returns (r: Option<Id>)
      requires OneActiveRun(Q())
      ensures r == ActiveRun(Q(), m)
    {
      if exists p :: p in runs && Active(Queue(runs, jobs, media, versions), m, p) {
        var p :| p in runs && Active(Queue(runs, jobs, media, versions), m, p);
        r := Some(p);
      } else {
        r := None;
      }
    }

    /** `createJob`. */
    method CreateJob(r: Id, stage: Stage)
      requires Linked(Q()) && r in runs
      modifies `jobs
      ensures Q() == Enqueue(old(Q()), r, stage, now)
    {
      if JobId(r, stage) !in jobs {
        jobs := jobs[JobId(r, stage) := Fresh(now)];
      } else {
        assert jobs == jobs[JobId(r, stage) := jobs[JobId(r, stage)]];
      }
    }

    /** `finishRun`. */
    method FinishRun(r: Id, outcome: Outcome)
      requires Linked(Q()) && r in runs
      modifies `runs
      ensures Q() == Finish(old(Q()), r, outcome)
    {
      if runs[r].outcome.None? {
        runs := runs[r := runs[r].(outcome := Some(outcome))];
      } else {
        assert runs == runs[r := runs[r]];
      }
    }

    /** Whether `findVerifiedForRun` finds a transcript. */
    method FindTranscript(r: Id) returns (found: bool)
      ensures found == HasTranscript(S(), r)
    {
      found := exists u :: u in uploads && u.job == JobId(r, Transcribe) && U.Usable(uploads[u]);
    }

    // ---- authorizeLease --------------------------------------------------------------------

    method AuthorizeLease(who: Identity, proof: Proof, allowTerminal: bool) returns (reply: Reply<Job>)
      requires RefsOk(S())
      ensures reply == Authorize(S(), who, proof, allowTerminal)
    {
      if proof.job !in jobs { return Refused(NotFound); }
      var j := jobs[proof.job];
      if who.tenant.Some? && meetings[runs[proof.job.run].meeting].tenant != who.tenant.value { return Refused(NotFound); }
      if j.credential != Some(who.credential) { return Refused(NotFound); }
      if j.attempts != proof.attempt { return Refused(AttemptStale); }
      if (j.status == Succeeded || j.status == Failed) && allowTerminal { return Done(j); }
      if j.status != Leased && j.status != UploadingResult { return Refused(InvalidTransition); }
      if j.tokenHash != Some(TokenHash(proof.secret, proof.job, j.attempts, who.credential)) { return Refused(LeaseInvalid); }
      if j.leaseExpiresAt.Some? && j.leaseExpiresAt.value <= now { return Refused(LeaseExpired); }
      return Done(j);
    }

    // ---- Application side -----------------------------------------------------------------

    /** `mediaOk` is the verdict of `checkMedia` on name, type and size; `checksumOk` says whether a given checksum is a SHA-256. */
    method UploadInit(tenant: Id, client: Id, m: Id, mediaOk: bool, checksumOk: bool) returns (reply: Reply<PutUrl>)
      requires RefsOk(S())
      modifies `meetings, `urls
      ensures var plain := PipelineState.UploadInit(old(S()), tenant, client, m);
              if plain.1.Done? && !mediaOk then S() == old(S()) && reply == Refused(MediaRejected)
              else if plain.1.Done? && !checksumOk then S() == old(S()) && reply == Refused(InvalidRequest)
              else (S(), reply) == plain
    {
      if m !in meetings || meetings[m].tenant != tenant || meetings[m].client != client { return Refused(NotFound); }
      if meetings[m].deletion != Live || meetings[m].cancelled || meetings[m].mediaState == MediaReady {
        return Refused(InvalidTransition);
      }
      if !mediaOk { return Refused(MediaRejected); }
      if !checksumOk { return Refused(InvalidRequest); }
      var url := PutUrl(Original(m), now + putTtl);
      urls := urls + {url};
      meetings := meetings[m := meetings[m].(originalPutExpiresAt := Some(Latest(meetings[m].originalPutExpiresAt, url.expiresAt)))];
      ghost var row := meetings[m].(mediaState := MediaUploading);
      assert meetings[m := row] == old(meetings)[m := row];
      meetings := meetings[m := meetings[m].(mediaState := MediaUploading)];
      return Done(url);
    }

    /** `getActiveRun ?? createRun`, and the run's first job. */
    method RunToStart(m: Id, r: Id) returns (run: Id)
      requires Linked(Q()) && OneActiveRun(Q()) && r !in runs
      modifies `runs, `jobs, `usedRuns
      ensures var active := ActiveRun(old(Q()), m);
              if active.Some? then
                run == active.value && Q() == Enqueue(old(Q()), run, Normalize, now) && usedRuns == old(usedRuns)
              else
                run == r && Q() == OpenRun(old(Q()), m, r, None, now) && usedRuns == old(usedRuns) + {r}
      ensures run in runs && runs[run].meeting == m && JobId(run, Normalize) in jobs
    {
      var active := GetActiveRun(m);
      if active.Some? {
        run := active.value;
      } else {
        run := r;
        runs := runs[r := Run(m, None, None)];
        usedRuns := usedRuns + {r};
      }
      CreateJob(run, Normalize);
    }

    /** The transaction of `uploadComplete`; `r` is the fresh id a new run would get. */
    method UploadCommit(m: Id, r: Id) returns (run: Option<Id>)
      requires RefsOk(S()) && OneActiveRun(Q()) && r !in usedRuns
      modifies `meetings, `runs, `jobs, `usedRuns
      ensures S() == PipelineState.UploadCommit(old(S()), m, r)
      ensures run.Some? <==> m in old(meetings)
      ensures run.Some? ==> run.value in runs && runs[run.value].meeting == m && JobId(run.value, Normalize) in jobs
    {
      if m !in meetings { return None; }
      ghost var row := meetings[m].(hasOriginal := true, mediaState := MediaReady);
      meetings := meetings[m := meetings[m].(hasOriginal := true)];
      assert meetings[m := row] == old(meetings)[m := row];
      meetings := meetings[m := meetings[m].(mediaState := MediaReady)];
      assert r !in runs;
      var started := RunToStart(m, r);
      run := Some(started);
    }

    // ---- Worker side -----------------------------------------------------------------------

    /** The row that has waited longest. */
    method Earliest(among: set<JobId>) returns (first: JobId)
      requires among != {} && among <= jobs.Keys
      ensures first in among && forall id | id in among :: jobs[first].nextAttemptAt <= jobs[id].nextAttemptAt
    {
      first :| first in among;
      var seen := {first};
      while seen != among
        invariant first in seen && seen <= among
        invariant forall id | id in seen :: jobs[first].nextAttemptAt <= jobs[id].nextAttemptAt
        decreases |among - seen|
      {
        var id :| id in among - seen;
        if jobs[id].nextAttemptAt < jobs[first].nextAttemptAt { first := id; }
        seen := seen + {id};
      }
    }

    /**
     `claim`: of the rows that may be claimed and that no other transaction has locked, one that
     has waited longest; every job has the default priority.
     */
    method Claim(who: Identity, secret: string, leaseMs: nat, locked: set<JobId>) returns (claimed: Option<JobId>)
      requires RefsOk(S())
      modifies `jobs, `meetings
      ensures claimed.None? ==> S() == old(S()) && forall id | Takable(S(), who, id) :: id in locked
      ensures claimed.Some? ==>
                && claimed.value !in locked && Takable(old(S()), who, claimed.value)
                && (forall id | id !in locked && Takable(old(S()), who, id) ::
                      old(jobs)[claimed.value].nextAttemptAt <= old(jobs)[id].nextAttemptAt)
                && S() == PipelineState.Claim(old(S()), who, claimed.value, secret, leaseMs)
    {
      if TranscribeCap !in who.capabilities { return None; }
      var claimable := FindClaimable(who, locked);
      if claimable == {} { return None; }
      var id := Earliest(claimable);
      TakeJob(who, id, secret, leaseMs);
      return Some(id);
    }

    /** The rows `claimNextJob` may pick. */
    method FindClaimable(who: Identity, locked: set<JobId>) returns (claimable: set<JobId>)
      requires RefsOk(S()) && TranscribeCap in who.capabilities
      ensures forall id :: id in claimable <==> id !in locked && Takable(S(), who, id)
      ensures claimable <= jobs.Keys
    {
      claimable := set id | id in jobs && id !in locked && Claimable(jobs[id], now) && meetings[runs[id.run].meeting].deletion == Live
                            && (who.tenant.None? || who.tenant.value == meetings[runs[id.run].meeting].tenant);
    }

    /** The UPDATE on the picked row, and the state of its stage on the meeting. */
    method TakeJob(who: Identity, id: JobId, secret: string, leaseMs: nat)
      requires RefsOk(S()) && Takable(S(), who, id)
      modifies `jobs, `meetings
      ensures S() == PipelineState.Claim(old(S()), who, id, secret, leaseMs)
    {
      var m := runs[id.run].meeting;
      jobs := jobs[id := Claimed(jobs[id], id, who.credential, secret, now + leaseMs)];
      if id.stage == Transcribe {
        meetings := meetings[m := meetings[m].(transcriptState := Running)];
      } else if id.stage == Diarize {
        meetings := meetings[m := meetings[m].(diarizationState := Running)];
      }
    }

    method Heartbeat(who: Identity, proof: Proof, leaseMs: nat, progress: Option<real>) returns (reply: Reply<(int, bool)>)
      requires RefsOk(S())
      modifies `jobs
      ensures var plain := PipelineState.Heartbeat(old(S()), who, proof, leaseMs);
              if plain.1.Done? && !ProgressOk(progress) then S() == old(S()) && reply == Refused(InvalidRequest)
              else (S(), reply) == plain
      ensures reply.Done? <==> LeaseProven(old(S()), who, proof) && ProgressOk(progress)
      ensures reply.Done? ==>
                && jobs == old(jobs)[proof.job := old(jobs)[proof.job].(leaseExpiresAt := Some(now + leaseMs))]
                && reply.value == (now + leaseMs, meetings[runs[proof.job.run].meeting].cancelled)
    {
      var a := AuthorizeLease(who, proof, false);
      if a.Refused? { return Refused(a.code); }
      if !ProgressOk(progress) { return Refused(InvalidRequest); }
      jobs := jobs[proof.job := Renewed(a.value, now + leaseMs)];
      return Done((now + leaseMs, meetings[runs[proof.job.run].meeting].cancelled));
    }

    /** `initResultUpload`, `markUploaded` and `markUploadingResult`. */
    method RecordUpload(u: UploadId, expiresAt: int, declared: U.Digested)
      requires u.job in jobs
      modifies `uploads, `jobs
      ensures uploads == old(uploads)[u := U.Initiated(old(UploadAt(S(), u)), expiresAt, declared, now)]
      ensures jobs == old(jobs)[u.job := MarkedUploading(old(jobs)[u.job])]
    {
      uploads := uploads[u := if u in uploads then U.Reopened(uploads[u], expiresAt) else U.Opened(expiresAt)];
      uploads := uploads[u := U.MarkedUploaded(uploads[u], declared, now)];
      jobs := jobs[u.job := MarkedUploading(jobs[u.job])];
    }

    method ResultInit(who: Identity, proof: Proof, declared: U.Digested) returns (reply: Reply<PutUrl>)
      requires RefsOk(S())
      modifies `jobs, `uploads, `urls
      ensures (S(), reply) == PipelineState.ResultInit(old(S()), who, proof, declared)
    {
      var a := AuthorizeLease(who, proof, false);
      if a.Refused? { return Refused(a.code); }
      var m := runs[proof.job.run].meeting;
      if meetings[m].deletion != Live { return Refused(InvalidTransition); }
      if declared.bytes == 0 { return Refused(InvalidRequest); }
      if who.maxBytes.Some? && declared.bytes > who.maxBytes.value { return Refused(MediaRejected); }
      var u := U.UploadId(proof.job, a.value.attempts);
      var url := PutUrl(Artifact(m, u), now + putTtl);
      urls := urls + {url};
      RecordUpload(u, url.expiresAt, declared);
      return Done(url);
    }

    // ---- Ingestion and failure ---------------------------------------------------------------

    /** `ingestRun`. */
    method IngestRun(r: Id, how: DiarizationOutcome, transcript: Document) returns (ingested: bool, transcriptId: Option<Id>)
      requires Linked(Q()) && r in runs && runs[r].meeting in meetings
      modifies `meetings, `runs, `versions, `uploads
      ensures var usable := old(HasTranscript(S(), r));
              var m := old(runs)[r].meeting;
              && Q() == Ingest(old(Q()), r, how, transcript, usable)
              && meetings == old(meetings)[m := Ingested(old(meetings)[m], r, how, usable)]
              && uploads == (if usable then IngestUploads(old(uploads), r, now) else old(uploads))
              && ingested == (usable && r !in old(versions))
              && transcriptId == if usable then Some(r) else None
    {
      var m := runs[r].meeting;
      var found := FindTranscript(r);
      if !found {
        meetings := meetings[m := meetings[m].(transcriptState := Failing, warnings := meetings[m].warnings + [TranscriptMissing])];
        FinishRun(r, RunFailed);
        return false, None;
      }
      ingested := r !in versions;
      if ingested {
        versions := versions[r := Version(transcript, if how.Aligned? then Some(how.speakers) else None)];
      } else {
        assert versions == versions[r := versions[r]];
      }
      uploads := IngestUploads(uploads, r, now);
      meetings := meetings[m := Ingested(meetings[m], r, how, true)];
      FinishRun(r, if how.GaveUp? then RunPartial else RunSucceeded);
      transcriptId := Some(r);
    }

    /** `resolveTerminalFailure` of a job whose row already says `failed`; false aborts the transaction. */
    method ResolveTerminalFailure(id: JobId, code: string, reread: Option<Document>) returns (ok: bool)
      requires Linked(Q()) && id.run in runs && runs[id.run].meeting in meetings
      modifies `meetings, `runs, `versions, `uploads
      ensures var usable := old(HasTranscript(S(), id.run));
              var m := old(runs)[id.run].meeting;
              && ok == !(id.stage == Diarize && usable && reread.None?)
              && (!ok ==> S() == old(S()))
              && (ok ==>
                    && Q() == Resolve(old(Q()), id, code, reread.GetOr(0), usable)
                    && meetings == old(meetings)[m := GivenUp(old(meetings)[m], id, code, usable)]
                    && uploads == if id.stage == Diarize && usable then IngestUploads(old(uploads), id.run, now) else old(uploads))
    {
      var m := runs[id.run].meeting;
      if id.stage != Diarize {
        meetings := meetings[m := meetings[m].(transcriptState := Failing,
                                               warnings := meetings[m].warnings + [StageFailed(id.stage, code)])];
        FinishRun(id.run, RunFailed);
        return true;
      }
      var found := FindTranscript(id.run);
      if !found {
        meetings := meetings[m := meetings[m].(transcriptState := Failing, diarizationState := Failing,
                                               warnings := meetings[m].warnings + [TranscriptMissing])];
        FinishRun(id.run, RunFailed);
        return true;
      }
      if reread.None? { return false; }
      var _, _ := IngestRun(id.run, GaveUp(code), reread.value);
      return true;
    }

    /** The part of `fail` under a proven lease, in one transaction. */
    method FailLeased(id: JobId, code: string, detail: Option<string>, retryAt: int, reread: Option<Document>)
      returns (reply: Reply<bool>)
      requires RefsOk(S()) && id in jobs
      modifies `jobs, `meetings, `runs, `versions, `uploads
      ensures (S(), reply) == FailJob(old(S()), id, MarkedFailed(old(jobs)[id], code, detail, retryAt), code, reread)
    {
      var before := jobs;
      jobs := jobs[id := MarkedFailed(jobs[id], code, detail, retryAt)];
      if jobs[id].status == Queued { return Done(true); }
      var ok := ResolveTerminalFailure(id, code, reread);
      if !ok {
        jobs := before; // the transaction rolls back
        return Refused(ArtifactMalformed);
      }
      return Done(false);
    }

    method Fail(who: Identity, proof: Proof, code: string, detail: Option<string>, retryAt: int, reread: Option<Document>)
      returns (reply: Reply<bool>)
      requires RefsOk(S())
      modifies `jobs, `meetings, `runs, `versions, `uploads
      ensures (S(), reply) == PipelineState.Fail(old(S()), who, proof, code, detail, retryAt, reread)
    {
      if |code| == 0 || |code| > 80 { return Refused(InvalidRequest); }
      var a := AuthorizeLease(who, proof, true);
      if a.Refused? { return Refused(a.code); }
      if a.value.status == Succeeded { return Refused(TerminalConflict); }
      if a.value.status == JobRows.Failed {
        if a.value.failureCode != Some(code) { return Refused(TerminalConflict); }
        if a.value.failureDetail != KeptDetail(detail) { return Refused(TerminalConflict); }
        return Done(false);
      }
      reply := FailLeased(proof.job, code, KeptDetail(detail), retryAt, reread);
    }

    // ---- resultComplete ------------------------------------------------------------------------

    /** `supersedeLiveDerived` and `insertMedia`. */
    method InsertDerived(u: UploadId, row: Media)
      requires Linked(Q()) && u.job in jobs
      modifies `media
      ensures Q() == InsertMedia(old(Q()), u, row)
    {
      media := map v | v in media ::
        if v.job.run == u.job.run && v != u then media[v].(live := false) else media[v];
      media := media[u := if u in media then media[u] else row];
    }

    method RunWantsDiarization(m: Id) returns (wants: bool)
      requires OneActiveRun(Q())
      ensures wants == WantsDiarization(Q(), m)
    {
      var active := GetActiveRun(m);
      wants := active.None? || runs[active.value].diarize != Some(false);
    }

    /** `normalize` closed: its medium goes live and `transcribe` is queued. */
    method CloseNormalize(u: UploadId, result: Result, ghost usable: bool)
      requires Linked(Q()) && u.job in jobs && u.job.stage == Normalize
      modifies `jobs, `media
      ensures Q() == Close(old(Q()), u, result, usable, now)
    {
      jobs := jobs[u.job := MarkedSucceeded(jobs[u.job])];
      InsertDerived(u, result.medium);
      CreateJob(u.job.run, Transcribe);
    }

    /** The rows outside the queue after a close that ingests. */
    ghost predicate RowsIngested(was: State, r: Id, how: DiarizationOutcome)
      requires RefsOk(was) && r in was.queue.runs
      reads this
    {
      var (m, usable) := (was.queue.runs[r].meeting, HasTranscript(was, r));
      && meetings == was.meetings[m := Ingested(was.meetings[m], r, how, usable)]
      && uploads == if usable then IngestUploads(was.uploads, r, was.now) else was.uploads
    }

    /** `transcribe` closed: `diarize` is queued, unless the run asked for none. */
    method CloseTranscribe(u: UploadId, result: Result) returns (done: Completed)
      requires RefsOk(S()) && OneActiveRun(Q()) && u.job in jobs && u.job.stage == Transcribe
      modifies `jobs, `meetings, `runs, `versions, `uploads
      ensures Q() == Close(old(Q()), u, result, old(HasTranscript(S(), u.job.run)), now)
      ensures if WantsDiarization(old(Q()), old(runs)[u.job.run].meeting) then
                meetings == old(meetings) && uploads == old(uploads) && done == Completed(Some(JobId(u.job.run, Diarize)), false, None)
              else
                RowsIngested(old(S()), u.job.run, NotAsked) && done == IngestedReply(old(S()), u.job.run)
    {
      var wants := RunWantsDiarization(runs[u.job.run].meeting);
      jobs := jobs[u.job := MarkedSucceeded(jobs[u.job])];
      if wants {
        CreateJob(u.job.run, Diarize);
        return Completed(Some(JobId(u.job.run, Diarize)), false, None);
      }
      var ingested, transcriptId := IngestRun(u.job.run, NotAsked, result.transcript);
      return Completed(None, ingested, transcriptId);
    }

    static function IngestedReply(was: State, r: Id): Completed
    {
      Completed(None, HasTranscript(was, r) && r !in was.queue.versions, if HasTranscript(was, r) then Some(r) else None)
    }

    /** `diarize` closed: the transcript is ingested with its speakers. */
    method CloseDiarize(u: UploadId, result: Result) returns (done: Completed)
      requires RefsOk(S()) && u.job in jobs && u.job.stage == Diarize
      modifies `jobs, `meetings, `runs, `versions, `uploads
      ensures Q() == Close(old(Q()), u, result, old(HasTranscript(S(), u.job.run)), now)
      ensures RowsIngested(old(S()), u.job.run, Aligned(result.speakers)) && done == IngestedReply(old(S()), u.job.run)
    {
      jobs := jobs[u.job := MarkedSucceeded(jobs[u.job])];
      var ingested, transcriptId := IngestRun(u.job.run, Aligned(result.speakers), result.transcript);
      return Completed(None, ingested, transcriptId);
    }

    method CloseNormalizeLeased(u: UploadId, req: CompleteRequest, ghost transcript: Document, ghost speakers: Document)
      returns (reply: Reply<Completed>)
      requires RefsOk(S()) && u in uploads && u.job in jobs && u.job.stage == Normalize
      modifies `jobs, `uploads, `media
      ensures (S(), reply) == CloseJob(old(S()), u, req, transcript, speakers)
    {
      CloseNormalize(u, ResultOf(req, 0, 0), HasTranscript(S(), u.job.run));
      assert Q() == Close(old(Q()), u, ResultOf(req, transcript, speakers), old(HasTranscript(S(), u.job.run)), now);
      uploads := uploads[u := U.MarkedIngested(uploads[u], now)];
      return Done(Completed(Some(JobId(u.job.run, Transcribe)), false, None));
    }

    /** The closing transaction of `resultComplete`, from `markSucceeded` on. */
    method CloseLeased(u: UploadId, req: CompleteRequest, transcript: Document, speakers: Document)
      returns (reply: Reply<Completed>)
      requires RefsOk(S()) && OneActiveRun(Q()) && u in uploads && u.job in jobs
      modifies `jobs, `meetings, `runs, `versions, `uploads, `media
      ensures (S(), reply) == CloseJob(old(S()), u, req, transcript, speakers)
    {
      hide Close, HasTranscript, IngestUploads, OneActiveRun;
      match u.job.stage
      case Normalize => reply := CloseNormalizeLeased(u, req, transcript, speakers);
      case Transcribe =>
        var done := CloseTranscribe(u, ResultOf(req, transcript, speakers));
        return Done(done);
      case Diarize =>
        var done := CloseDiarize(u, ResultOf(req, transcript, speakers));
        return Done(done);
    }

    /** `findNextJob`. */
    method FindNext(id: JobId) returns (next: Option<JobId>)
      ensures next == FindNextJob(S(), id)
    {
      if id.stage == Diarize { return None; }
      var candidate := JobId(id.run, if id.stage == Normalize then Transcribe else Diarize);
      next := if candidate in jobs then Some(candidate) else None;
    }

    /** `assertTerminalPayloadMatches`. */
    method ComparePayload(u: UploadId, req: CompleteRequest) returns (error: Option<ErrorCode>)
      requires u in uploads
      ensures error == PayloadError(S(), u, req)
    {
      var recorded := if uploads[u].observed.Some? then uploads[u].observed else uploads[u].declared;
      if recorded.Some? && recorded.value.checksum != req.content.checksum { return Some(TerminalConflict); }
      if recorded.Some? && recorded.value.bytes != req.content.bytes { return Some(TerminalConflict); }
      if u.job.stage != Normalize { return None; }
      if u !in media { return Some(Internal); }
      if req.probe.None? { return Some(TerminalConflict); }
      var (stored, incoming) := (media[u].probe, req.probe.value);
      if stored.duration != (if incoming.duration.Some? then Some(Quantised(incoming.duration.value)) else None) { return Some(TerminalConflict); }
      if stored.sampleRate != incoming.sampleRate { return Some(TerminalConflict); }
      if stored.channels != incoming.channels { return Some(TerminalConflict); }
      if stored.codec != incoming.codec { return Some(TerminalConflict); }
      return None;
    }

    /** The transaction of `resultComplete`: the lease is checked again inside it. */
    method ResultComplete(who: Identity, req: CompleteRequest, transcript: Document, speakers: Document)
      returns (reply: Reply<Completed>)
      requires RefsOk(S()) && OneActiveRun(Q())
      modifies `jobs, `meetings, `runs, `versions, `uploads, `media
      ensures (S(), reply) == Complete(old(S()), who, req, transcript, speakers)
    {
      var a := AuthorizeLease(who, req.proof, true);
      if a.Refused? { return Refused(a.code); }
      var id := req.proof.job;
      var bad := ProbeError(id.stage, req.probe);
      if bad.Some? { return Refused(bad.value); }
      var u := U.UploadId(id, a.value.attempts);
      if u !in uploads { return Refused(InvalidTransition); }
      if a.value.status == Succeeded {
        var conflict := ComparePayload(u, req);
        if conflict.Some? { return Refused(conflict.value); }
        var next := FindNext(id);
        return Done(Completed(next, true, meetings[runs[id.run].meeting].activeTranscript));
      }
      reply := CloseLeased(u, req, transcript, speakers);
    }

    /**
     The part of `resultComplete` before its transaction: the object is confirmed and the
     artifacts are parsed. `objectOk` says whether the store holds the object with the size and
     checksum of the request, `parses` whether its artifact is well formed, `transcriptParses`
     whether the run's transcript still is. False in the reply means there is nothing left to close.
     */
    method PrepareComplete(who: Identity, req: CompleteRequest, objectOk: bool, parses: bool, transcriptParses: bool)
      returns (reply: Reply<bool>)
      requires RefsOk(S())
      modifies `uploads
      ensures (S(), reply) == Prepared(old(S()), who, req, objectOk, parses, transcriptParses)
    {
      var a := AuthorizeLease(who, req.proof, true);
      if a.Refused? { return Refused(a.code); }
      var id := req.proof.job;
      if meetings[runs[id.run].meeting].deletion != Live { return Refused(InvalidTransition); }
      var bad := ProbeError(id.stage, req.probe);
      if bad.Some? { return Refused(bad.value); }
      var u := U.UploadId(id, a.value.attempts);
      if u !in uploads { return Refused(InvalidTransition); }
      if a.value.status == Succeeded {
        var conflict := ComparePayload(u, req);
        return if conflict.Some? then Refused(conflict.value) else Done(false);
      }
      if uploads[u].state != U.Ingested && uploads[u].state != U.Verified {
        if !objectOk {
          uploads := uploads[u := U.MarkedRejected(uploads[u], "object_unconfirmed", now)];
          return Refused(ObjectUnconfirmed);
        }
        if uploads[u].declared.Some? && uploads[u].declared.value.checksum != req.content.checksum {
          uploads := uploads[u := U.MarkedRejected(uploads[u], "checksum_mismatch", now)];
          return Refused(ChecksumMismatch);
        }
        uploads := uploads[u := U.MarkedVerified(uploads[u], req.content, now)];
      }
      if id.stage != Normalize && !parses {
        uploads := uploads[u := U.MarkedRejected(uploads[u], "artifact_malformed", now)];
        return Refused(ArtifactMalformed);
      }
      if id.stage == Diarize {
        var found := FindTranscript(id.run);
        if !found { return Refused(InvalidTransition); }
        if !transcriptParses {
          uploads := uploads[u := U.MarkedRejected(uploads[u], "artifact_malformed", now)];
          return Refused(ArtifactMalformed);
        }
      }
      return Done(true);
    }

    // ---- Sweep, cancellation, deletion -----------------------------------------------------------

    /** `requeueExpiredLeases`: one UPDATE; only an internal maintenance credential may run it. */
    method RequeueExpiredLeases(who: Identity) returns (reply: Reply<(nat, nat)>)
      requires RefsOk(S())
      modifies `jobs
      ensures reply.Refused? <==> who.tenant.Some? || MaintenanceCap !in who.capabilities
      ensures S() == if reply.Done? then PipelineState.Sweep(old(S())) else old(S())
      ensures reply.Done? ==>
                && reply.value.0 == |set id | id in jobs && Expired(old(jobs)[id], now) && jobs[id].status == Queued|
                && reply.value.1 == |set id | id in jobs && Expired(old(jobs)[id], now) && jobs[id].status == Abandoned|
    {
      if who.tenant.Some? || MaintenanceCap !in who.capabilities { return Refused(NotFound); }
      var before := jobs;
      jobs := map id | id in jobs :: Swept(jobs[id], now);
      var requeued := set id | id in jobs && Expired(before[id], now) && jobs[id].status == Queued;
      var abandoned := set id | id in jobs && Expired(before[id], now) && jobs[id].status == Abandoned;
      return Done((|requeued|, |abandoned|));
    }

    /** The jobs of a meeting that a cancellation settles. */
    function Settles(m: Id): set<JobId>
      requires Linked(Q())
      reads this
    {
      set id | id in jobs && runs[id.run].meeting == m && Unsettled(jobs[id])
    }

    /** `cancelJobsForMeeting` and its count, and the cancelled outcome of the active run, if there is one. */
    method CancelJobsAndRun(m: Id) returns (count: nat)
      requires Linked(Q()) && OneActiveRun(Q())
      modifies `jobs, `runs
      ensures Q() == CancelAll(old(Q()), m) && count == |old(Settles(m))|
    {
      count := |Settles(m)|;
      var active := GetActiveRun(m);
      assert forall r | r in runs && Active(Q(), m, r) :: active == Some(r);
      jobs := map id | id in jobs :: if runs[id.run].meeting == m then MarkedCancelled(jobs[id]) else jobs[id];
      if active.Some? { FinishRun(active.value, RunCancelled); }
    }

    /** `cancelMeeting`; CancelIsStep says that this is the transaction of that name. */
    method CancelMeeting(tenant: Id, client: Id, m: Id) returns (reply: Reply<(bool, nat)>)
      requires Linked(Q()) && OneActiveRun(Q())
      modifies `meetings, `jobs, `runs
      ensures reply.Done? <==> InScope(old(S()), tenant, client, m)
      ensures reply.Done? ==>
                && reply.value == (!old(meetings)[m].cancelled, |old(Settles(m))|)
                && Q() == CancelAll(old(Q()), m) && meetings == old(meetings)[m := old(meetings)[m].(cancelled := true)]
      ensures reply.Refused? ==> S() == old(S()) && reply.code == NotFound
    {
      if m !in meetings || meetings[m].tenant != tenant || meetings[m].client != client { return Refused(NotFound); }
      var cancelled := !meetings[m].cancelled;
      meetings := meetings[m := meetings[m].(cancelled := true)];
      var count := CancelJobsAndRun(m);
      return Done((cancelled, count));
    }

    /** `max(put_expires_at)` over the uploads of a meeting. */
    method LatestPutExpiry(m: Id) returns (latest: Option<int>)
      requires RefsOk(S())
      ensures forall u | u in uploads && MeetingOfJob(S(), u.job) == m :: latest.Some? && uploads[u].putExpiresAt <= latest.value
      ensures latest.Some? ==> exists u | u in uploads && MeetingOfJob(S(), u.job) == m :: uploads[u].putExpiresAt == latest.value
    {
      latest := None;
      var seen: set<UploadId> := {};
      while seen != uploads.Keys
        invariant seen <= uploads.Keys
        invariant forall u | u in seen && runs[u.job.run].meeting == m :: latest.Some? && uploads[u].putExpiresAt <= latest.value
        invariant latest.Some? ==> exists u | u in seen && runs[u.job.run].meeting == m :: uploads[u].putExpiresAt == latest.value
        decreases |uploads.Keys - seen|
      {
        var u :| u in uploads.Keys - seen;
        assert u.job in jobs;
        if runs[u.job.run].meeting == m && (latest.None? || latest.value < uploads[u].putExpiresAt) {
          latest := Some(uploads[u].putExpiresAt);
        }
        seen := seen + {u};
      }
    }

    /** `requestMeetingDeletion` and `reserveDeletion`: the deadline, and whether this call reserved it. */
    method RequestDeletion(tenant: Id, client: Id, isMember: bool, m: Id) returns (reply: Reply<(Option<int>, bool)>)
      requires RefsOk(S())
      modifies `meetings
      ensures reply.Refused? <==> isMember || !InScope(old(S()), tenant, client, m)
      ensures reply.Refused? || !reply.value.1 ==> S() == old(S())
      ensures reply.Done? && !reply.value.1 ==>
                old(meetings)[m].deletion == Deleting && reply.value.0 == old(meetings)[m].deletionNotBefore
      ensures reply.Done? && reply.value.1 ==>
                && reply.value.0.Some? && IsDeadline(old(S()), m, reply.value.0.value)
                && old(meetings)[m].deletion != Deleting
                && S() == Reserve(old(S()), m, reply.value.0.value)
    {
      if isMember { return Refused(Forbidden); }
      if m !in meetings || meetings[m].tenant != tenant || meetings[m].client != client { return Refused(NotFound); }
      var row := meetings[m];
      if row.deletion == Deleting { return Done((row.deletionNotBefore, false)); }
      var artifacts := LatestPutExpiry(m);
      var original := if row.originalPutExpiresAt.Some? then row.originalPutExpiresAt.value
                      else if row.mediaState == MediaUploading then now + putTtl else now;
      var deadline := Max(Max(now, original), artifacts.GetOr(now));
      meetings := meetings[m := row.(deletion := Deleting, deletionNotBefore := Some(deadline))];
      return Done((Some(deadline), true));
    }
  }

  lemma CancelIsStep(s: State, t: State, m: Id)
    requires RefsOk(s) && m in s.meetings
    requires t == s.(queue := CancelAll(s.queue, m), meetings := s.meetings[m := s.meetings[m].(cancelled := true)])
    ensures t == PipelineState.Cancel(s, m)
  {
  }

  /** What `PrepareComplete` leaves. */
  function Prepared(s: State, who: Identity, req: CompleteRequest, objectOk: bool, parses: bool, transcriptParses: bool)
    : (State, Reply<bool>)
    requires RefsOk(s)
  {
    match Authorize(s, who, req.proof, true)
    case Refused(c) => (s, Refused(c))
    case Done(j) =>
      var u := U.UploadId(req.proof.job, j.attempts);
      if s.meetings[MeetingOfJob(s, u.job)].deletion != Live then (s, Refused(InvalidTransition))
      else if ProbeError(u.job.stage, req.probe).Some? then (s, Refused(ProbeError(u.job.stage, req.probe).value))
      else if u !in s.uploads then (s, Refused(InvalidTransition))
      else if j.status == Succeeded then
        (s, if PayloadError(s, u, req).Some? then Refused(PayloadError(s, u, req).value) else Done(false))
      else if U.Usable(s.uploads[u]) then Parsed(s, u, parses, transcriptParses)
      else if !objectOk then (RejectUpload(s, u, "object_unconfirmed"), Refused(ObjectUnconfirmed))
      else if s.uploads[u].declared.Some? && s.uploads[u].declared.value.checksum != req.content.checksum then
        (RejectUpload(s, u, "checksum_mismatch"), Refused(ChecksumMismatch))
      else Parsed(VerifyUpload(s, u, req.content), u, parses, transcriptParses)
  }

  function Parsed(s: State, u: UploadId, parses: bool, transcriptParses: bool): (State, Reply<bool>)
    requires RefsOk(s)
  {
    if u.job.stage != Normalize && !parses then (RejectUpload(s, u, "artifact_malformed"), Refused(ArtifactMalformed))
    else if u.job.stage != Diarize then (s, Done(true))
    else if !HasTranscript(s, u.job.run) then (s, Refused(InvalidTransition))
    else if !transcriptParses then (RejectUpload(s, u, "artifact_malformed"), Refused(ArtifactMalformed))
    else (s, Done(true))
  }

  lemma {:induction false} TwoSteps(s: State, x: Step, y: Step)
    requires RefsOk(s)
    ensures After(s, [x]) == Next(s, x) && After(s, [x, y]) == Next(Next(s, x), y)
  {
    assert [x][1..] == [] && [x, y][1..] == [y] && [y][1..] == [];
    assert After(Next(s, x), [y]) == After(Next(Next(s, x), y), []);
  }

  /** What `Parsed` does to a state is at most one rejection. */
  lemma ParsedIsStep(s: State, u: UploadId, parses: bool, transcriptParses: bool)
    requires RefsOk(s)
    ensures Parsed(s, u, parses, transcriptParses).0 in {s, RejectUpload(s, u, "artifact_malformed")}
  {
  }

  /** The preparation is made of steps of the protocol: nothing, a verdict, or a confirmation that the parser then rejects. */
  lemma {:induction false} PreparedIsSteps(s: State, who: Identity, req: CompleteRequest, objectOk: bool, parses: bool, transcriptParses: bool)
    returns (steps: seq<Step>)
    requires RefsOk(s)
    ensures |steps| <= 2 && forall i | 0 <= i < |steps| :: steps[i].DoVerify? || steps[i].DoReject?
    ensures After(s, steps) == Prepared(s, who, req, objectOk, parses, transcriptParses).0
  {
    hide RefsOk, After, Authorize, ProbeError, PayloadError, Parsed;
    var t := Prepared(s, who, req, objectOk, parses, transcriptParses).0;
    var u := U.UploadId(req.proof.job, req.proof.attempt);
    var bad := DoReject(u, "artifact_malformed");
    PreparedStates(s, who, req, objectOk, parses, transcriptParses);
    VerdictsAreSteps(s, u, req.content);
    if t == s {
      steps := [];
      NoStep(s);
    } else if t == VerifyUpload(s, u, req.content) {
      steps := [DoVerify(u, req.content)];
    } else if t == RejectUpload(VerifyUpload(s, u, req.content), u, "artifact_malformed") {
      steps := [DoVerify(u, req.content), bad];
    } else {
      var reason :| reason in REASONS && t == RejectUpload(s, u, reason);
      steps := [DoReject(u, reason)];
    }
  }

  const REASONS := {"object_unconfirmed", "checksum_mismatch", "artifact_malformed"}

  lemma NoStep(s: State)
    requires RefsOk(s)
    ensures After(s, []) == s
  {
  }

  lemma VerdictsAreSteps(s: State, u: UploadId, content: U.Digested)
    requires RefsOk(s)
    ensures After(s, [DoVerify(u, content)]) == VerifyUpload(s, u, content)
    ensures After(s, [DoVerify(u, content), DoReject(u, "artifact_malformed")]) == RejectUpload(VerifyUpload(s, u, content), u, "artifact_malformed")
    ensures forall reason | reason in REASONS :: After(s, [DoReject(u, reason)]) == RejectUpload(s, u, reason)
  {
    hide After, RefsOk, VerifyUpload, RejectUpload;
    TwoSteps(s, DoVerify(u, content), DoReject(u, "artifact_malformed"));
    forall reason | reason in REASONS ensures After(s, [DoReject(u, reason)]) == RejectUpload(s, u, reason) {
      TwoSteps(s, DoReject(u, reason), DoReject(u, reason));
    }
  }

  lemma PreparedStates(s: State, who: Identity, req: CompleteRequest, objectOk: bool, parses: bool, transcriptParses: bool)
    requires RefsOk(s)
    ensures var t := Prepared(s, who, req, objectOk, parses, transcriptParses).0;
            var u := U.UploadId(req.proof.job, req.proof.attempt);
            || t == s || t == VerifyUpload(s, u, req.content)
            || t == RejectUpload(VerifyUpload(s, u, req.content), u, "artifact_malformed")
            || exists reason | reason in REASONS :: t == RejectUpload(s, u, reason)
  {
    var u := U.UploadId(req.proof.job, req.proof.attempt);
    var verified := VerifyUpload(s, u, req.content);
    ParsedIsStep(s, u, parses, transcriptParses);
    ParsedIsStep(verified, u, parses, transcriptParses);
    assert "object_unconfirmed" in REASONS && "checksum_mismatch" in REASONS && "artifact_malformed" in REASONS;
  }

  /**
   A `complete` that is let through to its transaction has a verified upload exactly when the
   row was verified already or freshly declared: a rejected row is confirmed against the store
   but not marked, and an already verified one is not compared with the request again.
   */
  lemma PreparedVerifiesIff(s: State, who: Identity, req: CompleteRequest, objectOk: bool, parses: bool,
                            transcriptParses: bool)
    requires RefsOk(s) && Prepared(s, who, req, objectOk, parses, transcriptParses).1 == Done(true)
    ensures var u := U.UploadId(req.proof.job, req.proof.attempt);
            var t := Prepared(s, who, req, objectOk, parses, transcriptParses).0;
            && u in s.uploads && u in t.uploads
            && (U.Usable(t.uploads[u]) <==> U.Usable(s.uploads[u]) || s.uploads[u].state == U.Uploaded)
            && (s.uploads[u].state == U.Uploaded ==> objectOk && t.uploads[u].observed == Some(req.content))
            && (U.Usable(s.uploads[u]) ==> t == s)
  {
  }
}
