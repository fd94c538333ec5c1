/**
 What the transactions write, field by field, and when they refuse, in terms of the rows alone.
 */
module RowEffects {
  import opened Common
  import opened JobRows
  import opened JobQueue
  import opened QueueInvariant
  import opened PipelineState
  import opened PipelineInvariant
  import opened QueueProgress
  import opened PipelineProgress
  import opened RunInvariant
  import opened PipelineTraces
  import opened LeaseSafety
  import opened Replays
  import opened Tenants
  import opened LeaseTime
  import U = UploadRows

  // ---- Requests on a lease ------------------------------------------------------------------------

  /** The job exists, is of the worker's tenant and was last claimed by this credential. */
  predicate IsTheirs(s: State, who: Identity, id: JobId)
    requires RefsOk(s)
  {
    && id in s.queue.jobs && s.queue.jobs[id].credential == Some(who.credential)
    && (who.tenant == None || who.tenant == Some(s.meetings[MeetingOfJob(s, id)].tenant))
  }

  /** A stranger learns nothing, not even that the job exists; its own worker is told what is wrong, the attempt first. */
  lemma AuthorizeAnswers(s: State, who: Identity, proof: Proof, allowTerminal: bool)
    requires RefsOk(s)
    ensures var a := Authorize(s, who, proof, allowTerminal);
            && (a == Refused(NotFound) <==> !IsTheirs(s, who, proof.job))
            && (IsTheirs(s, who, proof.job) ==>
                  var j := s.queue.jobs[proof.job];
                  var (current, closed, held) := (j.attempts == proof.attempt, j.status == Succeeded || j.status == Failed,
                                                  j.status == Leased || j.status == UploadingResult);
                  var token := j.tokenHash == Some(TokenHash(proof.secret, proof.job, proof.attempt, who.credential));
                  var late := j.leaseExpiresAt.Some? && j.leaseExpiresAt.value <= s.now;
                  && (a == Refused(AttemptStale) <==> !current)
                  && (a == Refused(InvalidTransition) <==> current && !held && !(closed && allowTerminal))
                  && (a == Refused(LeaseInvalid) <==> current && held && !token)
                  && (a == Refused(LeaseExpired) <==> current && held && token && late)
                  && (a == Done(j) <==> current && ((closed && allowTerminal) || (held && token && !late))))
  {
  }

  /**
   `result/init` under a proven lease: a URL for the artifact of this attempt is handed out, its
   expiry and what was declared are on the upload's row, and the job says that it is uploading.
   A verified or ingested row is left as it was.
   */
  lemma ResultInitWrites(s: State, who: Identity, proof: Proof, declared: U.Digested)
    requires RefsOk(s)
    ensures var ((t, reply), id, u) := (ResultInit(s, who, proof, declared), proof.job, U.UploadId(proof.job, proof.attempt));
            && (reply.Done? <==>
                  && LeaseProven(s, who, proof) && s.meetings[MeetingOfJob(s, id)].deletion == Live
                  && declared.bytes > 0 && (who.maxBytes == None || declared.bytes <= who.maxBytes.value))
            && (reply.Refused? ==> t == s)
            && (reply.Done? ==>
                  && id in t.queue.jobs && u in t.uploads
                  && reply.value == PutUrl(Artifact(MeetingOfJob(s, id), u), s.now + s.putTtl) && t.urls == s.urls + {reply.value}
                  && t.queue == s.queue.(jobs := s.queue.jobs[id := s.queue.jobs[id].(status := UploadingResult)])
                  && t.uploads == s.uploads[u := t.uploads[u]]
                  && (if u in s.uploads && (s.uploads[u].state == U.Verified || s.uploads[u].state == U.Ingested) then t.uploads[u] == s.uploads[u]
                      else
                        && t.uploads[u].state == U.Uploaded && t.uploads[u].putExpiresAt == s.now + s.putTtl
                        && t.uploads[u].declared == Some(declared) && t.uploads[u].observed == None && t.uploads[u].uploadedAt == Some(s.now)
                        && t.uploads[u].rejectCode == None))
  {
    hide HasTranscript;
    if Authorize(s, who, proof, false).Done? {
      assert LeaseProven(s, who, proof);
      assert MarkedUploading(s.queue.jobs[proof.job]) == s.queue.jobs[proof.job].(status := UploadingResult);
    }
  }

  // ---- fail -----------------------------------------------------------------------------------------

  /** The row of a failure: the cause is kept, cut to two thousand characters, the lease is let go; the holder too, if there is another try. */
  predicate FailedRow(j: Job, k: Job, code: string, detail: Option<string>, retryAt: int)
  {
    var again := j.attempts < j.maxAttempts;
    && k.status == (if again then Queued else Failed) && k.attempts == j.attempts && k.maxAttempts == j.maxAttempts
    && k.nextAttemptAt == retryAt && k.tokenHash == None && k.leaseExpiresAt == None
    && k.credential == (if again then None else j.credential)
    && k.failureCode == Some(code)
    && (detail.None? ==> k.failureDetail == None)
    && (detail.Some? ==> k.failureDetail.Some? && k.failureDetail.value <= detail.value
                         && |k.failureDetail.value| == if |detail.value| < 2000 then |detail.value| else 2000)
  }

  lemma MarkedFailedRow(j: Job, code: string, detail: Option<string>, retryAt: int)
    requires HoldsLease(j)
    ensures FailedRow(j, MarkedFailed(j, code, KeptDetail(detail), retryAt), code, detail, retryAt)
  {
  }

  /** A `fail` under a proven lease: with attempts left the job goes back to the queue, and that is all; otherwise it has failed. */
  lemma FailWritesRow(s: State, who: Identity, proof: Proof, code: string, detail: Option<string>, retryAt: int, reread: Option<Document>)
    requires RefsOk(s) && LeaseProven(s, who, proof) && 0 < |code| <= 80
    ensures var ((t, reply), id, j) := (Fail(s, who, proof, code, detail, retryAt, reread), proof.job, s.queue.jobs[proof.job]);
            && (reply == Done(true) <==> j.attempts < j.maxAttempts)
            && (reply.Done? ==> id in t.queue.jobs && FailedRow(j, t.queue.jobs[id], code, detail, retryAt))
            && (reply == Done(true) ==> t == s.(queue := s.queue.(jobs := s.queue.jobs[id := t.queue.jobs[id]])))
  {
    hide FailedRow, Resolve, HasTranscript, RefsOk, IngestUploads, GivenUp;
    var (id, j) := (proof.job, s.queue.jobs[proof.job]);
    var k := MarkedFailed(j, code, KeptDetail(detail), retryAt);
    RefsAreLinked(s);
    MarkedFailedRow(j, code, detail, retryAt);
    ResolveLeavesRow(s.queue, id, k, code, reread.GetOr(0), HasTranscript(s, id.run));
  }

  /** A verified transcript of the run is at hand. */
  predicate TranscriptAtHand(s: State, r: Id)
  {
    exists u :: u in s.uploads && u.job.run == r && u.job.stage == Transcribe && (s.uploads[u].state == U.Verified || s.uploads[u].state == U.Ingested)
  }

  lemma AtHandIs(s: State, r: Id)
    ensures HasTranscript(s, r) <==> TranscriptAtHand(s, r)
  {
    if HasTranscript(s, r) {
      var u :| u in s.uploads && u.job == JobId(r, Transcribe) && U.Usable(s.uploads[u]);
    }
    if TranscriptAtHand(s, r) {
      var u :| u in s.uploads && u.job.run == r && u.job.stage == Transcribe && (s.uploads[u].state == U.Verified || s.uploads[u].state == U.Ingested);
      assert u.job == JobId(r, Transcribe);
    }
  }

  /**
   What a job's last failure makes of its meeting: a failed `diarize` leaves the transcript ready, if
   there is one, every other failure leaves it failed, and the warning names the stage and the cause.
   A `diarize` whose stored transcript no longer parses cannot give up.
   */
  lemma LastFailureTells(s: State, who: Identity, proof: Proof, code: string, detail: Option<string>, retryAt: int, reread: Option<Document>)
    requires RefsOk(s) && LeaseProven(s, who, proof) && 0 < |code| <= 80
    requires s.queue.jobs[proof.job].attempts >= s.queue.jobs[proof.job].maxAttempts
    ensures var ((t, reply), m) := (Fail(s, who, proof, code, detail, retryAt, reread), MeetingOfJob(s, proof.job));
            var (row, atHand) := (s.meetings[m], TranscriptAtHand(s, proof.job.run));
            if proof.job.stage == Diarize && atHand && reread == None then t == s && reply == Refused(ArtifactMalformed)
            else
              && reply == Done(false) && t.urls == s.urls && t.objects == s.objects
              && t.meetings == s.meetings[m :=
                   if proof.job.stage != Diarize then
                     row.(transcriptState := Failing, warnings := row.warnings + [StageFailed(proof.job.stage, code)])
                   else if atHand then
                     row.(transcriptState := Ready, diarizationState := Failing, activeTranscript := Some(proof.job.run),
                          warnings := row.warnings + [DiarizationFailed(code)])
                   else
                     row.(transcriptState := Failing, diarizationState := Failing, warnings := row.warnings + [TranscriptMissing])]
  {
    hide TranscriptAtHand, HasTranscript, Resolve, RefsOk;
    AtHandIs(s, proof.job.run);
  }

  // ---- The sweep and the cancellation ------------------------------------------------------------------

  /** The sweep takes exactly the leases that have expired; with attempts left the job is due again at once. */
  lemma SweepWrites(s: State, id: JobId)
    requires RefsOk(s) && id in s.queue.jobs
    ensures var (t, j) := (Sweep(s), s.queue.jobs[id]);
            && t == s.(queue := s.queue.(jobs := t.queue.jobs)) && t.queue.jobs.Keys == s.queue.jobs.Keys
            && (if HoldsLease(j) && j.leaseExpiresAt.Some? && j.leaseExpiresAt.value < s.now then
                  t.queue.jobs[id] ==
                    if j.attempts < j.maxAttempts then
                      j.(status := Queued, tokenHash := None, leaseExpiresAt := None, credential := None, nextAttemptAt := s.now)
                    else
                      j.(status := Abandoned, tokenHash := None, leaseExpiresAt := None, failureCode := Some("lease_expired"), nextAttemptAt := s.now)
                else t.queue.jobs[id] == j)
  {
  }

  /** A job the sweep put back can be claimed in the same instant by any worker of the tenant. */
  lemma SweptIsTakable(s: State, who: Identity, id: JobId)
    requires RefsOk(s) && id in s.queue.jobs && HoldsLease(s.queue.jobs[id]) && Sweep(s).queue.jobs[id].status == Queued
    requires TranscribeCap in who.capabilities && s.meetings[MeetingOfJob(s, id)].deletion == Live
    requires who.tenant == None || who.tenant == Some(s.meetings[MeetingOfJob(s, id)].tenant)
    ensures Takable(Sweep(s), who, id)
  {
    hide Sweep, RefsOk;
    SweepWrites(s, id);
    assert MeetingOfJob(Sweep(s), id) == MeetingOfJob(s, id);
  }

  /** A cancellation settles the meeting's waiting and leased jobs and its unfinished runs, and nothing of any other meeting. */
  lemma CancelWrites(s: State, m: Id, id: JobId, r: Id)
    requires RefsOk(s) && m in s.meetings && id in s.queue.jobs && r in s.queue.runs
    ensures var (t, j, run) := (Cancel(s, m), s.queue.jobs[id], s.queue.runs[r]);
            && t.meetings == s.meetings[m := s.meetings[m].(cancelled := true)]
            && t.queue.jobs.Keys == s.queue.jobs.Keys && t.queue.runs.Keys == s.queue.runs.Keys
            && t.queue.media == s.queue.media && t.queue.versions == s.queue.versions && t.uploads == s.uploads && t.urls == s.urls
            && t.queue.jobs[id] == (if MeetingOfJob(s, id) == m && (j.status == Queued || j.status == Leased || j.status == UploadingResult)
                                    then j.(status := Cancelled, tokenHash := None, leaseExpiresAt := None) else j)
            && t.queue.runs[r] == (if run.meeting == m && run.outcome == None then run.(outcome := Some(RunCancelled)) else run)
  {
  }

  // ---- The application's upload --------------------------------------------------------------------------

  /**
   A URL for the original is handed out exactly to the meeting's own tenant and client, while the
   meeting is live, not cancelled and without its medium; the row remembers the latest expiry of all.
   */
  lemma UploadInitWrites(s: State, tenant: Id, client: Id, m: Id)
    requires RefsOk(s)
    ensures var (t, reply) := UploadInit(s, tenant, client, m);
            && (reply == Refused(NotFound) <==> m !in s.meetings || s.meetings[m].tenant != tenant || s.meetings[m].client != client)
            && (reply.Done? <==>
                  && m in s.meetings && s.meetings[m].tenant == tenant && s.meetings[m].client == client
                  && s.meetings[m].deletion == Live && !s.meetings[m].cancelled && s.meetings[m].mediaState != MediaReady)
            && (reply.Refused? ==> t == s)
            && (reply.Done? ==>
                  var (row, expiry) := (s.meetings[m], s.now + s.putTtl);
                  && reply.value == PutUrl(Original(m), expiry) && t == s.(meetings := t.meetings, urls := s.urls + {reply.value})
                  && t.meetings == s.meetings[m := row.(mediaState := MediaUploading, originalPutExpiresAt :=
                       Some(if row.originalPutExpiresAt.Some? && expiry < row.originalPutExpiresAt.value then row.originalPutExpiresAt.value else expiry))])
  {
  }

  /** A new row waits for its first attempt, is due at once, and is nobody's. */
  predicate Waits(j: Job, now: int)
  {
    && j.status == Queued && j.attempts == 0 && j.maxAttempts == 3 && j.nextAttemptAt == now
    && j.credential == None && j.failureCode == None && j.tokenHash == None && j.leaseExpiresAt == None
  }

  /** The upload is confirmed: the meeting has its medium, and one unfinished run with a first job, the active one if there was one. */
  lemma UploadCommitWrites(s: State, m: Id, r: Id)
    requires RefsOk(s) && m in s.meetings && r !in s.usedRuns
    ensures var (t, active) := (UploadCommit(s, m, r), ActiveRun(s.queue, m));
            var run := active.GetOr(r);
            && t.meetings == s.meetings[m := s.meetings[m].(mediaState := MediaReady, hasOriginal := true)]
            && Active(t.queue, m, run) && JobId(run, Normalize) in t.queue.jobs
            && (active.None? ==>
                  && t.queue.runs == s.queue.runs[r := Run(m, None, None)] && t.usedRuns == s.usedRuns + {r}
                  && t.queue.jobs == s.queue.jobs[JobId(r, Normalize) := t.queue.jobs[JobId(r, Normalize)]]
                  && Waits(t.queue.jobs[JobId(r, Normalize)], s.now))
            && (active.Some? && JobId(run, Normalize) in s.queue.jobs ==> t.queue == s.queue && t.usedRuns == s.usedRuns)
  {
    hide ActiveRun;
    assert r !in s.queue.runs;
    var active := ActiveRun(s.queue, m);
    if active.None? { assert forall g: Stage :: JobId(r, g) !in s.queue.jobs; }
  }

  // ---- complete ---------------------------------------------------------------------------------------------

  /** What an accepted `complete` brings: for `normalize` 16 kHz mono 16-bit PCM, for the others no probe; and its upload is on record. */
  lemma AcceptedBrings(s: State, who: Identity, req: CompleteRequest, transcript: Document, speakers: Document)
    requires RefsOk(s) && Complete(s, who, req, transcript, speakers).1.Done?
    ensures U.UploadId(req.proof.job, req.proof.attempt) in s.uploads
    ensures req.proof.job.stage == Normalize ==>
              req.probe.Some? && req.probe.value.sampleRate == 16000 && req.probe.value.channels == 1 && req.probe.value.codec == "pcm_s16le"
    ensures req.proof.job.stage != Normalize ==> req.probe == None
  {
    hide CloseJob, PayloadError;
  }

  lemma NewVersionMeans(q: Queue, u: U.UploadId, result: Result, usable: bool, now: int)
    requires Linked(q) && u.job in q.jobs && u.job.run !in q.versions && u.job.run in Close(q, u, result, usable, now).versions
    ensures usable && u.job.stage != Normalize && u.job.run in q.runs
    ensures u.job.stage == Transcribe ==> !WantsDiarization(q, q.runs[u.job.run].meeting)
  {
    match u.job.stage { case Normalize => case Transcribe => case Diarize => }
  }

  /** With a new version, exactly the verified uploads of its run become ingested, now. */
  lemma VersionIngestsUploads(s: State, u: UploadId, req: CompleteRequest, transcript: Document, speakers: Document, v: UploadId)
    requires RefsOk(s) && u in s.uploads && u.job in s.queue.jobs && v in s.uploads
    requires u.job.run !in s.queue.versions && u.job.run in CloseJob(s, u, req, transcript, speakers).0.queue.versions
    ensures var (t, row) := (CloseJob(s, u, req, transcript, speakers).0, s.uploads[v]);
            && v in t.uploads
            && t.uploads[v] == if v.job.run == u.job.run && row.state == U.Verified
                               then row.(state := U.Ingested, ingestedAt := Some(row.ingestedAt.GetOr(s.now))) else row
  {
    hide HasTranscript, Close, CloseJob, WantsDiarization, RefsOk;
    RefsAreLinked(s);
    CloseJobWrites(s, u, req, transcript, speakers);
    CloseJobUploads(s, u, req, transcript, speakers);
    NewVersionMeans(s.queue, u, ResultOf(req, transcript, speakers), HasTranscript(s, u.job.run), s.now);
  }

  lemma CloseJobUploads(s: State, u: UploadId, req: CompleteRequest, transcript: Document, speakers: Document)
    requires RefsOk(s) && u in s.uploads && u.job in s.queue.jobs
    ensures CloseJob(s, u, req, transcript, speakers).0.uploads == ClosedUploads(s, u, speakers)
  {
    hide Close, HasTranscript, ClosedUploads;
  }

  /**
   What an accepted `complete` makes of the meeting's row: nothing while the run goes on; at its end
   the transcript is ready, with its speakers unless none were asked for, or it is missing.
   */
  lemma CloseTellsMeeting(s: State, u: UploadId, req: CompleteRequest, transcript: Document, speakers: Document)
    requires RefsOk(s) && u in s.uploads && u.job in s.queue.jobs
    ensures var ((t, reply), m) := (CloseJob(s, u, req, transcript, speakers), MeetingOfJob(s, u.job));
            && reply.Done? && t.urls == s.urls && t.objects == s.objects
            && t.meetings ==
                 if reply.value.nextJob.Some? then s.meetings
                 else if TranscriptAtHand(s, u.job.run) then
                   s.meetings[m := s.meetings[m].(transcriptState := Ready, diarizationState := if u.job.stage == Diarize then Ready else Skipped,
                                                  activeTranscript := Some(u.job.run))]
                 else
                   s.meetings[m := s.meetings[m].(transcriptState := Failing, warnings := s.meetings[m].warnings + [TranscriptMissing])]
  {
    hide TranscriptAtHand, HasTranscript, Close, ClosedUploads, RefsOk, WantsDiarization, ResultOf;
    AtHandIs(s, u.job.run);
    assert s.meetings[MeetingOfJob(s, u.job)].warnings + [] == s.meetings[MeetingOfJob(s, u.job)].warnings;
  }

  /** A closed `normalize` ingests its own upload alone. */
  lemma NormalizeIngestsUpload(s: State, u: UploadId, req: CompleteRequest, transcript: Document, speakers: Document)
    requires RefsOk(s) && u in s.uploads && u.job in s.queue.jobs && u.job.stage == Normalize
    ensures var (t, row) := (CloseJob(s, u, req, transcript, speakers).0, s.uploads[u]);
            t.uploads == s.uploads[u := if row.state == U.Verified
                                        then row.(state := U.Ingested, ingestedAt := Some(row.ingestedAt.GetOr(s.now))) else row]
  {
    hide Close, HasTranscript, CloseJob, RefsOk;
    CloseJobUploads(s, u, req, transcript, speakers);
  }

  // ---- The wait before the next try -----------------------------------------------------------------------------

  /** The job waits for its next try until then, or has been settled, or is gone with its run. */
  predicate Resting(s: State, id: JobId, attempts: nat, until: int)
  {
    && id.run in s.usedRuns
    && (|| id.run !in s.queue.runs
        || (id in s.queue.jobs
            && var j := s.queue.jobs[id];
               j.attempts == attempts && (!Unsettled(j) || (j.status == Queued && j.nextAttemptAt == until))))
  }

  lemma RestingStays(s: State, step: Step, id: JobId, attempts: nat, until: int)
    requires RefsOk(s) && Resting(s, id, attempts, until) && s.now < until
    ensures Resting(Next(s, step), id, attempts, until)
  {
    hide RefsOk, Next;
    NextProgress(s, step);
    var t := Next(s, step);
    if id.run in t.queue.runs {
      assert id.run in s.queue.runs && id in t.queue.jobs;
      assert RowNext(s.queue.jobs[id], t.queue.jobs[id]);
      if !MayMove(s, step, id) {
        JobsMoveOnlyByRight(s, step, id);
      } else {
        assert step.DoCancel?;
        CancelledRow(s, step.m, id);
      }
    }
  }

  lemma CancelledRow(s: State, m: Id, id: JobId)
    requires RefsOk(s) && id in s.queue.jobs && m == MeetingOfJob(s, id)
    ensures id in Next(s, DoCancel(m)).queue.jobs
    ensures var (j, k) := (s.queue.jobs[id], Next(s, DoCancel(m)).queue.jobs[id]);
            k.attempts == j.attempts && !Unsettled(k)
  {
    hide Cancel;
    JobsKnowRuns(s, id);
    CancelWrites(s, m, id, id.run);
  }

  lemma {:induction false} RestingLasts(s: State, steps: seq<Step>, id: JobId, attempts: nat, until: int)
    requires RefsOk(s) && Resting(s, id, attempts, until) && After(s, steps).now < until
    ensures Resting(After(s, steps), id, attempts, until)
    decreases |steps|
  {
    if steps != [] {
      hide Next, RefsOk, Resting;
      TimeGoesOn(s, steps);
      RestingStays(s, steps[0], id, attempts, until);
      TimeGoesOn(Next(s, steps[0]), steps[1..]);
      RestingLasts(Next(s, steps[0]), steps[1..], id, attempts, until);
    }
  }

  /** A job that failed with attempts left is claimed by nobody before its retry time, whatever happens meanwhile. */
  lemma NobodyRetriesEarly(s: State, who: Identity, proof: Proof, code: string, detail: Option<string>, retryAt: int,
                           reread: Option<Document>, steps: seq<Step>, other: Identity)
    requires RefsOk(s) && LeaseProven(s, who, proof) && Fail(s, who, proof, code, detail, retryAt, reread).1 == Done(true)
    ensures var t := After(Fail(s, who, proof, code, detail, retryAt, reread).0, steps);
            t.now < retryAt ==>
              && (proof.job in t.queue.jobs ==> t.queue.jobs[proof.job].attempts == proof.attempt)
              && !Takable(t, other, proof.job)
  {
    hide Fail, After, FailedRow, RefsOk;
    var first := Fail(s, who, proof, code, detail, retryAt, reread).0;
    RequeuedWaits(s, who, proof, code, detail, retryAt, reread);
    if After(first, steps).now < retryAt {
      RestingLasts(first, steps, proof.job, proof.attempt, retryAt);
      if proof.job in After(first, steps).queue.jobs { JobsKnowRuns(After(first, steps), proof.job); }
    }
  }

  lemma RequeuedWaits(s: State, who: Identity, proof: Proof, code: string, detail: Option<string>, retryAt: int, reread: Option<Document>)
    requires RefsOk(s) && LeaseProven(s, who, proof) && Fail(s, who, proof, code, detail, retryAt, reread).1 == Done(true)
    ensures Resting(Fail(s, who, proof, code, detail, retryAt, reread).0, proof.job, proof.attempt, retryAt)
  {
    hide Fail;
    CodeIsGood(s, who, proof, code, detail, retryAt, reread);
    FailWritesRow(s, who, proof, code, detail, retryAt, reread);
    JobsKnowRuns(s, proof.job);
  }

  lemma CodeIsGood(s: State, who: Identity, proof: Proof, code: string, detail: Option<string>, retryAt: int, reread: Option<Document>)
    requires RefsOk(s) && Fail(s, who, proof, code, detail, retryAt, reread).1.Done?
    ensures 0 < |code| <= 80
  {
    hide FailJob, Authorize;
  }

  lemma JobsKnowRuns(s: State, id: JobId)
    requires RefsOk(s) && id in s.queue.jobs
    ensures id.run in s.queue.runs && id.run in s.usedRuns
  {
  }
}
