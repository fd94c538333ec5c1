/**
 A finished run tells the truth: its outcome, its transcript version and the meeting's own
 row say the same, in the very transaction that finishes it; and when no outcome ever comes.
 */
module OutcomeTruth {
  import opened Common
  import opened JobRows
  import opened JobQueue
  import opened QueueInvariant
  import opened QueueProgress
  import opened PipelineState
  import opened PipelineInvariant
  import opened PipelineProgress
  import opened PipelineTraces
  import opened LeaseSafety
  import opened RunInvariant
  import U = UploadRows

  /** The meeting's row after run `r` of it ended with `o`; `was` is the row before. */
  predicate RowTells(was: Meeting, row: Meeting, r: Id, o: Outcome, version: Option<Version>)
  {
    match o
    case RunSucceeded =>
      && version.Some? && row.transcriptState == Ready && row.activeTranscript == Some(r)
      && row.diarizationState == (if version.value.speakers.Some? then Ready else Skipped)
      && row.warnings == was.warnings
    case RunPartial =>
      && version.Some? && row.transcriptState == Ready && row.activeTranscript == Some(r)
      && version.value.speakers.None? && row.diarizationState == Failing
      && |row.warnings| == |was.warnings| + 1 && row.warnings[..|was.warnings|] == was.warnings
      && row.warnings[|was.warnings|].DiarizationFailed?
    case RunFailed =>
      && version.None? && row.transcriptState == Failing && row.activeTranscript == was.activeTranscript
      && |row.warnings| == |was.warnings| + 1
    case RunCancelled => version.None? && row.cancelled && row.activeTranscript == was.activeTranscript
  }

  function VersionAt(q: Queue, r: Id): Option<Version> { if r in q.versions then Some(q.versions[r]) else None }

  /** Run `r` has ended in `t` and everything about it agrees. */
  predicate EndTells(s: State, t: State, r: Id)
    requires RefsOk(s) && RefsOk(t) && r in s.queue.runs && r in t.queue.runs
  {
    && s.queue.runs[r].meeting in t.meetings
    && (t.queue.runs[r].outcome.Some? ==>
          RowTells(s.meetings[s.queue.runs[r].meeting], t.meetings[s.queue.runs[r].meeting], r,
                   t.queue.runs[r].outcome.value, VersionAt(t.queue, r)))
  }

  /** Run `r` ends in the queue with this outcome and version, or goes on when there is none. */
  predicate Ends(q: Queue, t: Queue, r: Id, o: Option<Outcome>, version: Option<Version>)
    requires r in q.runs
  {
    r in t.runs && t.runs[r] == q.runs[r].(outcome := o) && VersionAt(t, r) == version
  }

  predicate Unended(q: Queue, r: Id) { r in q.runs && q.runs[r].outcome.None? && r !in q.versions }

  lemma ResolveEnds(q: Queue, id: JobId, j: Job, code: string, transcript: Document, usable: bool, r: Id)
    requires Linked(q) && id in q.jobs && Unended(q, r)
    ensures var t := Resolve(PutJob(q, id, j), id, code, transcript, usable);
            if r != id.run then Ends(q, t, r, None, None)
            else if id.stage == Diarize && usable then Ends(q, t, r, Some(RunPartial), Some(Version(transcript, None)))
            else Ends(q, t, r, Some(RunFailed), None)
  {
  }

  lemma IngestEnds(q: Queue, id: JobId, j: Job, how: DiarizationOutcome, transcript: Document, usable: bool, r: Id)
    requires Linked(q) && id in q.jobs && Unended(q, r) && !how.GaveUp?
    ensures var t := Ingest(PutJob(q, id, j), id.run, how, transcript, usable);
            if r != id.run then Ends(q, t, r, None, None)
            else if usable then Ends(q, t, r, Some(RunSucceeded), Some(Version(transcript, if how.Aligned? then Some(how.speakers) else None)))
            else Ends(q, t, r, Some(RunFailed), None)
  {
  }

  /** How a close goes on or ends, by its stage and by what its run asked for. */
  ghost function ClosedWith(q: Queue, u: UploadId, result: Result): Option<DiarizationOutcome>
    requires Linked(q) && u.job in q.jobs
  {
    match u.job.stage
    case Normalize => None
    case Transcribe => if WantsDiarization(q, q.runs[u.job.run].meeting) then None else Some(NotAsked)
    case Diarize => Some(Aligned(result.speakers))
  }

  lemma {:induction false} CloseEnds(q: Queue, u: UploadId, result: Result, usable: bool, now: int, r: Id)
    requires Linked(q) && u.job in q.jobs && Unended(q, r)
    ensures var t := Close(q, u, result, usable, now);
            var how := ClosedWith(q, u, result);
            if r != u.job.run || how.None? then Ends(q, t, r, None, None)
            else if usable then
              Ends(q, t, r, Some(RunSucceeded), Some(Version(result.transcript, if how.value.Aligned? then Some(how.value.speakers) else None)))
            else Ends(q, t, r, Some(RunFailed), None)
  {
    var k := MarkedSucceeded(q.jobs[u.job]);
    match u.job.stage
    case Normalize =>
    case Transcribe =>
      if !WantsDiarization(q, q.runs[u.job.run].meeting) {
        IngestEnds(q, u.job, k, NotAsked, result.transcript, usable, r);
      }
    case Diarize => IngestEnds(q, u.job, k, Aligned(result.speakers), result.transcript, usable, r);
  }

  lemma {:induction false} FailJobTells(s: State, id: JobId, j: Job, code: string, reread: Option<Document>, r: Id)
    requires RefsOk(s) && id in s.queue.jobs && Unended(s.queue, r)
    ensures r in FailJob(s, id, j, code, reread).0.queue.runs
    ensures EndTells(s, FailJob(s, id, j, code, reread).0, r)
  {
    if FailJob(s, id, j, code, reread).0 != s && j.status != Queued {
      ResolveEnds(s.queue, id, j, code, reread.GetOr(0), HasTranscript(s, id.run), r);
    }
  }

  lemma {:induction false} CloseJobTells(s: State, u: UploadId, req: CompleteRequest, transcript: Document, speakers: Document, r: Id)
    requires RefsOk(s) && u in s.uploads && Unended(s.queue, r)
    ensures r in CloseJob(s, u, req, transcript, speakers).0.queue.runs
    ensures EndTells(s, CloseJob(s, u, req, transcript, speakers).0, r)
  {
    CloseEnds(s.queue, u, ResultOf(req, transcript, speakers), HasTranscript(s, u.job.run), s.now, r);
  }

  lemma {:induction false} FailTells(s: State, who: Identity, proof: Proof, code: string, detail: Option<string>,
                                     retryAt: int, reread: Option<Document>, r: Id)
    requires RefsOk(s) && Unended(s.queue, r)
    ensures r in Fail(s, who, proof, code, detail, retryAt, reread).0.queue.runs
    ensures EndTells(s, Fail(s, who, proof, code, detail, retryAt, reread).0, r)
  {
    var a := Authorize(s, who, proof, true);
    if a.Done? && !Terminal(a.value) {
      FailJobTells(s, proof.job, MarkedFailed(a.value, code, KeptDetail(detail), retryAt), code, reread, r);
    }
  }

  lemma {:induction false} CompleteTells(s: State, who: Identity, req: CompleteRequest, transcript: Document, speakers: Document, r: Id)
    requires RefsOk(s) && Unended(s.queue, r)
    ensures r in Complete(s, who, req, transcript, speakers).0.queue.runs
    ensures EndTells(s, Complete(s, who, req, transcript, speakers).0, r)
  {
    var a := Authorize(s, who, req.proof, true);
    if a.Done? {
      var u := U.UploadId(req.proof.job, a.value.attempts);
      if u in s.uploads { CloseJobTells(s, u, req, transcript, speakers, r); }
    }
  }

  lemma LeaseStepsEndNothing(s: State, who: Identity, proof: Proof, leaseMs: nat, declared: U.Digested, r: Id)
    requires RefsOk(s) && Unended(s.queue, r)
    ensures Unended(Heartbeat(s, who, proof, leaseMs).0.queue, r)
    ensures Unended(ResultInit(s, who, proof, declared).0.queue, r)
  {
  }

  lemma ClaimEndsNothing(s: State, who: Identity, id: JobId, secret: string, leaseMs: nat, r: Id)
    requires RefsOk(s) && Unended(s.queue, r)
    ensures Unended(Claim(s, who, id, secret, leaseMs).queue, r)
  {
  }

  lemma StartsEndNothing(s: State, m: Id, p: Id, diarize: Option<bool>, r: Id)
    requires RefsOk(s) && Unended(s.queue, r)
    ensures Unended(UploadCommit(s, m, p).queue, r) && Unended(StartRun(s, m, p, diarize).queue, r)
  {
  }

  /** A run that goes on has nothing to tell. */
  lemma GoingOnTells(s: State, t: State, r: Id)
    requires RefsOk(s) && RefsOk(t) && Progress(s, t) && r in s.queue.runs && r in t.queue.runs && t.queue.runs[r].outcome.None?
    ensures EndTells(s, t, r)
  {
    assert t.queue.runs[r].meeting == s.queue.runs[r].meeting;
  }

  lemma StillUnendedTells(s: State, step: Step, r: Id)
    requires RefsOk(s) && Unended(s.queue, r) && Unended(Next(s, step).queue, r)
    ensures EndTells(s, Next(s, step), r)
  {
    hide Next, RefsOk, EndTells, Progress;
    NextProgress(s, step);
    GoingOnTells(s, Next(s, step), r);
  }

  lemma {:induction false} WorkersTell(s: State, step: Step, r: Id)
    requires RefsOk(s) && Unended(s.queue, r) && IsWorkerStep(step) && r in Next(s, step).queue.runs
    ensures EndTells(s, Next(s, step), r)
  {
    hide RefsOk, EndTells, Progress;
    match step
    case DoFail(who, proof, code, detail, retryAt, reread) => FailTells(s, who, proof, code, detail, retryAt, reread, r);
    case DoComplete(who, req, transcript, speakers) => CompleteTells(s, who, req, transcript, speakers, r);
    case DoHeartbeat(who, proof, leaseMs) =>
      LeaseStepsEndNothing(s, who, proof, leaseMs, U.Digested(0, ""), r);
      StillUnendedTells(s, step, r);
    case DoResultInit(who, proof, declared) =>
      LeaseStepsEndNothing(s, who, proof, 0, declared, r);
      StillUnendedTells(s, step, r);
    case DoClaim(who, job, secret, leaseMs) =>
      ClaimEndsNothing(s, who, job, secret, leaseMs, r);
      StillUnendedTells(s, step, r);
  }

  lemma {:induction false} OthersOnlyCancel(s: State, step: Step, r: Id)
    requires RefsOk(s) && Unended(s.queue, r) && !IsWorkerStep(step) && r in Next(s, step).queue.runs
    ensures r !in Next(s, step).queue.versions
    ensures Next(s, step).queue.runs[r].outcome.None?
            || (step == DoCancel(s.queue.runs[r].meeting) && Next(s, step).queue.runs[r].outcome == Some(RunCancelled))
  {
    hide RefsOk;
    match step
    case DoUploadCommit(m, p) => StartsEndNothing(s, m, p, None, r);
    case DoStartRun(m, p, diarize) => StartsEndNothing(s, m, p, diarize, r);
    case _ =>
  }

  lemma CancelTells(s: State, m: Id, r: Id)
    requires RefsOk(s) && Unended(s.queue, r) && s.queue.runs[r].meeting == m && r in Cancel(s, m).queue.runs
    ensures EndTells(s, Cancel(s, m), r)
  {
  }

  lemma {:induction false} OthersTell(s: State, step: Step, r: Id)
    requires RefsOk(s) && Unended(s.queue, r) && !IsWorkerStep(step) && r in Next(s, step).queue.runs
    ensures EndTells(s, Next(s, step), r)
  {
    hide RefsOk, EndTells, Progress;
    OthersOnlyCancel(s, step, r);
    if Next(s, step).queue.runs[r].outcome.None? {
      NextProgress(s, step);
      GoingOnTells(s, Next(s, step), r);
    } else {
      CancelTells(s, step.m, r);
    }
  }

  /** The transaction that ends a run leaves outcome, version and meeting row in agreement. */
  lemma {:induction false} EndingTells(s: State, step: Step, r: Id)
    requires RefsOk(s) && Unended(s.queue, r) && r in Next(s, step).queue.runs
    ensures EndTells(s, Next(s, step), r)
  {
    if IsWorkerStep(step) { WorkersTell(s, step, r); } else { OthersTell(s, step, r); }
  }

  lemma {:induction false} CloseHoldsDocuments(q: Queue, u: UploadId, result: Result, usable: bool, now: int, r: Id)
    requires Linked(q) && OneActiveRun(q) && u.job in q.jobs && Unended(q, r)
    requires var t := Close(q, u, result, usable, now); r in t.runs && t.runs[r].outcome == Some(RunSucceeded)
    ensures r == u.job.run
    ensures VersionAt(Close(q, u, result, usable, now), r)
            == Some(Version(result.transcript, if u.job.stage == Diarize then Some(result.speakers) else None))
    ensures u.job.stage != Diarize ==> q.runs[r].diarize == Some(false)
  {
    assert Active(q, q.runs[r].meeting, r);
    CloseEnds(q, u, result, usable, now, r);
  }

  lemma ChangingCompleteCloses(s: State, who: Identity, req: CompleteRequest, transcript: Document, speakers: Document)
    requires RefsOk(s) && Complete(s, who, req, transcript, speakers).0 != s
    ensures Authorize(s, who, req.proof, true).Done?
    ensures var u := U.UploadId(req.proof.job, Authorize(s, who, req.proof, true).value.attempts);
            u in s.uploads && Complete(s, who, req, transcript, speakers) == CloseJob(s, u, req, transcript, speakers)
  {
  }

  /** A run that succeeds holds exactly the documents its last `complete` brought, and skips speakers only on request. */
  lemma {:induction false} SuccessHoldsItsDocuments(s: State, who: Identity, req: CompleteRequest, transcript: Document,
                                                    speakers: Document, r: Id)
    requires RefsOk(s) && OneActiveRun(s.queue) && Unended(s.queue, r)
    requires var t := Complete(s, who, req, transcript, speakers).0;
             r in t.queue.runs && t.queue.runs[r].outcome == Some(RunSucceeded)
    ensures r == req.proof.job.run
    ensures VersionAt(Complete(s, who, req, transcript, speakers).0.queue, r)
            == Some(Version(transcript, if req.proof.job.stage == Diarize then Some(speakers) else None))
    ensures req.proof.job.stage != Diarize ==> s.queue.runs[r].diarize == Some(false)
  {
    var u := U.UploadId(req.proof.job, Authorize(s, who, req.proof, true).value.attempts);
    ChangingCompleteCloses(s, who, req, transcript, speakers);
    CloseHoldsDocuments(s.queue, u, ResultOf(req, transcript, speakers), HasTranscript(s, u.job.run), s.now, r);
  }

  // ---- Reachable states -------------------------------------------------------------------

  /** What the outcome of a run says about its jobs and its version. */
  predicate TellsTheTruth(q: Queue, r: Id)
    requires r in q.runs
  {
    var v := ViewOf(q, r);
    match q.runs[r].outcome
    case Some(RunSucceeded) =>
      && r in q.versions && IsDone(v.norm) && IsDone(v.trans)
      && (if q.versions[r].speakers.Some? then IsDone(v.diar) else v.diar.None?)
    case Some(RunPartial) =>
      && r in q.versions && q.versions[r].speakers.None? && IsDone(v.trans)
      && v.diar.Some? && v.diar.value.status == Failed && v.diar.value.failureCode.Some?
      && v.diar.value.attempts == DEFAULT_MAX_ATTEMPTS
    case Some(_) => r !in q.versions
    case None => r !in q.versions && Waiting(v)
  }

  lemma ShapeTellsTheTruth(q: Queue, r: Id)
    requires r in q.runs && RunOk(q, r) && RowsOk(q)
    ensures TellsTheTruth(q, r)
  {
    if JobId(r, Diarize) in q.jobs { assert RowOk(q.jobs[JobId(r, Diarize)]); }
  }

  /** In every state reached without closing a failed job of the run itself, its outcome means what it says. */
  lemma {:induction false} OutcomesTellTheTruth(putTtl: nat, steps: seq<Step>, r: Id)
    requires CleanIn(Empty(putTtl), steps, r) && r in After(Empty(putTtl), steps).queue.runs
    ensures TellsTheTruth(After(Empty(putTtl), steps).queue, r)
  {
    RunKeepsItsShape(Empty(putTtl), steps, r);
    RowsAndIndexLast(Empty(putTtl), steps);
    ShapeTellsTheTruth(After(Empty(putTtl), steps).queue, r);
  }

  /** So over clean steps every outcome does. */
  lemma {:induction false} CleanOutcomesTellTheTruth(putTtl: nat, steps: seq<Step>)
    requires Clean(Empty(putTtl), steps)
    ensures forall r | r in After(Empty(putTtl), steps).queue.runs :: TellsTheTruth(After(Empty(putTtl), steps).queue, r)
  {
    hide Clean, CleanIn, After, TellsTheTruth;
    forall r | r in After(Empty(putTtl), steps).queue.runs ensures TellsTheTruth(After(Empty(putTtl), steps).queue, r) {
      CleanIsCleanIn(Empty(putTtl), steps, r);
      OutcomesTellTheTruth(putTtl, steps, r);
    }
  }

  // ---- A run that nothing finishes ----------------------------------------------------------

  /** The sweep abandons exactly the leases that expired on their last attempt, and finishes no run. */
  lemma {:induction false} SweepAbandonsLastAttempts(s: State, id: JobId)
    requires RefsOk(s) && RowsOk(s.queue) && id in s.queue.jobs && s.queue.jobs[id].status != Abandoned
    ensures Sweep(s).queue.runs == s.queue.runs && id in Sweep(s).queue.jobs
    ensures Sweep(s).queue.jobs[id].status == Abandoned
            <==> Expired(s.queue.jobs[id], s.now) && s.queue.jobs[id].attempts == DEFAULT_MAX_ATTEMPTS
  {
    assert RowOk(s.queue.jobs[id]);
  }

  /** The run waits for a job that no one may claim again. */
  predicate Abandons(q: Queue, id: JobId)
  {
    id in q.jobs && q.jobs[id].status == Abandoned && id.run in q.runs && q.runs[id.run].outcome.None? && id.run !in q.versions
  }

  lemma {:induction false} AbandonedIsAlone(q: Queue, id: JobId, other: JobId)
    requires Linked(q) && RunOk(q, id.run) && id in q.jobs && q.jobs[id].status == Abandoned
    requires other in q.jobs && other.run == id.run && other != id
    ensures q.jobs[other].status == Succeeded
  {
    assert ShapeOk(ViewOf(q, id.run));
    match id.stage { case Normalize => case Transcribe => case Diarize => }
    match other.stage { case Normalize => case Transcribe => case Diarize => }
  }

  lemma {:induction false} OthersFailuresEndNothing(s: State, id: JobId, j: Job, code: string, reread: Option<Document>, r: Id)
    requires RefsOk(s) && id in s.queue.jobs && id.run != r && Unended(s.queue, r)
    ensures Unended(FailJob(s, id, j, code, reread).0.queue, r)
  {
    ResolveEnds(s.queue, id, j, code, reread.GetOr(0), HasTranscript(s, id.run), r);
  }

  lemma {:induction false} OthersClosesEndNothing(s: State, u: UploadId, req: CompleteRequest, transcript: Document, speakers: Document, r: Id)
    requires RefsOk(s) && u in s.uploads && u.job.run != r && Unended(s.queue, r)
    ensures Unended(CloseJob(s, u, req, transcript, speakers).0.queue, r)
  {
    CloseEnds(s.queue, u, ResultOf(req, transcript, speakers), HasTranscript(s, u.job.run), s.now, r);
  }

  lemma {:induction false} NoFailureEnds(s: State, who: Identity, proof: Proof, code: string, detail: Option<string>,
                                         retryAt: int, reread: Option<Document>, id: JobId)
    requires RefsOk(s) && RunOk(s.queue, id.run) && Abandons(s.queue, id)
    ensures Unended(Fail(s, who, proof, code, detail, retryAt, reread).0.queue, id.run)
  {
    var a := Authorize(s, who, proof, true);
    if a.Done? && !Terminal(a.value) {
      if proof.job.run == id.run && proof.job != id { AbandonedIsAlone(s.queue, id, proof.job); }
      OthersFailuresEndNothing(s, proof.job, MarkedFailed(a.value, code, KeptDetail(detail), retryAt), code, reread, id.run);
    }
  }

  lemma {:induction false} NoCloseEnds(s: State, who: Identity, req: CompleteRequest, transcript: Document, speakers: Document, id: JobId)
    requires RefsOk(s) && RunOk(s.queue, id.run) && Abandons(s.queue, id)
    ensures Unended(Complete(s, who, req, transcript, speakers).0.queue, id.run)
  {
    var a := Authorize(s, who, req.proof, true);
    if a.Done? && a.value.status != Succeeded {
      if req.proof.job.run == id.run && req.proof.job != id { AbandonedIsAlone(s.queue, id, req.proof.job); }
      var u := U.UploadId(req.proof.job, a.value.attempts);
      if u in s.uploads { OthersClosesEndNothing(s, u, req, transcript, speakers, id.run); }
    }
  }

  /** Only a cancellation of its meeting, or its deletion, ends a run with an abandoned job. */
  lemma {:induction false} WorkersEndNoAbandonedRun(s: State, step: Step, id: JobId)
    requires RefsOk(s) && RunOk(s.queue, id.run) && Abandons(s.queue, id) && IsWorkerStep(step)
    ensures Unended(Next(s, step).queue, id.run)
  {
    match step
    case DoFail(who, proof, code, detail, retryAt, reread) => NoFailureEnds(s, who, proof, code, detail, retryAt, reread, id);
    case DoComplete(who, req, transcript, speakers) => NoCloseEnds(s, who, req, transcript, speakers, id);
    case DoHeartbeat(who, proof, leaseMs) => LeaseStepsEndNothing(s, who, proof, leaseMs, U.Digested(0, ""), id.run);
    case DoResultInit(who, proof, declared) => LeaseStepsEndNothing(s, who, proof, 0, declared, id.run);
    case DoClaim(who, job, secret, leaseMs) => ClaimEndsNothing(s, who, job, secret, leaseMs, id.run);
  }

  /** Gone with its meeting, or still abandoned: unfinished, or cancelled, and without a transcript. */
  predicate NeverFinishes(s: State, id: JobId)
  {
    && id.run in s.usedRuns
    && (id.run in s.queue.runs ==>
          && id in s.queue.jobs && s.queue.jobs[id].status == Abandoned && id.run !in s.queue.versions
          && (s.queue.runs[id.run].outcome.None? || s.queue.runs[id.run].outcome == Some(RunCancelled)))
  }

  /** A run with an abandoned job has no failed one to reopen. */
  lemma {:induction false} AbandonedIsNotReopened(s: State, step: Step, id: JobId)
    requires RefsOk(s) && RunOk(s.queue, id.run) && NeverFinishes(s, id)
    ensures !ReopensIn(s, step, id.run)
  {
    if ReopensIn(s, step, id.run) && step.req.proof.job != id { AbandonedIsAlone(s.queue, id, step.req.proof.job); }
  }

  lemma {:induction false} NeverFinishesStays(s: State, step: Step, id: JobId)
    requires RefsOk(s) && RunOk(s.queue, id.run) && NeverFinishes(s, id)
    ensures NeverFinishes(Next(s, step), id) && RunOk(Next(s, step).queue, id.run)
  {
    hide ReopensIn, RunOk;
    var t := Next(s, step);
    NextProgress(s, step);
    AbandonedIsNotReopened(s, step, id);
    NextKeepsRunIff(s, step, id.run);
    if id.run in t.queue.runs {
      assert id.run in s.queue.runs;
      assert RowNext(s.queue.jobs[id], t.queue.jobs[id]);
      if s.queue.runs[id.run].outcome.None? {
        if IsWorkerStep(step) { WorkersEndNoAbandonedRun(s, step, id); } else { OthersOnlyCancel(s, step, id.run); }
      } else {
        CancelledHasNoVersion(t.queue, id.run);
      }
    }
  }

  lemma CancelledHasNoVersion(q: Queue, r: Id)
    requires RunOk(q, r) && r in q.runs && q.runs[r].outcome == Some(RunCancelled)
    ensures r !in q.versions
  {
  }

  /** Once a job of a run is abandoned, no later history at all ever finishes that run except by cancelling it. */
  lemma {:induction false} AbandonedRunsNeverFinish(s: State, steps: seq<Step>, id: JobId)
    requires RefsOk(s) && RunOk(s.queue, id.run) && NeverFinishes(s, id)
    ensures NeverFinishes(After(s, steps), id)
    decreases |steps|
  {
    if steps != [] {
      NeverFinishesStays(s, steps[0], id);
      AbandonedRunsNeverFinish(Next(s, steps[0]), steps[1..], id);
    }
  }

  /** And until then no reprocess of its meeting is accepted. */
  lemma {:induction false} AbandonedRunBlocksReprocess(s: State, id: JobId, r: Id, diarize: Option<bool>)
    requires RefsOk(s) && Abandons(s.queue, id)
    ensures StartRun(s, s.queue.runs[id.run].meeting, r, diarize) == s
  {
    assert Active(s.queue, s.queue.runs[id.run].meeting, id.run);
  }

  // ---- A close that leaves the queue alone but not the meeting ------------------------------

  /**
   A `diarize` that gave up left a transcript without speakers. Its late `complete` writes
   nothing in the queue, yet the meeting's row then says that diarization is ready, exactly
   when the run's transcript is still usable or the row already said so.
   */
  lemma {:induction false} LateDiarizationMisreports(s: State, who: Identity, req: CompleteRequest, transcript: Document, speakers: Document)
    requires RefsOk(s) && RunOk(s.queue, req.proof.job.run) && Complete(s, who, req, transcript, speakers).1.Done?
    requires req.proof.job.stage == Diarize && req.proof.job in s.queue.jobs && s.queue.jobs[req.proof.job].status == Failed
    requires req.proof.job.run in s.queue.versions
    ensures var (t, r, m) := (Complete(s, who, req, transcript, speakers).0, req.proof.job.run, MeetingOfJob(s, req.proof.job));
            && t.queue == s.queue && t.queue.versions[r].speakers.None?
            && (t.meetings[m].diarizationState == Ready <==> HasTranscript(s, r) || s.meetings[m].diarizationState == Ready)
            && t.meetings[m].transcriptState == (if HasTranscript(s, r) then Ready else Failing)
  {
    hide Complete, CloseJob, Close;
    var id := req.proof.job;
    var u := U.UploadId(id, req.proof.attempt);
    JobsOfShapes(s, id);
    assert ShapeOk(ViewOf(s.queue, id.run));
    FailedCompleteCloses(s, who, req, transcript, speakers);
    ClosingFailedKeepsRunIff(s.queue, u, ResultOf(req, transcript, speakers), HasTranscript(s, id.run), s.now);
    CloseJobWrites(s, u, req, transcript, speakers);
    CloseDiarizeIngests(s, u, req, transcript, speakers);
  }

  lemma JobsOfShapes(s: State, id: JobId)
    requires RefsOk(s) && id in s.queue.jobs
    ensures id.run in s.queue.runs && Linked(s.queue)
  {
  }

  lemma FailedCompleteCloses(s: State, who: Identity, req: CompleteRequest, transcript: Document, speakers: Document)
    requires RefsOk(s) && Complete(s, who, req, transcript, speakers).1.Done?
    requires req.proof.job in s.queue.jobs && s.queue.jobs[req.proof.job].status == Failed
    ensures var u := U.UploadId(req.proof.job, req.proof.attempt);
            u in s.uploads && Complete(s, who, req, transcript, speakers) == CloseJob(s, u, req, transcript, speakers)
  {
    hide CloseJob;
  }

  lemma CloseDiarizeIngests(s: State, u: UploadId, req: CompleteRequest, transcript: Document, speakers: Document)
    requires RefsOk(s) && u in s.uploads && u.job.stage == Diarize
    ensures u.job in s.queue.jobs
    ensures var m := MeetingOfJob(s, u.job);
            CloseJob(s, u, req, transcript, speakers).0.meetings
            == s.meetings[m := Ingested(s.meetings[m], u.job.run, Aligned(speakers), HasTranscript(s, u.job.run))]
  {
    hide Close, HasTranscript;
  }
}
