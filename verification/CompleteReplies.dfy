/**
 What the reply of a `complete` tells the worker: the job that the close put in the queue, whether
 a version was written, and which one the run has. A resend is told the same next job at any
 later time; the rest of its answer is the first one only when that one ingested.
 */
module CompleteReplies {
  import opened Common
  import opened JobRows
  import opened JobQueue
  import opened QueueInvariant
  import opened QueueProgress
  import opened PipelineState
  import opened PipelineInvariant
  import opened PipelineProgress
  import opened RunInvariant
  import opened PipelineTraces
  import opened LeaseSafety
  import opened Replays
  import opened LaterReplays
  import U = UploadRows

  // ---- The first answer ------------------------------------------------------------------------

  /** The answer tells what became of run `r` between the two queues. */
  ghost predicate ReplyTells(q: Queue, t: Queue, r: Id, c: Completed, now: int)
    requires r in t.runs
  {
    && (forall j :: c.nextJob == Some(j) <==> j.run == r && j in t.jobs && j !in q.jobs)
    && (c.nextJob.Some? ==>
          && t.jobs[c.nextJob.value].status == Queued && t.jobs[c.nextJob.value].attempts == 0
          && t.jobs[c.nextJob.value].nextAttemptAt == now
          && forall j | j in t.jobs && j.run == r && j != c.nextJob.value :: t.jobs[j].status == Succeeded)
    && (c.nextJob.None? <==> t.runs[r].outcome.Some?)
    && (c.ingested <==> r !in q.versions && r in t.versions)
    && (forall v :: c.transcript == Some(v) <==> v == r && r in t.versions)
  }

  /** The stage that a close opens, if it opens one. */
  ghost function Opens(q: Queue, id: JobId): Option<Stage>
    requires Linked(q) && id in q.jobs
  {
    match id.stage
    case Normalize => Some(Transcribe)
    case Transcribe => assert id.run in q.runs; if WantsDiarization(q, q.runs[id.run].meeting) then Some(Diarize) else None
    case Diarize => None
  }

  lemma OpeningClose(q: Queue, u: U.UploadId, result: Result, usable: bool, now: int)
    requires Linked(q) && RunOk(q, u.job.run) && u.job in q.jobs && HoldsLease(q.jobs[u.job]) && Opens(q, u.job).Some?
    ensures var (t, next) := (Close(q, u, result, usable, now), JobId(u.job.run, Opens(q, u.job).value));
            && t.runs == q.runs && t.versions == q.versions && next !in q.jobs && next != u.job
            && t.jobs == q.jobs[u.job := MarkedSucceeded(q.jobs[u.job])][next := Fresh(now)]
  {
    UnsettledIsOpen(q, u.job);
  }

  lemma EndingClose(q: Queue, u: U.UploadId, result: Result, usable: bool, now: int)
    requires Linked(q) && RunOk(q, u.job.run) && u.job in q.jobs && HoldsLease(q.jobs[u.job]) && Opens(q, u.job).None?
    ensures var (t, r) := (Close(q, u, result, usable, now), u.job.run);
            && t.jobs == q.jobs[u.job := MarkedSucceeded(q.jobs[u.job])]
            && r in t.runs && t.runs[r].outcome.Some? && r !in q.versions && (r in t.versions <==> usable)
  {
    UnsettledIsOpen(q, u.job);
  }

  lemma CloseAnswers(s: State, u: UploadId, req: CompleteRequest, transcript: Document, speakers: Document)
    requires RefsOk(s) && u in s.uploads && u.job in s.queue.jobs
    ensures CloseJob(s, u, req, transcript, speakers).1.Done?
    ensures var (c, next, usable) := (CloseJob(s, u, req, transcript, speakers).1.value, Opens(s.queue, u.job), HasTranscript(s, u.job.run));
            if next.Some? then c == Completed(Some(JobId(u.job.run, next.value)), false, None)
            else c.nextJob.None? && (c.ingested <==> usable && u.job.run !in s.queue.versions)
                 && c.transcript == if usable then Some(u.job.run) else None
  {
    hide Close, HasTranscript, ClosedUploads, ResultOf, Ingested, WantsDiarization;
  }

  lemma OpeningTells(q: Queue, u: U.UploadId, result: Result, usable: bool, now: int)
    requires Linked(q) && RunOk(q, u.job.run) && u.job in q.jobs && HoldsLease(q.jobs[u.job]) && Opens(q, u.job).Some?
    ensures u.job.run in Close(q, u, result, usable, now).runs
    ensures ReplyTells(q, Close(q, u, result, usable, now), u.job.run, Completed(Some(JobId(u.job.run, Opens(q, u.job).value)), false, None), now)
  {
    hide Close, Opens, RunOk;
    UnsettledIsOpen(q, u.job);
    OpeningClose(q, u, result, usable, now);
  }

  lemma FinishingTells(q: Queue, u: U.UploadId, result: Result, usable: bool, now: int, c: Completed)
    requires Linked(q) && RunOk(q, u.job.run) && u.job in q.jobs && HoldsLease(q.jobs[u.job]) && Opens(q, u.job).None?
    requires c.nextJob.None? && (c.ingested <==> usable && u.job.run !in q.versions) && c.transcript == if usable then Some(u.job.run) else None
    ensures u.job.run in Close(q, u, result, usable, now).runs
    ensures ReplyTells(q, Close(q, u, result, usable, now), u.job.run, c, now)
  {
    hide Close, Opens, RunOk;
    EndingClose(q, u, result, usable, now);
  }

  lemma CloseTells(s: State, u: UploadId, req: CompleteRequest, transcript: Document, speakers: Document)
    requires RefsOk(s) && RunOk(s.queue, u.job.run) && u in s.uploads && u.job in s.queue.jobs && HoldsLease(s.queue.jobs[u.job])
    ensures var t := CloseJob(s, u, req, transcript, speakers);
            u.job.run in t.0.queue.runs && t.1.Done? && ReplyTells(s.queue, t.0.queue, u.job.run, t.1.value, s.now)
  {
    hide RefsOk, RunOk, CloseJob, Close, Opens, ReplyTells, HasTranscript, ResultOf;
    RefsAreLinked(s);
    CloseJobWrites(s, u, req, transcript, speakers);
    CloseAnswers(s, u, req, transcript, speakers);
    var (result, usable) := (ResultOf(req, transcript, speakers), HasTranscript(s, u.job.run));
    if Opens(s.queue, u.job).Some? {
      OpeningTells(s.queue, u, result, usable, s.now);
    } else {
      FinishingTells(s.queue, u, result, usable, s.now, CloseJob(s, u, req, transcript, speakers).1.value);
    }
  }

  lemma AcceptedCloses(s: State, who: Identity, req: CompleteRequest, transcript: Document, speakers: Document)
    requires RefsOk(s) && LeaseProven(s, who, req.proof) && Complete(s, who, req, transcript, speakers).1.Done?
    ensures var u := U.UploadId(req.proof.job, req.proof.attempt);
            && u in s.uploads && Complete(s, who, req, transcript, speakers) == CloseJob(s, u, req, transcript, speakers)
  {
    hide CloseJob;
  }

  /**
   The answer to an accepted `complete` from a proven lease names a next job exactly when the step
   queued one: that job is new, of the same run, and its open stage. No next job means that the run
   is finished; `ingested` means a new version; a transcript is named exactly when the run has one.
   */
  lemma ReplyTellsTheRun(s: State, who: Identity, req: CompleteRequest, transcript: Document, speakers: Document)
    requires RefsOk(s) && RunOk(s.queue, req.proof.job.run) && LeaseProven(s, who, req.proof)
    requires Complete(s, who, req, transcript, speakers).1.Done?
    ensures var t := Complete(s, who, req, transcript, speakers);
            && req.proof.job.run in t.0.queue.runs
            && ReplyTells(s.queue, t.0.queue, req.proof.job.run, t.1.value, s.now)
  {
    hide CloseJob, Complete, ReplyTells;
    AcceptedCloses(s, who, req, transcript, speakers);
    var u := U.UploadId(req.proof.job, req.proof.attempt);
    CloseTells(s, u, req, transcript, speakers);
  }

  /** `diarize` follows `transcribe` unless the run asked for none; then the run ends there. */
  lemma DiarizeFollowsUnlessDeclined(s: State, who: Identity, req: CompleteRequest, transcript: Document, speakers: Document)
    requires RefsOk(s) && RunOk(s.queue, req.proof.job.run) && OneActiveRun(s.queue) && LeaseProven(s, who, req.proof)
    requires req.proof.job.stage == Transcribe && Complete(s, who, req, transcript, speakers).1.Done?
    ensures req.proof.job.run in s.queue.runs
    ensures Complete(s, who, req, transcript, speakers).1.value.nextJob
            == if s.queue.runs[req.proof.job.run].diarize == Some(false) then None else Some(JobId(req.proof.job.run, Diarize))
  {
    hide CloseJob, Complete, RefsOk, RunOk;
    RefsAreLinked(s);
    AcceptedCloses(s, who, req, transcript, speakers);
    var u := U.UploadId(req.proof.job, req.proof.attempt);
    UnsettledIsOpen(s.queue, u.job);
    CloseAnswers(s, u, req, transcript, speakers);
    assert Active(s.queue, s.queue.runs[u.job.run].meeting, u.job.run);
  }

  // ---- The answer to a resend --------------------------------------------------------------------

  /** `b` is the stage right after `a`. */
  predicate Follows(a: Stage, b: Stage) { (a == Normalize && b == Transcribe) || (a == Transcribe && b == Diarize) }

  /** A resend on a closed job is told the run's job of the following stage, if there is one, and the meeting's transcript. */
  lemma ReplayTells(s: State, who: Identity, req: CompleteRequest, transcript: Document, speakers: Document)
    requires RefsOk(s) && req.proof.job in s.queue.jobs && s.queue.jobs[req.proof.job].status == Succeeded
    requires Complete(s, who, req, transcript, speakers).1.Done?
    ensures Complete(s, who, req, transcript, speakers).0 == s
    ensures var (c, id) := (Complete(s, who, req, transcript, speakers).1.value, req.proof.job);
            && id.run in s.queue.runs && s.queue.runs[id.run].meeting in s.meetings
            && (forall j :: c.nextJob == Some(j) <==> j in s.queue.jobs && j.run == id.run && Follows(id.stage, j.stage))
            && c.ingested && c.transcript == s.meetings[s.queue.runs[id.run].meeting].activeTranscript
  {
    hide CloseJob, PayloadError, ProbeError;
  }

  lemma CloseOpensOnlyNext(q: Queue, u: U.UploadId, result: Result, usable: bool, now: int, id: JobId)
    requires Linked(q) && u.job in q.jobs && id !in q.jobs && id in Close(q, u, result, usable, now).jobs
    ensures id.run == u.job.run && Follows(u.job.stage, id.stage)
  {
    match u.job.stage { case Normalize => case Transcribe => case Diarize => }
  }

  lemma CompleteOpensOnlyNext(s: State, who: Identity, req: CompleteRequest, transcript: Document, speakers: Document,
                              closed: JobId, id: JobId)
    requires RefsOk(s) && closed in s.queue.jobs && s.queue.jobs[closed].status == Succeeded
    requires id.run == closed.run && Follows(closed.stage, id.stage) && id !in s.queue.jobs
    ensures id !in Complete(s, who, req, transcript, speakers).0.queue.jobs
  {
    hide Complete, CloseJob, Close, ReopensFailedJob, ClosesNothing, RefsOk;
    CompleteWrites(s, who, req, transcript, speakers);
    RefsAreLinked(s);
    var u := U.UploadId(req.proof.job, req.proof.attempt);
    if u in s.uploads && u.job in s.queue.jobs && id in Complete(s, who, req, transcript, speakers).0.queue.jobs {
      CloseJobWrites(s, u, req, transcript, speakers);
      CloseOpensOnlyNext(s.queue, u, ResultOf(req, transcript, speakers), HasTranscript(s, u.job.run), s.now, id);
    }
  }

  lemma FailOpensNothing(s: State, who: Identity, proof: Proof, code: string, detail: Option<string>, retryAt: int,
                         reread: Option<Document>, id: JobId)
    requires RefsOk(s) && id !in s.queue.jobs
    ensures id !in Fail(s, who, proof, code, detail, retryAt, reread).0.queue.jobs
  {
    hide Fail;
    FailWrites(s, who, proof, code, detail, retryAt, reread);
  }

  lemma ClaimOpensNothing(s: State, who: Identity, job: JobId, secret: string, leaseMs: nat, id: JobId)
    requires RefsOk(s) && id !in s.queue.jobs
    ensures id !in Claim(s, who, job, secret, leaseMs).queue.jobs
  {
  }

  lemma LeaseStepsOpenNothing(s: State, who: Identity, proof: Proof, leaseMs: nat, declared: U.Digested, id: JobId)
    requires RefsOk(s) && id !in s.queue.jobs
    ensures id !in Heartbeat(s, who, proof, leaseMs).0.queue.jobs && id !in ResultInit(s, who, proof, declared).0.queue.jobs
  {
  }

  lemma StartsOpenFirst(s: State, m: Id, r: Id, diarize: Option<bool>, id: JobId)
    requires RefsOk(s) && id !in s.queue.jobs && id.stage != Normalize
    ensures id !in UploadCommit(s, m, r).queue.jobs && id !in StartRun(s, m, r, diarize).queue.jobs
  {
    hide RefsOk, ActiveRun;
  }

  lemma TablesOpenNothing(q: Queue, now: int, m: Id, id: JobId)
    requires Linked(q) && id !in q.jobs
    ensures id !in SweepAll(q, now).jobs && id !in CancelAll(q, m).jobs && id !in Drop(q, m).jobs
  {
  }

  lemma WorkersOpenOnlyNext(s: State, step: Step, closed: JobId, id: JobId)
    requires RefsOk(s) && closed in s.queue.jobs && s.queue.jobs[closed].status == Succeeded && IsWorkerStep(step)
    requires id.run == closed.run && Follows(closed.stage, id.stage) && id !in s.queue.jobs
    ensures id !in Next(s, step).queue.jobs
  {
    hide RefsOk, Claim, Heartbeat, ResultInit, Fail, Complete;
    match step
    case DoClaim(who, job, secret, leaseMs) => ClaimOpensNothing(s, who, job, secret, leaseMs, id);
    case DoHeartbeat(who, proof, leaseMs) => LeaseStepsOpenNothing(s, who, proof, leaseMs, U.Digested(0, ""), id);
    case DoResultInit(who, proof, declared) => LeaseStepsOpenNothing(s, who, proof, 0, declared, id);
    case DoFail(who, proof, code, detail, retryAt, reread) => FailOpensNothing(s, who, proof, code, detail, retryAt, reread, id);
    case DoComplete(who, req, transcript, speakers) => CompleteOpensOnlyNext(s, who, req, transcript, speakers, closed, id);
  }

  lemma DeletionsOpenNothing(s: State, step: Step, id: JobId)
    requires RefsOk(s) && id !in s.queue.jobs && IsDeletionStep(step)
    ensures id !in Next(s, step).queue.jobs
  {
    hide RefsOk, Drop, Reserve, StartPurge, PurgeObject, PurgeVerify, MarkDeleteFailed, Put;
    RefsAreLinked(s);
    if step.DoDeleteRow? { TablesOpenNothing(s.queue, s.now, step.p.meeting, id); }
  }

  lemma OthersOpenFirst(s: State, step: Step, id: JobId)
    requires RefsOk(s) && id !in s.queue.jobs && id.stage != Normalize && !IsWorkerStep(step) && !IsDeletionStep(step)
    ensures id !in Next(s, step).queue.jobs
  {
    hide RefsOk, UploadCommit, StartRun, SweepAll, CancelAll;
    RefsAreLinked(s);
    match step
    case DoUploadCommit(m, r) => StartsOpenFirst(s, m, r, None, id);
    case DoStartRun(m, r, diarize) => StartsOpenFirst(s, m, r, diarize, id);
    case DoSweep => TablesOpenNothing(s.queue, s.now, 0, id);
    case DoCancel(m) => TablesOpenNothing(s.queue, s.now, m, id);
    case _ =>
  }

  /** A stage that was not opened when the one before it was closed is never opened. */
  lemma NoStageOpensLate(s: State, step: Step, closed: JobId, id: JobId)
    requires RefsOk(s) && closed in s.queue.jobs && s.queue.jobs[closed].status == Succeeded
    requires id.run == closed.run && Follows(closed.stage, id.stage) && id !in s.queue.jobs
    ensures id !in Next(s, step).queue.jobs
  {
    hide RefsOk, Next;
    if IsWorkerStep(step) {
      WorkersOpenOnlyNext(s, step, closed, id);
    } else if IsDeletionStep(step) {
      DeletionsOpenNothing(s, step, id);
    } else {
      OthersOpenFirst(s, step, id);
    }
  }

  lemma NextStageStepSettled(s: State, step: Step, closed: JobId, id: JobId)
    requires RefsOk(s) && closed in s.queue.jobs && s.queue.jobs[closed].status == Succeeded
    requires id.run == closed.run && Follows(closed.stage, id.stage) && closed in Next(s, step).queue.jobs
    ensures Next(s, step).queue.jobs[closed].status == Succeeded
    ensures id in Next(s, step).queue.jobs <==> id in s.queue.jobs
  {
    hide Next, RefsOk;
    NextProgress(s, step);
    if id !in s.queue.jobs { NoStageOpensLate(s, step, closed, id); }
    assert RowNext(s.queue.jobs[closed], Next(s, step).queue.jobs[closed]);
    JobsHaveRuns(Next(s, step), closed);
  }

  /** Whether the following stage has a job is settled when a job is closed. */
  lemma {:induction false} NextStageIsSettled(s: State, steps: seq<Step>, closed: JobId, id: JobId)
    requires RefsOk(s) && closed in s.queue.jobs && s.queue.jobs[closed].status == Succeeded && closed in After(s, steps).queue.jobs
    requires id.run == closed.run && Follows(closed.stage, id.stage)
    ensures id in After(s, steps).queue.jobs <==> id in s.queue.jobs
    decreases |steps|
  {
    if steps != [] {
      hide Next, RefsOk, Follows;
      var t := Next(s, steps[0]);
      if closed in t.queue.jobs {
        NextStageStepSettled(s, steps[0], closed, id);
        NextStageIsSettled(t, steps[1..], closed, id);
      } else {
        JobsHaveRuns(After(s, steps), closed);
        JobNeverComesBack(s, steps[0], closed);
        GoneStaysGone(t, steps[1..], closed.run);
      }
    }
  }

  /**
   A resend accepted at any later time is told the same next job as the first answer. It is always
   told that the run was ingested and the meeting's transcript of the day, so the whole answer is
   the first one exactly when the first one ingested and no later run has replaced its transcript.
   */
  lemma LaterAnswerIff(s: State, who: Identity, req: CompleteRequest, transcript: Document, speakers: Document,
                      steps: seq<Step>, again: Document, others: Document)
    requires RefsOk(s) && MediaSettled(s.queue) && RunOk(s.queue, req.proof.job.run) && LeaseProven(s, who, req.proof)
    requires Complete(s, who, req, transcript, speakers).1.Done?
    requires req.proof.job in After(Complete(s, who, req, transcript, speakers).0, steps).queue.jobs
    requires Complete(After(Complete(s, who, req, transcript, speakers).0, steps), who, req, again, others).1.Done?
    ensures var (first, t) := (Complete(s, who, req, transcript, speakers).1.value, After(Complete(s, who, req, transcript, speakers).0, steps));
            var (later, r) := (Complete(t, who, req, again, others).1.value, req.proof.job.run);
            && later.nextJob == first.nextJob && later.ingested
            && r in t.queue.runs && t.queue.runs[r].meeting in t.meetings
            && (later == first <==> first.ingested && t.meetings[t.queue.runs[r].meeting].activeTranscript == Some(r))
  {
    hide Complete, RefsOk, RunOk, After, MediaSettled;
    var one := Complete(s, who, req, transcript, speakers);
    var t := After(one.0, steps);
    CloseIsOnRecord(s, who, req, transcript, speakers);
    ClosedForGood(one.0, steps, who, req);
    ClosedIsSucceeded(one.0, who, req);
    ClosedIsSucceeded(t, who, req);
    ReplyTellsTheRun(s, who, req, transcript, speakers);
    ReplayTells(t, who, req, again, others);
    FirstNamesFollowing(s, who, req, transcript, speakers);
    forall j: JobId | j.run == req.proof.job.run && Follows(req.proof.job.stage, j.stage) ensures j in t.queue.jobs <==> j in one.0.queue.jobs {
      NextStageIsSettled(one.0, steps, req.proof.job, j);
    }
    SameOption(one.1.value.nextJob, Complete(t, who, req, again, others).1.value.nextJob);
  }

  lemma SameOption(a: Option<JobId>, b: Option<JobId>)
    requires forall j :: a == Some(j) <==> b == Some(j)
    ensures a == b
  {
    if a.Some? { assert b == Some(a.value); }
    if b.Some? { assert a == Some(b.value); }
  }

  /** The job that the first answer names is the run's job of the following stage. */
  lemma FirstNamesFollowing(s: State, who: Identity, req: CompleteRequest, transcript: Document, speakers: Document)
    requires RefsOk(s) && RunOk(s.queue, req.proof.job.run) && LeaseProven(s, who, req.proof)
    requires Complete(s, who, req, transcript, speakers).1.Done?
    ensures var t := Complete(s, who, req, transcript, speakers);
            forall j :: t.1.value.nextJob == Some(j)
                        <==> j in t.0.queue.jobs && j.run == req.proof.job.run && Follows(req.proof.job.stage, j.stage)
  {
    hide Complete, CloseJob, Close, RefsOk, RunOk;
    var t := Complete(s, who, req, transcript, speakers);
    var u := U.UploadId(req.proof.job, req.proof.attempt);
    RefsAreLinked(s);
    ReplyTellsTheRun(s, who, req, transcript, speakers);
    AcceptedCloses(s, who, req, transcript, speakers);
    CloseJobWrites(s, u, req, transcript, speakers);
    UnsettledIsOpen(s.queue, u.job);
    forall j | j in t.0.queue.jobs && j !in s.queue.jobs ensures Follows(u.job.stage, j.stage) {
      CloseOpensOnlyNext(s.queue, u, ResultOf(req, transcript, speakers), HasTranscript(s, u.job.run), s.now, j);
    }
  }

  lemma ClosedIsSucceeded(s: State, who: Identity, req: CompleteRequest)
    requires RefsOk(s) && ClosedBy(s, who, req)
    ensures req.proof.job in s.queue.jobs && s.queue.jobs[req.proof.job].status == Succeeded
  {
  }
}
