/**
 Stale workers never win: only the holder of the current attempt's live lease, an expiry or a
 cancellation moves a claimed job, and a lease once lost stays lost whatever happens next.
 */
module LeaseSafety {
  import opened Common
  import opened JobRows
  import opened JobQueue
  import opened QueueInvariant
  import opened QueueProgress
  import opened PipelineState
  import opened PipelineInvariant
  import opened PipelineProgress
  import opened PipelineTraces
  import opened RunInvariant
  import U = UploadRows

  /** The request carries the current attempt, the holding credential, its token and a live lease. */
  predicate LeaseProven(s: State, who: Identity, proof: Proof)
    requires RefsOk(s)
  {
    && proof.job in s.queue.jobs
    && var j := s.queue.jobs[proof.job];
       && HoldsLease(j) && j.attempts == proof.attempt && j.credential == Some(who.credential)
       && j.tokenHash == Some(TokenHash(proof.secret, proof.job, proof.attempt, who.credential))
       && (j.leaseExpiresAt.Some? ==> s.now < j.leaseExpiresAt.value)
       && (who.tenant.Some? ==> s.meetings[MeetingOfJob(s, proof.job)].tenant == who.tenant.value)
  }

  /** What may move the row of a job. */
  predicate MayMove(s: State, step: Step, id: JobId)
    requires RefsOk(s) && id in s.queue.jobs
  {
    match step
    case DoClaim(who, job, _, _) => job == id && MayClaim(s, who, id)
    case DoHeartbeat(who, proof, _) => proof.job == id && LeaseProven(s, who, proof)
    case DoFail(who, proof, _, _, _, _) => proof.job == id && LeaseProven(s, who, proof)
    case DoResultInit(who, proof, _) => proof.job == id && LeaseProven(s, who, proof)
    case DoComplete(who, req, _, _) => req.proof.job == id && LeaseProven(s, who, req.proof)
    case DoSweep => Expired(s.queue.jobs[id], s.now)
    case DoCancel(m) => m == MeetingOfJob(s, id) && Unsettled(s.queue.jobs[id])
    case _ => false
  }

  predicate SameRow(q: Queue, t: Queue, id: JobId) { id in q.jobs && id in t.jobs ==> t.jobs[id] == q.jobs[id] }

  lemma {:induction false} OnlyFailsOwnJob(s: State, who: Identity, proof: Proof, code: string, detail: Option<string>,
                                           retryAt: int, reread: Option<Document>, id: JobId)
    requires RefsOk(s)
    ensures !SameRow(s.queue, Fail(s, who, proof, code, detail, retryAt, reread).0.queue, id)
            ==> id == proof.job && LeaseProven(s, who, proof)
  {
    var a := Authorize(s, who, proof, true);
    if a.Done? && !Terminal(a.value) {
      OnlyWritesOwnRow(s, proof.job, MarkedFailed(a.value, code, KeptDetail(detail), retryAt), code, reread, id);
    }
  }

  lemma OnlyWritesOwnRow(s: State, own: JobId, j: Job, code: string, reread: Option<Document>, id: JobId)
    requires RefsOk(s) && own in s.queue.jobs
    ensures id != own ==> SameRow(s.queue, FailJob(s, own, j, code, reread).0.queue, id)
  {
  }

  lemma {:induction false} OnlyClosesOwnRow(s: State, u: UploadId, req: CompleteRequest, transcript: Document,
                                            speakers: Document, id: JobId)
    requires RefsOk(s) && u in s.uploads
    ensures var t := CloseJob(s, u, req, transcript, speakers).0;
            !SameRow(s.queue, t.queue, id) ==> id == u.job && HoldsLease(s.queue.jobs[id])
  {
    hide CloseJob, Close, RefsOk;
    CloseJobWrites(s, u, req, transcript, speakers);
    RefsAreLinked(s);
    OnlyClosesOwn(s.queue, u, ResultOf(req, transcript, speakers), HasTranscript(s, u.job.run), s.now, id);
  }

  lemma OnlyClosesOwn(q: Queue, u: UploadId, result: Result, usable: bool, now: int, id: JobId)
    requires Linked(q) && u.job in q.jobs
    ensures !SameRow(q, Close(q, u, result, usable, now), id) ==> id == u.job && HoldsLease(q.jobs[id])
  {
    match u.job.stage { case Normalize => case Transcribe => case Diarize => }
  }

  lemma {:induction false} OnlyCompletesOwnJob(s: State, who: Identity, req: CompleteRequest, transcript: Document,
                                               speakers: Document, id: JobId)
    requires RefsOk(s)
    ensures !SameRow(s.queue, Complete(s, who, req, transcript, speakers).0.queue, id)
            ==> id == req.proof.job && LeaseProven(s, who, req.proof)
  {
    var a := Authorize(s, who, req.proof, true);
    if a.Done? {
      var u := U.UploadId(req.proof.job, a.value.attempts);
      if u in s.uploads { OnlyClosesOwnRow(s, u, req, transcript, speakers, id); }
    }
  }

  lemma OnlyLeaseSteps(s: State, who: Identity, proof: Proof, leaseMs: nat, declared: U.Digested, id: JobId)
    requires RefsOk(s)
    ensures !SameRow(s.queue, Heartbeat(s, who, proof, leaseMs).0.queue, id) ==> id == proof.job && LeaseProven(s, who, proof)
    ensures !SameRow(s.queue, ResultInit(s, who, proof, declared).0.queue, id) ==> id == proof.job && LeaseProven(s, who, proof)
  {
  }

  lemma OnlyClaimsAsked(s: State, who: Identity, job: JobId, secret: string, leaseMs: nat, id: JobId)
    requires RefsOk(s)
    ensures !SameRow(s.queue, Claim(s, who, job, secret, leaseMs).queue, id) ==> id == job && MayClaim(s, who, job)
  {
  }

  lemma {:induction false} StartsMoveNothing(s: State, m: Id, r: Id, diarize: Option<bool>, id: JobId)
    requires RefsOk(s)
    ensures SameRow(s.queue, UploadCommit(s, m, r).queue, id)
    ensures SameRow(s.queue, StartRun(s, m, r, diarize).queue, id)
  {
    assert id in s.queue.jobs ==> id.run in s.queue.runs;
  }

  lemma {:induction false} WorkersMoveOnlyByRight(s: State, step: Step, id: JobId)
    requires RefsOk(s) && id in s.queue.jobs && !MayMove(s, step, id) && IsWorkerStep(step)
    ensures SameRow(s.queue, Next(s, step).queue, id)
  {
    hide RefsOk, SameRow;
    match step
    case DoClaim(who, job, secret, leaseMs) => OnlyClaimsAsked(s, who, job, secret, leaseMs, id);
    case DoHeartbeat(who, proof, leaseMs) => OnlyLeaseSteps(s, who, proof, leaseMs, U.Digested(0, ""), id);
    case DoResultInit(who, proof, declared) => OnlyLeaseSteps(s, who, proof, 0, declared, id);
    case DoFail(who, proof, code, detail, retryAt, reread) =>
      OnlyFailsOwnJob(s, who, proof, code, detail, retryAt, reread, id);
    case DoComplete(who, req, transcript, speakers) => OnlyCompletesOwnJob(s, who, req, transcript, speakers, id);
  }

  lemma {:induction false} DeletionsMoveNothing(s: State, step: Step, id: JobId)
    requires RefsOk(s) && id in s.queue.jobs && IsDeletionStep(step)
    ensures SameRow(s.queue, Next(s, step).queue, id)
  {
    hide RefsOk;
    match step case _ =>
  }

  lemma {:induction false} OthersMoveOnlyByRight(s: State, step: Step, id: JobId)
    requires RefsOk(s) && id in s.queue.jobs && !MayMove(s, step, id) && !IsWorkerStep(step) && !IsDeletionStep(step)
    ensures SameRow(s.queue, Next(s, step).queue, id)
  {
    hide RefsOk;
    match step
    case DoUploadCommit(m, r) => StartsMoveNothing(s, m, r, None, id);
    case DoStartRun(m, r, diarize) => StartsMoveNothing(s, m, r, diarize, id);
    case _ =>
  }

  /** A job's row changes only by a claim, under a proven lease, by expiry or by cancellation. */
  lemma {:induction false} JobsMoveOnlyByRight(s: State, step: Step, id: JobId)
    requires RefsOk(s) && id in s.queue.jobs && !MayMove(s, step, id)
    ensures SameRow(s.queue, Next(s, step).queue, id)
  {
    if IsWorkerStep(step) {
      WorkersMoveOnlyByRight(s, step, id);
    } else if IsDeletionStep(step) {
      DeletionsMoveNothing(s, step, id);
    } else {
      OthersMoveOnlyByRight(s, step, id);
    }
  }

  // ---- A lost lease stays lost ----------------------------------------------------------

  /** The attempt is over: a later one began, or this one no longer holds its lease. */
  predicate Lost(s: State, proof: Proof)
  {
    && proof.job.run in s.usedRuns
    && (|| proof.job.run !in s.queue.runs
        || (proof.job in s.queue.jobs
            && var j := s.queue.jobs[proof.job];
               j.attempts > proof.attempt || (j.attempts == proof.attempt && !HoldsLease(j))))
  }

  lemma {:induction false} LostStays(s: State, step: Step, proof: Proof)
    requires RefsOk(s) && Lost(s, proof)
    ensures Lost(Next(s, step), proof)
  {
    NextProgress(s, step);
    var t := Next(s, step);
    if proof.job.run in t.queue.runs {
      assert proof.job.run in s.queue.runs && proof.job in t.queue.jobs;
      assert RowNext(s.queue.jobs[proof.job], t.queue.jobs[proof.job]);
    }
  }

  lemma {:induction false} LostForever(s: State, steps: seq<Step>, proof: Proof)
    requires RefsOk(s) && Lost(s, proof)
    ensures Lost(After(s, steps), proof)
    decreases |steps|
  {
    if steps != [] {
      LostStays(s, steps[0], proof);
      LostForever(Next(s, steps[0]), steps[1..], proof);
    }
  }

  lemma {:induction false} LostIsPowerless(t: State, who: Identity, proof: Proof, leaseMs: nat, declared: U.Digested,
                                           code: string, detail: Option<string>, retryAt: int, reread: Option<Document>)
    requires RefsOk(t) && Lost(t, proof)
    ensures Heartbeat(t, who, proof, leaseMs).0 == t && Heartbeat(t, who, proof, leaseMs).1.Refused?
    ensures ResultInit(t, who, proof, declared).0 == t && ResultInit(t, who, proof, declared).1.Refused?
    ensures Fail(t, who, proof, code, detail, retryAt, reread).0 == t
  {
    assert proof.job in t.queue.jobs ==> proof.job.run in t.queue.runs;
  }

  /** A lost `complete` changes nothing either, unless its job had failed for good. */
  lemma {:induction false} LostCannotComplete(t: State, who: Identity, req: CompleteRequest, transcript: Document, speakers: Document)
    requires RefsOk(t) && Lost(t, req.proof)
    requires req.proof.job in t.queue.jobs ==> t.queue.jobs[req.proof.job].status != Failed
    ensures Complete(t, who, req, transcript, speakers).0 == t
  {
    assert req.proof.job in t.queue.jobs ==> req.proof.job.run in t.queue.runs;
  }

  /** A lost `complete` leaves the queue alone exactly when it does not reopen a failed job. */
  lemma {:induction false} LostCompleteIff(t: State, who: Identity, req: CompleteRequest, transcript: Document, speakers: Document)
    requires RefsOk(t) && RunOk(t.queue, req.proof.job.run) && Lost(t, req.proof)
    ensures Complete(t, who, req, transcript, speakers).0.queue == t.queue
            <==> !ReopensFailedJob(t, DoComplete(who, req, transcript, speakers))
  {
    CompleteKeepsRunIff(t, who, req, transcript, speakers, req.proof.job.run);
    if !ReopensFailedJob(t, DoComplete(who, req, transcript, speakers)) {
      if req.proof.job in t.queue.jobs && t.queue.jobs[req.proof.job].status == Failed {
        LateCompleteIsIdle(t, who, req, transcript, speakers);
      } else {
        LostCannotComplete(t, who, req, transcript, speakers);
      }
    }
  }

  lemma {:induction false} LateCompleteIsIdle(t: State, who: Identity, req: CompleteRequest, transcript: Document, speakers: Document)
    requires RefsOk(t) && RunOk(t.queue, req.proof.job.run) && req.proof.job in t.queue.jobs && t.queue.jobs[req.proof.job].status == Failed
    requires !ReopensFailedJob(t, DoComplete(who, req, transcript, speakers))
    ensures Complete(t, who, req, transcript, speakers).0.queue == t.queue
  {
    var u := U.UploadId(req.proof.job, req.proof.attempt);
    if u in t.uploads && t.queue.jobs[u.job].attempts == u.attempt {
      ClosingFailedKeepsRunIff(t.queue, u, ResultOf(req, transcript, speakers), HasTranscript(t, u.job.run), t.now);
    }
  }

  /**
   Whatever happens after a lease is lost, its old holder's requests change nothing; only a
   `complete` can, and while its run is sound exactly the one that reopens a failed job does.
   */
  lemma {:induction false} StaleWorkersNeverWin(s: State, steps: seq<Step>, who: Identity, req: CompleteRequest, leaseMs: nat,
                                                declared: U.Digested, code: string, detail: Option<string>, retryAt: int,
                                                reread: Option<Document>, transcript: Document, speakers: Document)
    requires RefsOk(s) && Lost(s, req.proof)
    ensures var t := After(s, steps);
            && Heartbeat(t, who, req.proof, leaseMs).0 == t && Heartbeat(t, who, req.proof, leaseMs).1.Refused?
            && ResultInit(t, who, req.proof, declared).0 == t && ResultInit(t, who, req.proof, declared).1.Refused?
            && Fail(t, who, req.proof, code, detail, retryAt, reread).0 == t
            && ((req.proof.job in t.queue.jobs ==> t.queue.jobs[req.proof.job].status != Failed)
                ==> Complete(t, who, req, transcript, speakers).0 == t)
            && (RunOk(t.queue, req.proof.job.run) ==>
                  (Complete(t, who, req, transcript, speakers).0.queue == t.queue
                   <==> !ReopensFailedJob(t, DoComplete(who, req, transcript, speakers))))
  {
    LostForever(s, steps, req.proof);
    LostIsPowerless(After(s, steps), who, req.proof, leaseMs, declared, code, detail, retryAt, reread);
    var t := After(s, steps);
    if req.proof.job in t.queue.jobs ==> t.queue.jobs[req.proof.job].status != Failed {
      LostCannotComplete(t, who, req, transcript, speakers);
    }
    if RunOk(t.queue, req.proof.job.run) { LostCompleteIff(t, who, req, transcript, speakers); }
  }

  /** Every way of losing a lease: its expiry swept, its cancellation, or its own completion or failure. */
  lemma {:induction false} LeaseEndsInLost(s: State, step: Step, who: Identity, proof: Proof)
    requires RefsOk(s) && LeaseProven(s, who, proof)
    ensures var t := Next(s, step);
            || Lost(t, proof)
            || (proof.job in t.queue.jobs && HoldsLease(t.queue.jobs[proof.job])
                && t.queue.jobs[proof.job].attempts == proof.attempt
                && t.queue.jobs[proof.job].tokenHash == s.queue.jobs[proof.job].tokenHash
                && t.queue.jobs[proof.job].credential == Some(who.credential))
  {
    NextProgress(s, step);
    var t := Next(s, step);
    assert proof.job.run in s.queue.runs && proof.job.run in s.usedRuns;
    if proof.job.run in t.queue.runs {
      assert RowNext(s.queue.jobs[proof.job], t.queue.jobs[proof.job]);
    }
  }
}
