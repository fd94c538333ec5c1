/**
 The queue's invariant over whole runs of the service: every transaction, by every worker
 and user and in any order, keeps it, except one branch that the source lets through.
 */
module PipelineInvariant {
  import opened Common
  import opened JobRows
  import opened JobQueue
  import opened QueueInvariant
  import opened PipelineState
  import U = UploadRows

  predicate UploadRowsOk(uploads: map<UploadId, Upload>, now: int)
  {
    forall u {:trigger U.RowOk(uploads[u], now)} | u in uploads :: U.RowOk(uploads[u], now)
  }

  ghost predicate PipelineOk(s: State)
  {
    RefsOk(s) && QueueOk(s.queue) && UploadRowsOk(s.uploads, s.now)
  }

  /** The step closes a job that had failed for good, and that changes the queue. */
  ghost predicate ReopensFailedJob(s: State, step: Step)
    requires RefsOk(s)
  {
    && step.DoComplete?
    && var req := step.req;
       var a := Authorize(s, step.who, req.proof, true);
       && a.Done? && a.value.status == Failed && ProbeError(req.proof.job.stage, req.probe).None?
       && var u := U.UploadId(req.proof.job, a.value.attempts);
          u in s.uploads && !ClosesNothing(s.queue, u, HasTranscript(s, u.job.run))
  }

  // ---- Uploads ------------------------------------------------------------------------

  lemma {:induction false} RowsAge(uploads: map<UploadId, Upload>, now: int, dt: nat)
    requires UploadRowsOk(uploads, now)
    ensures UploadRowsOk(uploads, now + dt)
  {
    forall u | u in uploads ensures U.RowOk(uploads[u], now + dt) { assert U.RowOk(uploads[u], now); }
  }

  lemma OneUploadChanges(uploads: map<UploadId, Upload>, u: UploadId, row: Upload, now: int)
    requires UploadRowsOk(uploads, now) && U.RowOk(row, now)
    ensures UploadRowsOk(uploads[u := row], now)
  {
  }

  lemma {:induction false} IngestKeepsUploads(uploads: map<UploadId, Upload>, r: Id, now: int)
    requires UploadRowsOk(uploads, now)
    ensures UploadRowsOk(IngestUploads(uploads, r, now), now)
  {
    forall u | u in uploads ensures U.RowOk(IngestUploads(uploads, r, now)[u], now) {
      U.StatementsKeepRowOk(uploads[u], U.Digested(0, ""), "", now);
    }
  }

  lemma ResultInitUploads(s: State, who: Identity, proof: Proof, declared: U.Digested)
    requires RefsOk(s)
    ensures var u := U.UploadId(proof.job, proof.attempt);
            var t := ResultInit(s, who, proof, declared).0;
            t.uploads == s.uploads || t.uploads == s.uploads[u := U.Initiated(UploadAt(s, u), s.now + s.putTtl, declared, s.now)]
  {
  }

  lemma {:induction false} ResultInitKeepsUploads(s: State, who: Identity, proof: Proof, declared: U.Digested)
    requires RefsOk(s) && UploadRowsOk(s.uploads, s.now)
    ensures UploadRowsOk(ResultInit(s, who, proof, declared).0.uploads, s.now)
  {
    var u := U.UploadId(proof.job, proof.attempt);
    if u in s.uploads { assert U.RowOk(s.uploads[u], s.now); }
    U.InitKeepsRowOk(UploadAt(s, u), s.now + s.putTtl, declared, s.now);
    OneUploadChanges(s.uploads, u, U.Initiated(UploadAt(s, u), s.now + s.putTtl, declared, s.now), s.now);
    ResultInitUploads(s, who, proof, declared);
  }

  lemma {:induction false} VerdictKeepsUploads(s: State, u: UploadId, observed: U.Digested, code: string)
    requires RefsOk(s) && UploadRowsOk(s.uploads, s.now)
    ensures UploadRowsOk(VerifyUpload(s, u, observed).uploads, s.now)
    ensures UploadRowsOk(RejectUpload(s, u, code).uploads, s.now)
  {
    if u in s.uploads {
      U.StatementsKeepRowOk(s.uploads[u], observed, code, s.now);
      OneUploadChanges(s.uploads, u, U.MarkedVerified(s.uploads[u], observed, s.now), s.now);
      OneUploadChanges(s.uploads, u, U.MarkedRejected(s.uploads[u], code, s.now), s.now);
    }
  }

  lemma {:induction false} CompleteKeepsUploads(s: State, who: Identity, req: CompleteRequest, transcript: Document, speakers: Document)
    requires RefsOk(s) && UploadRowsOk(s.uploads, s.now)
    ensures UploadRowsOk(Complete(s, who, req, transcript, speakers).0.uploads, s.now)
  {
    IngestKeepsUploads(s.uploads, req.proof.job.run, s.now);
    var a := Authorize(s, who, req.proof, true);
    if a.Done? {
      var u := U.UploadId(req.proof.job, a.value.attempts);
      if u in s.uploads {
        U.StatementsKeepRowOk(s.uploads[u], U.Digested(0, ""), "", s.now);
        OneUploadChanges(s.uploads, u, U.MarkedIngested(s.uploads[u], s.now), s.now);
      }
    }
  }

  lemma {:induction false} FailKeepsUploads(s: State, who: Identity, proof: Proof, code: string, detail: Option<string>, retryAt: int,
                                            reread: Option<Document>)
    requires RefsOk(s) && UploadRowsOk(s.uploads, s.now)
    ensures UploadRowsOk(Fail(s, who, proof, code, detail, retryAt, reread).0.uploads, s.now)
  {
    IngestKeepsUploads(s.uploads, proof.job.run, s.now);
  }

  lemma {:induction false} WorkersKeepUploadRows(s: State, step: Step)
    requires RefsOk(s) && UploadRowsOk(s.uploads, s.now) && IsWorkerStep(step)
    ensures UploadRowsOk(Next(s, step).uploads, s.now)
  {
    match step
    case DoFail(who, proof, code, detail, retryAt, reread) => FailKeepsUploads(s, who, proof, code, detail, retryAt, reread);
    case DoResultInit(who, proof, declared) => ResultInitKeepsUploads(s, who, proof, declared);
    case DoComplete(who, req, transcript, speakers) => CompleteKeepsUploads(s, who, req, transcript, speakers);
    case _ =>
  }

  lemma {:induction false} OthersKeepUploadRows(s: State, step: Step)
    requires RefsOk(s) && UploadRowsOk(s.uploads, s.now) && !IsWorkerStep(step)
    ensures UploadRowsOk(Next(s, step).uploads, Next(s, step).now)
  {
    hide RefsOk;
    match step
    case DoVerify(u, observed) => VerdictKeepsUploads(s, u, observed, "");
    case DoReject(u, reason) => VerdictKeepsUploads(s, u, U.Digested(0, ""), reason);
    case DoTick(dt) => RowsAge(s.uploads, s.now, dt);
    case _ =>
  }

  lemma {:induction false} NextKeepsUploadRows(s: State, step: Step)
    requires RefsOk(s) && UploadRowsOk(s.uploads, s.now)
    ensures UploadRowsOk(Next(s, step).uploads, Next(s, step).now)
  {
    if IsWorkerStep(step) { WorkersKeepUploadRows(s, step); } else { OthersKeepUploadRows(s, step); }
  }

  // ---- The queue ----------------------------------------------------------------------

  lemma ClaimPutsJob(s: State, who: Identity, id: JobId, secret: string, leaseMs: nat)
    requires RefsOk(s) && MayClaim(s, who, id)
    ensures Claim(s, who, id, secret, leaseMs).queue
            == PutJob(s.queue, id, Claimed(s.queue.jobs[id], id, who.credential, secret, s.now + leaseMs))
  {
  }

  lemma {:induction false} ClaimKeepsQueue(s: State, who: Identity, id: JobId, secret: string, leaseMs: nat)
    requires RefsOk(s) && QueueOk(s.queue)
    ensures QueueOk(Claim(s, who, id, secret, leaseMs).queue)
  {
    if MayClaim(s, who, id) {
      assert RowOk(s.queue.jobs[id]);
      OpenStaysOpen(s.queue, id, Claimed(s.queue.jobs[id], id, who.credential, secret, s.now + leaseMs));
      ClaimPutsJob(s, who, id, secret, leaseMs);
    }
  }

  lemma {:induction false} LeaseStepsKeepQueue(s: State, who: Identity, proof: Proof, leaseMs: nat, declared: U.Digested)
    requires RefsOk(s) && QueueOk(s.queue)
    ensures QueueOk(Heartbeat(s, who, proof, leaseMs).0.queue)
    ensures QueueOk(ResultInit(s, who, proof, declared).0.queue)
  {
    if Authorize(s, who, proof, false).Done? {
      var j := s.queue.jobs[proof.job];
      assert RowOk(s.queue.jobs[proof.job]);
      OpenStaysOpen(s.queue, proof.job, Renewed(j, s.now + leaseMs));
      OpenStaysOpen(s.queue, proof.job, MarkedUploading(j));
    }
  }

  lemma {:induction false} FailKeepsQueue(s: State, who: Identity, proof: Proof, code: string, detail: Option<string>,
                                          retryAt: int, reread: Option<Document>)
    requires RefsOk(s) && QueueOk(s.queue)
    ensures QueueOk(Fail(s, who, proof, code, detail, retryAt, reread).0.queue)
  {
    var a := Authorize(s, who, proof, true);
    if a.Done? && !Terminal(a.value) {
      var j := MarkedFailed(a.value, code, KeptDetail(detail), retryAt);
      assert RowOk(a.value) && RowOk(j);
      if j.status == Queued {
        OpenStaysOpen(s.queue, proof.job, j);
      } else {
        ResolveKeepsQueue(s.queue, proof.job, j, code, reread.GetOr(0), HasTranscript(s, proof.job.run));
      }
    }
  }

  /** An accepted `complete` keeps the queue exactly when it does not reopen a failed job. */
  lemma {:induction false} CompleteKeepsQueueIff(s: State, who: Identity, req: CompleteRequest, transcript: Document, speakers: Document)
    requires RefsOk(s) && QueueOk(s.queue)
    ensures QueueOk(Complete(s, who, req, transcript, speakers).0.queue)
            <==> !ReopensFailedJob(s, DoComplete(who, req, transcript, speakers))
  {
    var a := Authorize(s, who, req.proof, true);
    if a.Done? && a.value.status != Succeeded && ProbeError(req.proof.job.stage, req.probe).None? {
      var u := U.UploadId(req.proof.job, a.value.attempts);
      if u in s.uploads {
        var result := ResultOf(req, transcript, speakers);
        var usable := HasTranscript(s, u.job.run);
        if a.value.status == Failed {
          ClosingFailedKeepsIff(s.queue, u, result, usable, s.now);
        } else {
          CloseKeepsQueue(s.queue, u, result, usable, s.now);
        }
      }
    }
  }

  lemma {:induction false} StartsKeepQueue(s: State, m: Id, r: Id, diarize: Option<bool>)
    requires RefsOk(s) && QueueOk(s.queue)
    ensures QueueOk(UploadCommit(s, m, r).queue) && QueueOk(StartRun(s, m, r, diarize).queue)
  {
    var active := ActiveRun(s.queue, m);
    if active.Some? {
      assert ShapeOk(ViewOf(s.queue, active.value));
      assert Enqueue(s.queue, active.value, Normalize, s.now) == s.queue;
    } else if r !in s.usedRuns {
      OpenRunKeepsQueue(s.queue, m, r, None, s.now);
      OpenRunKeepsQueue(s.queue, m, r, diarize, s.now);
    }
  }

  lemma {:induction false} WorkersKeepQueueIff(s: State, step: Step)
    requires RefsOk(s) && QueueOk(s.queue) && IsWorkerStep(step)
    ensures QueueOk(Next(s, step).queue) <==> !ReopensFailedJob(s, step)
  {
    hide RefsOk, QueueOk;
    match step
    case DoClaim(who, job, secret, leaseMs) => ClaimKeepsQueue(s, who, job, secret, leaseMs);
    case DoHeartbeat(who, proof, leaseMs) => LeaseStepsKeepQueue(s, who, proof, leaseMs, U.Digested(0, ""));
    case DoResultInit(who, proof, declared) => LeaseStepsKeepQueue(s, who, proof, 0, declared);
    case DoFail(who, proof, code, detail, retryAt, reread) => FailKeepsQueue(s, who, proof, code, detail, retryAt, reread);
    case DoComplete(who, req, transcript, speakers) => CompleteKeepsQueueIff(s, who, req, transcript, speakers);
  }

  lemma {:induction false} OthersKeepQueue(s: State, step: Step)
    requires RefsOk(s) && QueueOk(s.queue) && !IsWorkerStep(step)
    ensures QueueOk(Next(s, step).queue)
  {
    hide RefsOk, QueueOk;
    match step
    case DoUploadCommit(m, r) => StartsKeepQueue(s, m, r, None);
    case DoStartRun(m, r, diarize) => StartsKeepQueue(s, m, r, diarize);
    case DoSweep => SweepKeepsQueue(s.queue, s.now);
    case DoCancel(m) => CancelKeepsQueue(s.queue, m);
    case DoDeleteRow(p) => DropKeepsQueue(s.queue, p.meeting);
    case _ =>
  }

  /** Every step keeps the whole invariant, except exactly the one that reopens a failed job. */
  lemma {:induction false} NextKeepsPipelineIff(s: State, step: Step)
    requires PipelineOk(s)
    ensures PipelineOk(Next(s, step)) <==> !ReopensFailedJob(s, step)
  {
    NextKeepsUploadRows(s, step);
    if IsWorkerStep(step) { WorkersKeepQueueIff(s, step); } else { OthersKeepQueue(s, step); }
  }
}
