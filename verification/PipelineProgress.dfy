/**
 How one step of the service moves the tables forward: attempts and times only grow, settled
 rows stay settled, outcomes and versions are written once, and ids are not taken twice.
 */
module PipelineProgress {
  import opened Common
  import opened JobRows
  import opened JobQueue
  import opened QueueInvariant
  import opened QueueProgress
  import opened PipelineState
  import opened PipelineInvariant
  import U = UploadRows

  // ---- One step -----------------------------------------------------------------------

  ghost predicate Progress(s: State, t: State)
  {
    && QueueNext(s.queue, t.queue)
    && s.now <= t.now
    && IdsKept(s, t)
  }

  lemma {:induction false} FailJobProgress(s: State, id: JobId, k: Job, code: string, reread: Option<Document>)
    requires RefsOk(s) && id in s.queue.jobs && RowNext(s.queue.jobs[id], k)
    ensures QueueNext(s.queue, FailJob(s, id, k, code, reread).0.queue)
  {
    StaysNext(s.queue);
    PutNext(s.queue, id, k);
    ResolveNext(s.queue, id, k, code, reread.GetOr(0), HasTranscript(s, id.run));
  }

  lemma {:induction false} FailProgress(s: State, who: Identity, proof: Proof, code: string, detail: Option<string>,
                                        retryAt: int, reread: Option<Document>)
    requires RefsOk(s)
    ensures QueueNext(s.queue, Fail(s, who, proof, code, detail, retryAt, reread).0.queue)
  {
    StaysNext(s.queue);
    var a := Authorize(s, who, proof, true);
    if a.Done? && !Terminal(a.value) {
      FailJobProgress(s, proof.job, MarkedFailed(a.value, code, KeptDetail(detail), retryAt), code, reread);
    }
  }

  lemma {:induction false} CloseJobProgress(s: State, u: UploadId, req: CompleteRequest, transcript: Document, speakers: Document)
    requires RefsOk(s) && u in s.uploads
    ensures QueueNext(s.queue, CloseJob(s, u, req, transcript, speakers).0.queue)
  {
    CloseNext(s.queue, u, ResultOf(req, transcript, speakers), HasTranscript(s, u.job.run), s.now);
  }

  /** A `complete` that writes anything is the closing of the attempt it names. */
  lemma CompleteClosesOrNothing(s: State, who: Identity, req: CompleteRequest, transcript: Document, speakers: Document)
    requires RefsOk(s)
    ensures var u := U.UploadId(req.proof.job, req.proof.attempt);
            || Complete(s, who, req, transcript, speakers).0 == s
            || (u in s.uploads && Complete(s, who, req, transcript, speakers) == CloseJob(s, u, req, transcript, speakers))
  {
  }

  lemma {:induction false} CompleteProgress(s: State, who: Identity, req: CompleteRequest, transcript: Document, speakers: Document)
    requires RefsOk(s)
    ensures QueueNext(s.queue, Complete(s, who, req, transcript, speakers).0.queue)
  {
    StaysNext(s.queue);
    CompleteClosesOrNothing(s, who, req, transcript, speakers);
    var u := U.UploadId(req.proof.job, req.proof.attempt);
    if u in s.uploads { CloseJobProgress(s, u, req, transcript, speakers); }
  }

  lemma {:induction false} HeartbeatProgress(s: State, who: Identity, proof: Proof, leaseMs: nat)
    requires RefsOk(s)
    ensures QueueNext(s.queue, Heartbeat(s, who, proof, leaseMs).0.queue)
  {
    StaysNext(s.queue);
    var a := Authorize(s, who, proof, false);
    if a.Done? { PutNext(s.queue, proof.job, Renewed(a.value, s.now + leaseMs)); }
  }

  lemma {:induction false} ResultInitProgress(s: State, who: Identity, proof: Proof, declared: U.Digested)
    requires RefsOk(s)
    ensures QueueNext(s.queue, ResultInit(s, who, proof, declared).0.queue)
  {
    StaysNext(s.queue);
    var a := Authorize(s, who, proof, false);
    if a.Done? { PutNext(s.queue, proof.job, MarkedUploading(a.value)); }
  }

  lemma {:induction false} StartsProgress(s: State, m: Id, r: Id, diarize: Option<bool>)
    requires RefsOk(s)
    ensures QueueNext(s.queue, UploadCommit(s, m, r).queue)
    ensures QueueNext(s.queue, StartRun(s, m, r, diarize).queue)
  {
    StaysNext(s.queue);
    var active := ActiveRun(s.queue, m);
    if active.Some? { EnqueueNext(s.queue, active.value, Normalize, s.now); }
    if r !in s.usedRuns {
      assert r !in s.queue.runs;
      OpenRunNext(s.queue, m, r, None, s.now);
      OpenRunNext(s.queue, m, r, diarize, s.now);
    }
  }

  lemma {:induction false} ClaimProgress(s: State, who: Identity, id: JobId, secret: string, leaseMs: nat)
    requires RefsOk(s)
    ensures QueueNext(s.queue, Claim(s, who, id, secret, leaseMs).queue)
  {
    StaysNext(s.queue);
    if MayClaim(s, who, id) {
      var k := Claimed(s.queue.jobs[id], id, who.credential, secret, s.now + leaseMs);
      assert Claim(s, who, id, secret, leaseMs).queue == PutJob(s.queue, id, k);
      PutNext(s.queue, id, k);
    }
  }

  lemma {:induction false} WorkersProgress(s: State, step: Step)
    requires RefsOk(s) && IsWorkerStep(step)
    ensures QueueNext(s.queue, Next(s, step).queue)
  {
    match step
    case DoClaim(who, job, secret, leaseMs) => ClaimProgress(s, who, job, secret, leaseMs);
    case DoHeartbeat(who, proof, leaseMs) => HeartbeatProgress(s, who, proof, leaseMs);
    case DoResultInit(who, proof, declared) => ResultInitProgress(s, who, proof, declared);
    case DoFail(who, proof, code, detail, retryAt, reread) => FailProgress(s, who, proof, code, detail, retryAt, reread);
    case DoComplete(who, req, transcript, speakers) => CompleteProgress(s, who, req, transcript, speakers);
  }

  lemma RefsLinkQueue(s: State)
    requires RefsOk(s)
    ensures Linked(s.queue)
  {
  }

  lemma {:induction false} DeletionsProgress(s: State, step: Step)
    requires RefsOk(s) && IsDeletionStep(step)
    ensures QueueNext(s.queue, Next(s, step).queue)
  {
    hide RefsOk, QueueNext;
    RefsLinkQueue(s);
    StaysNext(s.queue);
    if step.DoDeleteRow? { DropNext(s.queue, step.p.meeting); }
  }

  lemma {:induction false} OthersProgress(s: State, step: Step)
    requires RefsOk(s) && !IsWorkerStep(step) && !IsDeletionStep(step)
    ensures QueueNext(s.queue, Next(s, step).queue)
  {
    StaysNext(s.queue);
    match step
    case DoUploadCommit(m, r) => StartsProgress(s, m, r, None);
    case DoStartRun(m, r, diarize) => StartsProgress(s, m, r, diarize);
    case DoSweep => SweepNext(s.queue, s.now);
    case DoCancel(m) => CancelNext(s.queue, m);
    case _ =>
  }

  lemma {:induction false} NextQueueProgress(s: State, step: Step)
    requires RefsOk(s)
    ensures QueueNext(s.queue, Next(s, step).queue)
  {
    if IsWorkerStep(step) {
      WorkersProgress(s, step);
    } else if IsDeletionStep(step) {
      DeletionsProgress(s, step);
    } else {
      OthersProgress(s, step);
    }
  }

  /** Run ids are never taken twice, not even after a deletion. */
  ghost predicate IdsKept(s: State, t: State)
  {
    && s.usedRuns <= t.usedRuns
    && (forall r | r in t.queue.runs && r !in s.queue.runs :: r !in s.usedRuns)
  }

  lemma FailJobIds(s: State, id: JobId, j: Job, code: string, reread: Option<Document>)
    requires RefsOk(s) && id in s.queue.jobs
    ensures IdsKept(s, FailJob(s, id, j, code, reread).0)
  {
  }

  lemma {:induction false} FailIds(s: State, who: Identity, proof: Proof, code: string, detail: Option<string>,
                                   retryAt: int, reread: Option<Document>)
    requires RefsOk(s)
    ensures IdsKept(s, Fail(s, who, proof, code, detail, retryAt, reread).0)
  {
    var a := Authorize(s, who, proof, true);
    if a.Done? && !Terminal(a.value) {
      FailJobIds(s, proof.job, MarkedFailed(a.value, code, KeptDetail(detail), retryAt), code, reread);
    }
  }

  lemma CloseJobIds(s: State, u: UploadId, req: CompleteRequest, transcript: Document, speakers: Document)
    requires RefsOk(s) && u in s.uploads
    ensures IdsKept(s, CloseJob(s, u, req, transcript, speakers).0)
  {
  }

  lemma {:induction false} CompleteIds(s: State, who: Identity, req: CompleteRequest, transcript: Document, speakers: Document)
    requires RefsOk(s)
    ensures IdsKept(s, Complete(s, who, req, transcript, speakers).0)
  {
    var a := Authorize(s, who, req.proof, true);
    if a.Done? {
      var u := U.UploadId(req.proof.job, a.value.attempts);
      if u in s.uploads { CloseJobIds(s, u, req, transcript, speakers); }
    }
  }

  lemma LeaseStepsIds(s: State, who: Identity, proof: Proof, leaseMs: nat, declared: U.Digested)
    requires RefsOk(s)
    ensures IdsKept(s, Heartbeat(s, who, proof, leaseMs).0)
    ensures IdsKept(s, ResultInit(s, who, proof, declared).0)
  {
  }

  lemma ClaimIds(s: State, who: Identity, id: JobId, secret: string, leaseMs: nat)
    requires RefsOk(s)
    ensures IdsKept(s, Claim(s, who, id, secret, leaseMs))
  {
  }

  lemma {:induction false} NextIds(s: State, step: Step)
    requires RefsOk(s)
    ensures IdsKept(s, Next(s, step)) && s.now <= Next(s, step).now
  {
    hide RefsOk;
    match step
    case DoFail(who, proof, code, detail, retryAt, reread) => FailIds(s, who, proof, code, detail, retryAt, reread);
    case DoComplete(who, req, transcript, speakers) => CompleteIds(s, who, req, transcript, speakers);
    case DoHeartbeat(who, proof, leaseMs) => LeaseStepsIds(s, who, proof, leaseMs, U.Digested(0, ""));
    case DoResultInit(who, proof, declared) => LeaseStepsIds(s, who, proof, 0, declared);
    case DoClaim(who, job, secret, leaseMs) => ClaimIds(s, who, job, secret, leaseMs);
    case _ =>
  }

  lemma {:induction false} NextProgress(s: State, step: Step)
    requires RefsOk(s)
    ensures Progress(s, Next(s, step))
  {
    NextQueueProgress(s, step);
    NextIds(s, step);
  }
}
