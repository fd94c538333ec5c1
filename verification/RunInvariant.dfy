/**
 What every transaction keeps of one run, whatever becomes of the others: its job rows, always;
 its shape, except when its own failed job is closed. A job reopened elsewhere does not matter.
 */
module RunInvariant {
  import opened Common
  import opened JobRows
  import opened JobQueue
  import opened QueueInvariant
  import opened PipelineState
  import opened PipelineInvariant
  import opened PipelineProgress
  import U = UploadRows

  // ---- Rows, whatever happens -----------------------------------------------------------------

  lemma PutKeepsRows(q: Queue, id: JobId, j: Job)
    requires Linked(q) && RowsOk(q) && id.run in q.runs && RowOk(j)
    ensures RowsOk(PutJob(q, id, j))
  {
  }

  lemma EnqueueKeepsRows(q: Queue, r: Id, stage: Stage, now: int)
    requires Linked(q) && RowsOk(q) && r in q.runs
    ensures RowsOk(Enqueue(q, r, stage, now))
  {
    if JobId(r, stage) in q.jobs { assert RowOk(q.jobs[JobId(r, stage)]); }
    PutKeepsRows(q, JobId(r, stage), if JobId(r, stage) in q.jobs then q.jobs[JobId(r, stage)] else Fresh(now));
  }

  lemma SameRowsOk(q: Queue, t: Queue)
    requires RowsOk(q) && t.jobs == q.jobs
    ensures RowsOk(t)
  {
    forall j | j in t.jobs ensures RowOk(t.jobs[j]) { assert RowOk(q.jobs[j]); }
  }

  lemma CloseKeepsRows(q: Queue, u: U.UploadId, result: Result, usable: bool, now: int)
    requires Linked(q) && RowsOk(q) && u.job in q.jobs
    ensures RowsOk(Close(q, u, result, usable, now))
  {
    var (k, r) := (MarkedSucceeded(q.jobs[u.job]), u.job.run);
    assert RowOk(q.jobs[u.job]);
    PutKeepsRows(q, u.job, k);
    var p := PutJob(q, u.job, k);
    match u.job.stage
    case Normalize =>
      SameRowsOk(p, InsertMedia(p, u, result.medium));
      EnqueueKeepsRows(InsertMedia(p, u, result.medium), r, Transcribe, now);
    case Transcribe =>
      EnqueueKeepsRows(p, r, Diarize, now);
      SameRowsOk(p, Ingest(p, r, NotAsked, result.transcript, usable));
    case Diarize => SameRowsOk(p, Ingest(p, r, Aligned(result.speakers), result.transcript, usable));
  }

  lemma ResolveKeepsRows(q: Queue, id: JobId, j: Job, code: string, transcript: Document, usable: bool)
    requires Linked(q) && RowsOk(q) && id in q.jobs && RowOk(j)
    ensures RowsOk(Resolve(PutJob(q, id, j), id, code, transcript, usable))
  {
    PutKeepsRows(q, id, j);
    SameRowsOk(PutJob(q, id, j), Resolve(PutJob(q, id, j), id, code, transcript, usable));
  }

  lemma CancelKeepsRows(q: Queue, m: Id)
    requires Linked(q) && RowsOk(q)
    ensures RowsOk(CancelAll(q, m))
  {
    forall j | j in q.jobs ensures RowOk(CancelAll(q, m).jobs[j]) { assert RowOk(q.jobs[j]); }
  }

  lemma DropKeepsRows(q: Queue, m: Id)
    requires Linked(q) && RowsOk(q)
    ensures RowsOk(Drop(q, m))
  {
    forall j | j in Drop(q, m).jobs ensures RowOk(Drop(q, m).jobs[j]) { assert RowOk(q.jobs[j]); }
  }

  // ---- The shape of one run -----------------------------------------------------------------------

  lemma ElsewhereKeepsRun(q: Queue, t: Queue, p: Id, r: Id)
    requires RunOk(q, r) && AgreeOff(p, q, t) && r != p
    ensures RunOk(t, r)
  {
    if r in t.runs { assert ViewOf(t, r) == ViewOf(q, r); }
  }

  lemma OpenKeepsRun(q: Queue, id: JobId, j: Job, r: Id)
    requires Linked(q) && RunOk(q, r) && id in q.jobs && Unsettled(q.jobs[id]) && StillOpen(j)
    ensures RunOk(PutJob(q, id, j), r)
  {
    if r == id.run {
      UnsettledIsOpen(q, id);
      assert ShapeOk(ViewOf(q, r));
    } else {
      ElsewhereKeepsRun(q, PutJob(q, id, j), id.run, r);
    }
  }

  lemma FinishedKeepsRun(q: Queue, t: Queue, id: JobId, j: Job, o: Outcome, version: Option<Version>, r: Id)
    requires Linked(q) && RunOk(q, r) && RunOk(q, id.run) && id in q.jobs && Unsettled(q.jobs[id])
    requires !Unsettled(j) && Deserved(id, j, o, version) && Finished(q, t, id, j, o, version)
    ensures RunOk(t, r)
  {
    if r == id.run {
      FinishedShape(q, t, id, j, o, version);
    } else {
      assert AgreeOff(id.run, q, t);
      ElsewhereKeepsRun(q, t, id.run, r);
    }
  }

  lemma ResolveAgreesOff(q: Queue, id: JobId, j: Job, code: string, transcript: Document, usable: bool)
    requires Linked(q) && id in q.jobs
    ensures AgreeOff(id.run, q, Resolve(PutJob(q, id, j), id, code, transcript, usable))
  {
  }

  lemma ResolveKeepsRun(q: Queue, id: JobId, j: Job, code: string, transcript: Document, usable: bool, r: Id)
    requires Linked(q) && RunOk(q, r) && id in q.jobs && Unsettled(q.jobs[id]) && j.status == Failed
    ensures RunOk(Resolve(PutJob(q, id, j), id, code, transcript, usable), r)
  {
    var t := Resolve(PutJob(q, id, j), id, code, transcript, usable);
    if r != id.run {
      ResolveAgreesOff(q, id, j, code, transcript, usable);
      ElsewhereKeepsRun(q, t, id.run, r);
    } else if id.stage == Diarize && usable {
      IngestFinishes(q, id, j, GaveUp(code), transcript);
      FinishedKeepsRun(q, t, id, j, RunPartial, Some(Version(transcript, None)), r);
    } else {
      assert Finished(q, t, id, j, RunFailed, None) by { UnsettledIsOpen(q, id); }
      FinishedKeepsRun(q, t, id, j, RunFailed, None, r);
    }
  }

  lemma IngestKeepsRun(q: Queue, id: JobId, j: Job, how: DiarizationOutcome, transcript: Document, usable: bool)
    requires Linked(q) && RunOk(q, id.run) && id in q.jobs && Unsettled(q.jobs[id]) && j.status == Succeeded
    requires (id.stage == Transcribe && how.NotAsked?) || (id.stage == Diarize && how.Aligned?)
    ensures RunOk(Ingest(PutJob(q, id, j), id.run, how, transcript, usable), id.run)
  {
    var t := Ingest(PutJob(q, id, j), id.run, how, transcript, usable);
    if usable {
      IngestFinishes(q, id, j, how, transcript);
      FinishedKeepsRun(q, t, id, j, RunSucceeded, Some(Version(transcript, if how.Aligned? then Some(how.speakers) else None)), id.run);
    } else {
      assert Finished(q, t, id, j, RunFailed, None) by { UnsettledIsOpen(q, id); }
      FinishedKeepsRun(q, t, id, j, RunFailed, None, id.run);
    }
  }

  lemma AdvanceKeepsRun(q: Queue, id: JobId, next: Stage, t: Queue, now: int)
    requires Linked(q) && RunOk(q, id.run) && id in q.jobs && HoldsLease(q.jobs[id])
    requires (id.stage == Normalize && next == Transcribe) || (id.stage == Transcribe && next == Diarize)
    requires t.runs == q.runs && t.versions == q.versions
    requires t.jobs == q.jobs[id := MarkedSucceeded(q.jobs[id])][JobId(id.run, next) := Fresh(now)]
    ensures RunOk(t, id.run)
  {
    UnsettledIsOpen(q, id);
    assert ShapeOk(ViewOf(q, id.run));
  }

  lemma AgreesThrough(r: Id, q: Queue, p: Queue, t: Queue)
    requires AgreeOff(r, q, p) && AgreeOff(r, p, t)
    ensures AgreeOff(r, q, t)
  {
    forall x, g: Stage | x != r ensures JobAt(t, x, g) == JobAt(q, x, g) { assert JobAt(p, x, g) == JobAt(q, x, g); }
  }

  lemma PutAgreesOff(q: Queue, id: JobId, j: Job)
    requires Linked(q) && id.run in q.runs
    ensures AgreeOff(id.run, q, PutJob(q, id, j))
  {
  }

  lemma InsertAgreesOff(q: Queue, u: U.UploadId, row: Media)
    requires Linked(q) && u.job in q.jobs
    ensures AgreeOff(u.job.run, q, InsertMedia(q, u, row))
  {
  }

  lemma IngestAgreesOff(q: Queue, r: Id, how: DiarizationOutcome, transcript: Document, usable: bool)
    requires Linked(q) && r in q.runs
    ensures AgreeOff(r, q, Ingest(q, r, how, transcript, usable))
  {
  }

  lemma EnqueueAgreesOff(q: Queue, r: Id, stage: Stage, now: int)
    requires Linked(q) && r in q.runs
    ensures AgreeOff(r, q, Enqueue(q, r, stage, now))
  {
    PutAgreesOff(q, JobId(r, stage), if JobId(r, stage) in q.jobs then q.jobs[JobId(r, stage)] else Fresh(now));
  }

  lemma CloseAgreesOff(q: Queue, u: U.UploadId, result: Result, usable: bool, now: int)
    requires Linked(q) && u.job in q.jobs
    ensures AgreeOff(u.job.run, q, Close(q, u, result, usable, now))
  {
    hide AgreeOff, InsertMedia, Enqueue, Ingest, PutJob;
    var (r, t) := (u.job.run, Close(q, u, result, usable, now));
    var p := PutJob(q, u.job, MarkedSucceeded(q.jobs[u.job]));
    PutAgreesOff(q, u.job, MarkedSucceeded(q.jobs[u.job]));
    PutKeeps(q, u.job, MarkedSucceeded(q.jobs[u.job]));
    match u.job.stage
    case Normalize =>
      var i := InsertMedia(p, u, result.medium);
      InsertAgreesOff(p, u, result.medium);
      InsertKeeps(p, u, result.medium);
      EnqueueAgreesOff(i, r, Transcribe, now);
      AgreesThrough(r, q, p, i);
      AgreesThrough(r, q, i, t);
    case Transcribe =>
      EnqueueAgreesOff(p, r, Diarize, now);
      IngestAgreesOff(p, r, NotAsked, result.transcript, usable);
      AgreesThrough(r, q, p, t);
    case Diarize =>
      IngestAgreesOff(p, r, Aligned(result.speakers), result.transcript, usable);
      AgreesThrough(r, q, p, t);
  }

  lemma PutKeeps(q: Queue, id: JobId, j: Job)
    requires Linked(q) && id in q.jobs
    ensures id in PutJob(q, id, j).jobs && PutJob(q, id, j).runs == q.runs
  {
  }

  lemma InsertKeeps(q: Queue, u: U.UploadId, row: Media)
    requires Linked(q) && u.job in q.jobs
    ensures InsertMedia(q, u, row).runs == q.runs
  {
  }

  /** Closing a leased job keeps its run's shape. */
  lemma CloseKeepsOwnRun(q: Queue, u: U.UploadId, result: Result, usable: bool, now: int)
    requires Linked(q) && RunOk(q, u.job.run) && u.job in q.jobs && HoldsLease(q.jobs[u.job])
    ensures RunOk(Close(q, u, result, usable, now), u.job.run)
  {
    var (id, t) := (u.job, Close(q, u, result, usable, now));
    var j := MarkedSucceeded(q.jobs[id]);
    UnsettledIsOpen(q, id);
    match id.stage
    case Normalize => AdvanceKeepsRun(q, id, Transcribe, t, now);
    case Transcribe =>
      if WantsDiarization(q, q.runs[id.run].meeting) {
        AdvanceKeepsRun(q, id, Diarize, t, now);
      } else {
        IngestKeepsRun(q, id, j, NotAsked, result.transcript, usable);
      }
    case Diarize => IngestKeepsRun(q, id, j, Aligned(result.speakers), result.transcript, usable);
  }

  /** What a `complete` makes of a run's shape: nothing bad, unless it closes this run's failed job. */
  lemma CloseKeepsRunIff(q: Queue, u: U.UploadId, result: Result, usable: bool, now: int, r: Id)
    requires Linked(q) && RunOk(q, r) && u.job in q.jobs && (HoldsLease(q.jobs[u.job]) || q.jobs[u.job].status == Failed)
    ensures RunOk(Close(q, u, result, usable, now), r)
            <==> !(r == u.job.run && q.jobs[u.job].status == Failed && !ClosesNothing(q, u, usable))
  {
    if r != u.job.run {
      CloseAgreesOff(q, u, result, usable, now);
      ElsewhereKeepsRun(q, Close(q, u, result, usable, now), u.job.run, r);
    } else if q.jobs[u.job].status == Failed {
      ClosingFailedKeepsRunIff(q, u, result, usable, now);
    } else {
      CloseKeepsOwnRun(q, u, result, usable, now);
    }
  }

  lemma OpenRunKeepsRun(q: Queue, m: Id, p: Id, diarize: Option<bool>, now: int, r: Id)
    requires Linked(q) && RunOk(q, r) && p !in q.runs
    ensures RunOk(OpenRun(q, m, p, diarize, now), r)
  {
    var t := OpenRun(q, m, p, diarize, now);
    assert forall g: Stage :: JobId(p, g) !in q.jobs;
    if r != p {
      assert AgreeOff(p, q, t);
      ElsewhereKeepsRun(q, t, p, r);
    }
  }

  lemma EnqueueFirstKeepsRun(q: Queue, p: Id, now: int, r: Id)
    requires Linked(q) && RunOk(q, r) && p in q.runs
    ensures RunOk(Enqueue(q, p, Normalize, now), r)
  {
    var t := Enqueue(q, p, Normalize, now);
    if r == p {
      assert ShapeOk(ViewOf(q, r));
      assert t == q;
    } else {
      ElsewhereKeepsRun(q, t, p, r);
    }
  }

  lemma SweepKeepsRun(q: Queue, now: int, r: Id)
    requires Linked(q) && RunOk(q, r)
    ensures RunOk(SweepAll(q, now), r)
  {
    if r in q.runs { SweepKeepsShape(q, now, r); }
  }

  lemma CancelKeepsRun(q: Queue, m: Id, r: Id)
    requires Linked(q) && RunOk(q, r)
    ensures RunOk(CancelAll(q, m), r)
  {
    if r in q.runs { CancelKeepsShape(q, m, r); }
  }

  lemma DropKeepsRun(q: Queue, m: Id, r: Id)
    requires Linked(q) && RunOk(q, r)
    ensures RunOk(Drop(q, m), r)
  {
    if r in Drop(q, m).runs { assert ViewOf(Drop(q, m), r) == ViewOf(q, r); }
  }

  // ---- Every step ----------------------------------------------------------------------------------

  lemma LeaseStepsPut(s: State, who: Identity, proof: Proof, leaseMs: nat, declared: U.Digested)
    requires RefsOk(s) && Authorize(s, who, proof, false).Done?
    ensures proof.job in s.queue.jobs && HoldsLease(s.queue.jobs[proof.job])
    ensures var j := s.queue.jobs[proof.job];
            && Heartbeat(s, who, proof, leaseMs).0.queue == PutJob(s.queue, proof.job, Renewed(j, s.now + leaseMs))
            && (ResultInit(s, who, proof, declared).0.queue == s.queue
                || ResultInit(s, who, proof, declared).0.queue == PutJob(s.queue, proof.job, MarkedUploading(j)))
  {
  }

  lemma LeaseStepsRefused(s: State, who: Identity, proof: Proof, leaseMs: nat, declared: U.Digested)
    requires RefsOk(s) && !Authorize(s, who, proof, false).Done?
    ensures Heartbeat(s, who, proof, leaseMs).0 == s && ResultInit(s, who, proof, declared).0 == s
  {
  }

  lemma FailWrites(s: State, who: Identity, proof: Proof, code: string, detail: Option<string>, retryAt: int, reread: Option<Document>)
    requires RefsOk(s)
    ensures var t := Fail(s, who, proof, code, detail, retryAt, reread).0;
            || t == s
            || (proof.job in s.queue.jobs && HoldsLease(s.queue.jobs[proof.job])
                && var j := MarkedFailed(s.queue.jobs[proof.job], code, KeptDetail(detail), retryAt);
                   t.queue == if j.status == Queued then PutJob(s.queue, proof.job, j)
                              else Resolve(PutJob(s.queue, proof.job, j), proof.job, code, reread.GetOr(0), HasTranscript(s, proof.job.run)))
  {
  }

  lemma CloseJobWrites(s: State, u: UploadId, req: CompleteRequest, transcript: Document, speakers: Document)
    requires RefsOk(s) && u in s.uploads
    ensures u.job in s.queue.jobs
    ensures CloseJob(s, u, req, transcript, speakers).0.queue
            == Close(s.queue, u, ResultOf(req, transcript, speakers), HasTranscript(s, u.job.run), s.now)
  {
  }

  /** A `complete` changes nothing, or it closes a leased or failed job. */
  lemma CompleteWrites(s: State, who: Identity, req: CompleteRequest, transcript: Document, speakers: Document)
    requires RefsOk(s)
    ensures var u := U.UploadId(req.proof.job, req.proof.attempt);
            var t := Complete(s, who, req, transcript, speakers).0;
            || (t == s && !ReopensFailedJob(s, DoComplete(who, req, transcript, speakers)))
            || (u in s.uploads && u.job in s.queue.jobs && (HoldsLease(s.queue.jobs[u.job]) || s.queue.jobs[u.job].status == Failed)
                && t == CloseJob(s, u, req, transcript, speakers).0
                && (ReopensFailedJob(s, DoComplete(who, req, transcript, speakers))
                    <==> s.queue.jobs[u.job].status == Failed && !ClosesNothing(s.queue, u, HasTranscript(s, u.job.run))))
  {
    hide CloseJob, ClosesNothing;
  }

  lemma WorkersKeepRows(s: State, step: Step)
    requires RefsOk(s) && RowsOk(s.queue) && IsWorkerStep(step)
    ensures RowsOk(Next(s, step).queue)
  {
    match step
    case DoClaim(who, id, secret, leaseMs) => ClaimKeepsRows(s, who, id, secret, leaseMs);
    case DoHeartbeat(who, proof, leaseMs) => LeaseStepsKeepRows(s, who, proof, leaseMs, U.Digested(0, ""));
    case DoResultInit(who, proof, declared) => LeaseStepsKeepRows(s, who, proof, 0, declared);
    case DoFail(who, proof, code, detail, retryAt, reread) => FailKeepsRows(s, who, proof, code, detail, retryAt, reread);
    case DoComplete(who, req, transcript, speakers) => CompleteKeepsRows(s, who, req, transcript, speakers);
  }

  lemma ClaimKeepsRows(s: State, who: Identity, id: JobId, secret: string, leaseMs: nat)
    requires RefsOk(s) && RowsOk(s.queue)
    ensures RowsOk(Claim(s, who, id, secret, leaseMs).queue)
  {
    if MayClaim(s, who, id) {
      assert RowOk(s.queue.jobs[id]);
      ClaimPutsJob(s, who, id, secret, leaseMs);
      PutKeepsRows(s.queue, id, Claimed(s.queue.jobs[id], id, who.credential, secret, s.now + leaseMs));
    }
  }

  lemma LeaseStepsKeepRows(s: State, who: Identity, proof: Proof, leaseMs: nat, declared: U.Digested)
    requires RefsOk(s) && RowsOk(s.queue)
    ensures RowsOk(Heartbeat(s, who, proof, leaseMs).0.queue) && RowsOk(ResultInit(s, who, proof, declared).0.queue)
  {
    hide Heartbeat, ResultInit, Authorize;
    if Authorize(s, who, proof, false).Done? {
      LeaseStepsPut(s, who, proof, leaseMs, declared);
      var j := s.queue.jobs[proof.job];
      assert RowOk(j);
      PutKeepsRows(s.queue, proof.job, Renewed(j, s.now + leaseMs));
      PutKeepsRows(s.queue, proof.job, MarkedUploading(j));
    } else {
      LeaseStepsRefused(s, who, proof, leaseMs, declared);
    }
  }

  lemma FailKeepsRows(s: State, who: Identity, proof: Proof, code: string, detail: Option<string>, retryAt: int, reread: Option<Document>)
    requires RefsOk(s) && RowsOk(s.queue)
    ensures RowsOk(Fail(s, who, proof, code, detail, retryAt, reread).0.queue)
  {
    hide Fail;
    FailWrites(s, who, proof, code, detail, retryAt, reread);
    if proof.job in s.queue.jobs {
      var j := MarkedFailed(s.queue.jobs[proof.job], code, KeptDetail(detail), retryAt);
      assert RowOk(s.queue.jobs[proof.job]);
      PutKeepsRows(s.queue, proof.job, j);
      ResolveKeepsRows(s.queue, proof.job, j, code, reread.GetOr(0), HasTranscript(s, proof.job.run));
    }
  }

  lemma CompleteKeepsRows(s: State, who: Identity, req: CompleteRequest, transcript: Document, speakers: Document)
    requires RefsOk(s) && RowsOk(s.queue)
    ensures RowsOk(Complete(s, who, req, transcript, speakers).0.queue)
  {
    hide Complete, CloseJob, Close;
    CompleteWrites(s, who, req, transcript, speakers);
    var u := U.UploadId(req.proof.job, req.proof.attempt);
    if u in s.uploads {
      CloseJobWrites(s, u, req, transcript, speakers);
      CloseKeepsRows(s.queue, u, ResultOf(req, transcript, speakers), HasTranscript(s, u.job.run), s.now);
    }
  }

  lemma StartsKeepRows(s: State, m: Id, r: Id, diarize: Option<bool>)
    requires RefsOk(s) && RowsOk(s.queue)
    ensures RowsOk(UploadCommit(s, m, r).queue) && RowsOk(StartRun(s, m, r, diarize).queue)
  {
    var active := ActiveRun(s.queue, m);
    if active.Some? { EnqueueKeepsRows(s.queue, active.value, Normalize, s.now); }
    if r !in s.usedRuns {
      assert r !in s.queue.runs;
      SameRowsOk(s.queue, s.queue.(runs := s.queue.runs[r := Run(m, None, None)]));
      EnqueueKeepsRows(s.queue.(runs := s.queue.runs[r := Run(m, None, None)]), r, Normalize, s.now);
      SameRowsOk(s.queue, s.queue.(runs := s.queue.runs[r := Run(m, diarize, None)]));
      EnqueueKeepsRows(s.queue.(runs := s.queue.runs[r := Run(m, diarize, None)]), r, Normalize, s.now);
    }
  }

  /** Every step keeps the CHECKs on job rows, the one that reopens a failed job included. */
  lemma NextKeepsRows(s: State, step: Step)
    requires RefsOk(s) && RowsOk(s.queue)
    ensures RowsOk(Next(s, step).queue)
  {
    hide RefsOk, RowsOk;
    if IsWorkerStep(step) {
      WorkersKeepRows(s, step);
    } else {
      match step
      case DoUploadCommit(m, p) => StartsKeepRows(s, m, p, None);
      case DoStartRun(m, p, diarize) => StartsKeepRows(s, m, p, diarize);
      case DoSweep => RefsAreLinked(s); SweepKeepsRows(s.queue, s.now);
      case DoCancel(m) => RefsAreLinked(s); CancelKeepsRows(s.queue, m);
      case DoDeleteRow(p) => RefsAreLinked(s); DropKeepsRows(s.queue, p.meeting);
      case _ =>
    }
  }

  lemma RefsAreLinked(s: State)
    requires RefsOk(s)
    ensures Linked(s.queue)
  {
  }

  /** The step closes a job of this run that had failed for good, and that changes the queue. */
  ghost predicate ReopensIn(s: State, step: Step, r: Id)
    requires RefsOk(s)
  {
    ReopensFailedJob(s, step) && step.req.proof.job.run == r
  }

  lemma ClaimKeepsRun(s: State, who: Identity, id: JobId, secret: string, leaseMs: nat, r: Id)
    requires RefsOk(s) && RunOk(s.queue, r)
    ensures RunOk(Claim(s, who, id, secret, leaseMs).queue, r)
  {
    if MayClaim(s, who, id) {
      ClaimPutsJob(s, who, id, secret, leaseMs);
      OpenKeepsRun(s.queue, id, Claimed(s.queue.jobs[id], id, who.credential, secret, s.now + leaseMs), r);
    }
  }

  lemma LeaseStepsKeepRun(s: State, who: Identity, proof: Proof, leaseMs: nat, declared: U.Digested, r: Id)
    requires RefsOk(s) && RunOk(s.queue, r)
    ensures RunOk(Heartbeat(s, who, proof, leaseMs).0.queue, r) && RunOk(ResultInit(s, who, proof, declared).0.queue, r)
  {
    hide Heartbeat, ResultInit, Authorize, RunOk;
    if Authorize(s, who, proof, false).Done? {
      LeaseStepsPut(s, who, proof, leaseMs, declared);
      var j := s.queue.jobs[proof.job];
      OpenKeepsRun(s.queue, proof.job, Renewed(j, s.now + leaseMs), r);
      OpenKeepsRun(s.queue, proof.job, MarkedUploading(j), r);
    } else {
      LeaseStepsRefused(s, who, proof, leaseMs, declared);
    }
  }

  lemma FailKeepsRun(s: State, who: Identity, proof: Proof, code: string, detail: Option<string>, retryAt: int,
                     reread: Option<Document>, r: Id)
    requires RefsOk(s) && RunOk(s.queue, r)
    ensures RunOk(Fail(s, who, proof, code, detail, retryAt, reread).0.queue, r)
  {
    hide Fail, RunOk;
    FailWrites(s, who, proof, code, detail, retryAt, reread);
    if proof.job in s.queue.jobs && HoldsLease(s.queue.jobs[proof.job]) {
      var j := MarkedFailed(s.queue.jobs[proof.job], code, KeptDetail(detail), retryAt);
      if j.status == Queued {
        OpenKeepsRun(s.queue, proof.job, j, r);
      } else {
        ResolveKeepsRun(s.queue, proof.job, j, code, reread.GetOr(0), HasTranscript(s, proof.job.run), r);
      }
    }
  }

  lemma CompleteKeepsRunIff(s: State, who: Identity, req: CompleteRequest, transcript: Document, speakers: Document, r: Id)
    requires RefsOk(s) && RunOk(s.queue, r)
    ensures RunOk(Complete(s, who, req, transcript, speakers).0.queue, r)
            <==> !ReopensIn(s, DoComplete(who, req, transcript, speakers), r)
  {
    hide Complete, CloseJob, Close, RunOk, ReopensFailedJob, ClosesNothing;
    CompleteWrites(s, who, req, transcript, speakers);
    var u := U.UploadId(req.proof.job, req.proof.attempt);
    if u in s.uploads && u.job in s.queue.jobs && (HoldsLease(s.queue.jobs[u.job]) || s.queue.jobs[u.job].status == Failed) {
      CloseJobWrites(s, u, req, transcript, speakers);
      CloseKeepsRunIff(s.queue, u, ResultOf(req, transcript, speakers), HasTranscript(s, u.job.run), s.now, r);
    }
  }

  lemma StartsKeepRun(s: State, m: Id, p: Id, diarize: Option<bool>, r: Id)
    requires RefsOk(s) && RunOk(s.queue, r)
    ensures RunOk(UploadCommit(s, m, p).queue, r) && RunOk(StartRun(s, m, p, diarize).queue, r)
  {
    hide RunOk;
    var active := ActiveRun(s.queue, m);
    if active.Some? { EnqueueFirstKeepsRun(s.queue, active.value, s.now, r); }
    if p !in s.usedRuns {
      assert p !in s.queue.runs;
      OpenRunKeepsRun(s.queue, m, p, None, s.now, r);
      OpenRunKeepsRun(s.queue, m, p, diarize, s.now, r);
    }
  }

  lemma WorkersKeepRunIff(s: State, step: Step, r: Id)
    requires RefsOk(s) && RunOk(s.queue, r) && IsWorkerStep(step)
    ensures RunOk(Next(s, step).queue, r) <==> !ReopensIn(s, step, r)
  {
    hide RefsOk, RunOk;
    match step
    case DoClaim(who, id, secret, leaseMs) => ClaimKeepsRun(s, who, id, secret, leaseMs, r);
    case DoHeartbeat(who, proof, leaseMs) => LeaseStepsKeepRun(s, who, proof, leaseMs, U.Digested(0, ""), r);
    case DoResultInit(who, proof, declared) => LeaseStepsKeepRun(s, who, proof, 0, declared, r);
    case DoFail(who, proof, code, detail, retryAt, reread) => FailKeepsRun(s, who, proof, code, detail, retryAt, reread, r);
    case DoComplete(who, req, transcript, speakers) => CompleteKeepsRunIff(s, who, req, transcript, speakers, r);
  }

  /** Every step keeps the shape of a run, except exactly the one that reopens a failed job of that run. */
  lemma NextKeepsRunIff(s: State, step: Step, r: Id)
    requires RefsOk(s) && RunOk(s.queue, r)
    ensures RunOk(Next(s, step).queue, r) <==> !ReopensIn(s, step, r)
  {
    hide RefsOk, RunOk;
    if IsWorkerStep(step) {
      WorkersKeepRunIff(s, step, r);
    } else {
      RefsAreLinked(s);
      match step
      case DoUploadCommit(m, p) => StartsKeepRun(s, m, p, None, r);
      case DoStartRun(m, p, diarize) => StartsKeepRun(s, m, p, diarize, r);
      case DoSweep => SweepKeepsRun(s.queue, s.now, r);
      case DoCancel(m) => CancelKeepsRun(s.queue, m, r);
      case DoDeleteRow(p) => DropKeepsRun(s.queue, p.meeting, r);
      case _ =>
    }
  }

  // ---- One active run per meeting, whatever happens ----------------------------------------------------

  predicate IsStart(step: Step) { step.DoUploadCommit? || step.DoStartRun? }

  lemma FailJobTakesNoIds(s: State, id: JobId, j: Job, code: string, reread: Option<Document>)
    requires RefsOk(s) && id in s.queue.jobs
    ensures FailJob(s, id, j, code, reread).0.usedRuns == s.usedRuns
  {
  }

  lemma CloseJobTakesNoIds(s: State, u: UploadId, req: CompleteRequest, transcript: Document, speakers: Document)
    requires RefsOk(s) && u in s.uploads
    ensures CloseJob(s, u, req, transcript, speakers).0.usedRuns == s.usedRuns
  {
  }

  lemma FailTakesNoIds(s: State, who: Identity, proof: Proof, code: string, detail: Option<string>, retryAt: int, reread: Option<Document>)
    requires RefsOk(s)
    ensures Fail(s, who, proof, code, detail, retryAt, reread).0.usedRuns == s.usedRuns
  {
    hide FailJob;
    if proof.job in s.queue.jobs {
      FailJobTakesNoIds(s, proof.job, MarkedFailed(s.queue.jobs[proof.job], code, KeptDetail(detail), retryAt), code, reread);
    }
  }

  lemma CompleteTakesNoIds(s: State, who: Identity, req: CompleteRequest, transcript: Document, speakers: Document)
    requires RefsOk(s)
    ensures Complete(s, who, req, transcript, speakers).0.usedRuns == s.usedRuns
  {
    hide Complete, CloseJob;
    CompleteClosesOrNothing(s, who, req, transcript, speakers);
    var u := U.UploadId(req.proof.job, req.proof.attempt);
    if u in s.uploads { CloseJobTakesNoIds(s, u, req, transcript, speakers); }
  }

  lemma OnlyStartsTakeIds(s: State, step: Step)
    requires RefsOk(s) && !IsStart(step)
    ensures Next(s, step).usedRuns == s.usedRuns
  {
    hide RefsOk;
    match step
    case DoFail(who, proof, code, detail, retryAt, reread) => FailTakesNoIds(s, who, proof, code, detail, retryAt, reread);
    case DoComplete(who, req, transcript, speakers) => CompleteTakesNoIds(s, who, req, transcript, speakers);
    case _ =>
  }

  lemma OpenRunKeepsOneActive(q: Queue, m: Id, r: Id, diarize: Option<bool>, now: int)
    requires Linked(q) && OneActiveRun(q) && r !in q.runs && ActiveRun(q, m).None?
    ensures OneActiveRun(OpenRun(q, m, r, diarize, now))
  {
    assert forall n, p :: Active(OpenRun(q, m, r, diarize, now), n, p) ==> Active(q, n, p) || (n == m && p == r);
  }

  lemma StartsKeepOneActive(s: State, m: Id, r: Id, diarize: Option<bool>)
    requires RefsOk(s) && OneActiveRun(s.queue)
    ensures OneActiveRun(UploadCommit(s, m, r).queue) && OneActiveRun(StartRun(s, m, r, diarize).queue)
  {
    var active := ActiveRun(s.queue, m);
    if active.Some? { SameRunsOneActive(s.queue, Enqueue(s.queue, active.value, Normalize, s.now)); }
    if active.None? && r !in s.usedRuns {
      assert r !in s.queue.runs;
      OpenRunKeepsOneActive(s.queue, m, r, None, s.now);
      OpenRunKeepsOneActive(s.queue, m, r, diarize, s.now);
    }
  }

  /** Every step keeps the index of active runs, the one that reopens a failed job included. */
  lemma NextKeepsOneActive(s: State, step: Step)
    requires RefsOk(s) && OneActiveRun(s.queue)
    ensures OneActiveRun(Next(s, step).queue)
  {
    if step.DoUploadCommit? {
      StartsKeepOneActive(s, step.m, step.r, None);
    } else if step.DoStartRun? {
      StartsKeepOneActive(s, step.m, step.r, step.diarize);
    } else {
      OnlyStartsTakeIds(s, step);
      NextProgress(s, step);
      NoNewActive(s, Next(s, step));
    }
  }

  lemma NoNewActive(s: State, t: State)
    requires RefsOk(s) && RefsOk(t) && OneActiveRun(s.queue) && t.usedRuns == s.usedRuns && Progress(s, t)
    ensures OneActiveRun(t.queue)
  {
    forall m, r | Active(t.queue, m, r) ensures Active(s.queue, m, r) {
      assert r in t.usedRuns;
      assert r in s.queue.runs;
    }
    FewerActive(s.queue, t.queue);
  }
}
