/**
 Repeated requests in any later state: what was recorded when a job was closed or given up is
 kept while the job exists, so only a new verdict on its upload can turn an honest resend away.
 */
module LaterReplays {
  import opened Common
  import opened JobRows
  import opened JobQueue
  import opened QueueInvariant
  import opened QueueProgress
  import opened PipelineState
  import opened PipelineInvariant
  import opened PipelineProgress
  import opened RunInvariant
  import opened PipelineTraces
  import opened LeaseSafety
  import opened Replays
  import U = UploadRows

  // ---- Derived media are kept and come with settled jobs --------------------------------------------

  /** Media stay as they were measured while their job exists, and new ones belong to settled jobs. */
  predicate MediaNext(q: Queue, t: Queue)
  {
    && (forall u | u in q.media && u.job in t.jobs ::
          u in t.media && t.media[u].probe == q.media[u].probe && t.media[u].content == q.media[u].content)
    && (forall u | u in t.media && u !in q.media :: u.job in t.jobs && !Unsettled(t.jobs[u.job]))
  }

  lemma SameMediaNext(q: Queue, t: Queue)
    requires t.media == q.media
    ensures MediaNext(q, t)
  {
  }

  lemma CloseMediaNext(q: Queue, u: U.UploadId, result: Result, usable: bool, now: int)
    requires Linked(q) && u.job in q.jobs && (HoldsLease(q.jobs[u.job]) || q.jobs[u.job].status == Failed)
    ensures MediaNext(q, Close(q, u, result, usable, now))
  {
    if u.job.stage != Normalize {
      SameMediaNext(q, Close(q, u, result, usable, now));
    } else {
      CloseNormalizeMediaNext(q, u, result, usable, now);
    }
  }

  lemma CloseNormalizeMediaNext(q: Queue, u: U.UploadId, result: Result, usable: bool, now: int)
    requires Linked(q) && u.job in q.jobs && (HoldsLease(q.jobs[u.job]) || q.jobs[u.job].status == Failed) && u.job.stage == Normalize
    ensures MediaNext(q, Close(q, u, result, usable, now))
  {
    var t := Close(q, u, result, usable, now);
    assert forall v | v in t.media && v !in q.media :: v == u;
    assert t.jobs[u.job] == MarkedSucceeded(q.jobs[u.job]);
  }

  lemma DropMediaNext(q: Queue, m: Id)
    requires Linked(q)
    ensures MediaNext(q, Drop(q, m))
  {
  }

  lemma FailMediaNext(s: State, who: Identity, proof: Proof, code: string, detail: Option<string>, retryAt: int, reread: Option<Document>)
    requires RefsOk(s)
    ensures MediaNext(s.queue, Fail(s, who, proof, code, detail, retryAt, reread).0.queue)
  {
    hide Fail, MediaNext;
    FailWrites(s, who, proof, code, detail, retryAt, reread);
    SameMediaNext(s.queue, Fail(s, who, proof, code, detail, retryAt, reread).0.queue);
  }

  lemma CompleteMediaNext(s: State, who: Identity, req: CompleteRequest, transcript: Document, speakers: Document)
    requires RefsOk(s)
    ensures MediaNext(s.queue, Complete(s, who, req, transcript, speakers).0.queue)
  {
    hide Complete, CloseJob, Close, MediaNext, ReopensFailedJob, ClosesNothing;
    CompleteWrites(s, who, req, transcript, speakers);
    SameMediaNext(s.queue, s.queue);
    var u := U.UploadId(req.proof.job, req.proof.attempt);
    if u in s.uploads && u.job in s.queue.jobs && (HoldsLease(s.queue.jobs[u.job]) || s.queue.jobs[u.job].status == Failed) {
      CloseJobWrites(s, u, req, transcript, speakers);
      CloseMediaNext(s.queue, u, ResultOf(req, transcript, speakers), HasTranscript(s, u.job.run), s.now);
    }
  }

  lemma WorkersMediaNext(s: State, step: Step)
    requires RefsOk(s) && IsWorkerStep(step)
    ensures MediaNext(s.queue, Next(s, step).queue)
  {
    hide RefsOk, MediaNext;
    if step.DoFail? {
      FailMediaNext(s, step.who, step.proof, step.code, step.detail, step.retryAt, step.reread);
    } else if step.DoComplete? {
      CompleteMediaNext(s, step.who, step.req, step.transcript, step.speakers);
    } else {
      SameMediaNext(s.queue, Next(s, step).queue);
    }
  }

  lemma NextMedia(s: State, step: Step)
    requires RefsOk(s)
    ensures MediaNext(s.queue, Next(s, step).queue)
  {
    hide RefsOk, MediaNext;
    if IsWorkerStep(step) {
      WorkersMediaNext(s, step);
    } else if step.DoDeleteRow? {
      RefsAreLinked(s);
      DropMediaNext(s.queue, step.p.meeting);
      SameMediaNext(s.queue, s.queue);
    } else {
      SameMediaNext(s.queue, Next(s, step).queue);
    }
  }

  lemma MediaStaySettled(s: State, t: State)
    requires RefsOk(s) && RefsOk(t) && MediaSettled(s.queue) && QueueNext(s.queue, t.queue) && MediaNext(s.queue, t.queue)
    ensures MediaSettled(t.queue)
  {
    forall u | u in t.queue.media ensures u.job in t.queue.jobs && !Unsettled(t.queue.jobs[u.job]) {
      if u in s.queue.media {
        assert u.job in t.queue.jobs;
        assert RowNext(s.queue.jobs[u.job], t.queue.jobs[u.job]);
      }
    }
  }

  /** Over any steps from an empty installation, the failed jobs closed after all included. */
  lemma {:induction false} MediaSettledLasts(s: State, steps: seq<Step>)
    requires RefsOk(s) && MediaSettled(s.queue)
    ensures MediaSettled(After(s, steps).queue)
    decreases |steps|
  {
    if steps != [] {
      NextMedia(s, steps[0]);
      NextProgress(s, steps[0]);
      MediaStaySettled(s, Next(s, steps[0]));
      MediaSettledLasts(Next(s, steps[0]), steps[1..]);
    }
  }

  // ---- Tenants and uploads are kept ------------------------------------------------------------------

  /** Meetings keep their tenant, and uploads exist as long as their job. */
  predicate RowsKept(s: State, t: State)
  {
    && (forall m | m in s.meetings && m in t.meetings :: t.meetings[m].tenant == s.meetings[m].tenant)
    && (forall u | u in s.uploads && u.job in t.queue.jobs :: u in t.uploads)
  }

  lemma FailJobKeepsRows(s: State, id: JobId, j: Job, code: string, reread: Option<Document>)
    requires RefsOk(s) && id in s.queue.jobs
    ensures RowsKept(s, FailJob(s, id, j, code, reread).0)
  {
    hide Resolve;
  }

  lemma CloseJobKeepsRows(s: State, u: UploadId, req: CompleteRequest, transcript: Document, speakers: Document)
    requires RefsOk(s) && u in s.uploads
    ensures RowsKept(s, CloseJob(s, u, req, transcript, speakers).0)
  {
    hide Close, HasTranscript;
  }

  lemma FailKeepsTheRows(s: State, who: Identity, proof: Proof, code: string, detail: Option<string>, retryAt: int, reread: Option<Document>)
    requires RefsOk(s)
    ensures RowsKept(s, Fail(s, who, proof, code, detail, retryAt, reread).0)
  {
    hide FailJob;
    if proof.job in s.queue.jobs {
      FailJobKeepsRows(s, proof.job, MarkedFailed(s.queue.jobs[proof.job], code, KeptDetail(detail), retryAt), code, reread);
    }
  }

  lemma CompleteKeepsTheRows(s: State, who: Identity, req: CompleteRequest, transcript: Document, speakers: Document)
    requires RefsOk(s)
    ensures RowsKept(s, Complete(s, who, req, transcript, speakers).0)
  {
    hide Complete, CloseJob;
    CompleteClosesOrNothing(s, who, req, transcript, speakers);
    var u := U.UploadId(req.proof.job, req.proof.attempt);
    if u in s.uploads { CloseJobKeepsRows(s, u, req, transcript, speakers); }
  }

  lemma WorkersKeepTheRows(s: State, step: Step)
    requires RefsOk(s) && IsWorkerStep(step)
    ensures RowsKept(s, Next(s, step))
  {
    hide RefsOk, RowsKept;
    match step
    case DoClaim(who, job, secret, leaseMs) => ClaimKeepsTheRows(s, who, job, secret, leaseMs);
    case DoHeartbeat(who, proof, leaseMs) => LeaseStepsKeepTheRows(s, who, proof, leaseMs, U.Digested(0, ""));
    case DoResultInit(who, proof, declared) => LeaseStepsKeepTheRows(s, who, proof, 0, declared);
    case DoFail(who, proof, code, detail, retryAt, reread) => FailKeepsTheRows(s, who, proof, code, detail, retryAt, reread);
    case DoComplete(who, req, transcript, speakers) => CompleteKeepsTheRows(s, who, req, transcript, speakers);
  }

  lemma ClaimKeepsTheRows(s: State, who: Identity, id: JobId, secret: string, leaseMs: nat)
    requires RefsOk(s)
    ensures RowsKept(s, Claim(s, who, id, secret, leaseMs))
  {
  }

  lemma LeaseStepsKeepTheRows(s: State, who: Identity, proof: Proof, leaseMs: nat, declared: U.Digested)
    requires RefsOk(s)
    ensures RowsKept(s, Heartbeat(s, who, proof, leaseMs).0) && RowsKept(s, ResultInit(s, who, proof, declared).0)
  {
    hide Authorize;
  }

  lemma DeletionsKeepTheRows(s: State, step: Step)
    requires RefsOk(s) && IsDeletionStep(step)
    ensures RowsKept(s, Next(s, step))
  {
    hide RefsOk, RowsKept;
    if step.DoDeleteRow? {
      RowGoneKeepsTheRows(s, step.p);
    } else {
      SameTablesKept(s, Next(s, step));
    }
  }

  lemma RowGoneKeepsTheRows(s: State, p: Purger)
    requires RefsOk(s)
    ensures RowsKept(s, DeleteRow(s, p))
  {
  }

  lemma SameTablesKept(s: State, t: State)
    requires t.uploads == s.uploads && forall m | m in s.meetings && m in t.meetings :: t.meetings[m].tenant == s.meetings[m].tenant
    ensures RowsKept(s, t)
  {
  }

  lemma MeetingsAreUsed(s: State)
    requires RefsOk(s)
    ensures forall m | m in s.meetings :: m in s.usedMeetings
  {
  }

  lemma NextKeepsTheRows(s: State, step: Step)
    requires RefsOk(s)
    ensures RowsKept(s, Next(s, step))
  {
    hide RefsOk;
    if IsWorkerStep(step) {
      WorkersKeepTheRows(s, step);
    } else if IsDeletionStep(step) {
      DeletionsKeepTheRows(s, step);
    } else {
      MeetingsAreUsed(s);
    }
  }

  // ---- A later resend of a `complete` ---------------------------------------------------------------------

  /** The job was closed by this request's worker, and what it measured is on record. */
  predicate ClosedBy(s: State, who: Identity, req: CompleteRequest)
    requires RefsOk(s)
  {
    var u := U.UploadId(req.proof.job, req.proof.attempt);
    && SameWorker(s, who, req.proof) && s.queue.jobs[req.proof.job].status == Succeeded && u in s.uploads
    && (u.job.stage == Normalize ==> req.probe.Some? && u in s.queue.media && s.queue.media[u].probe == QuantisedProbe(req.probe.value))
  }

  lemma ClosedStays(s: State, step: Step, who: Identity, req: CompleteRequest)
    requires RefsOk(s) && ClosedBy(s, who, req) && req.proof.job in Next(s, step).queue.jobs
    ensures ClosedBy(Next(s, step), who, req)
  {
    hide Next, RefsOk;
    var t := Next(s, step);
    NextProgress(s, step);
    NextMedia(s, step);
    NextKeepsTheRows(s, step);
    assert RowNext(s.queue.jobs[req.proof.job], t.queue.jobs[req.proof.job]);
    SameMeeting(s, t, req.proof.job);
  }

  lemma SameMeeting(s: State, t: State, id: JobId)
    requires RefsOk(s) && RefsOk(t) && QueueNext(s.queue, t.queue) && id in s.queue.jobs && id in t.queue.jobs
    ensures MeetingOfJob(t, id) == MeetingOfJob(s, id)
  {
    assert id.run in s.queue.runs && id.run in t.queue.runs;
  }

  lemma JobNeverComesBack(s: State, step: Step, id: JobId)
    requires RefsOk(s) && id in s.queue.jobs && id !in Next(s, step).queue.jobs
    ensures id.run in Next(s, step).usedRuns && id.run !in Next(s, step).queue.runs
  {
    hide Next;
    NextProgress(s, step);
    assert id.run in s.queue.runs;
  }

  lemma {:induction false} ClosedForGood(s: State, steps: seq<Step>, who: Identity, req: CompleteRequest)
    requires RefsOk(s) && ClosedBy(s, who, req) && req.proof.job in After(s, steps).queue.jobs
    ensures ClosedBy(After(s, steps), who, req)
    decreases |steps|
  {
    if steps != [] {
      hide ClosedBy, Next, RefsOk;
      var t := Next(s, steps[0]);
      ClosedHasJob(s, who, req);
      JobsHaveRuns(After(s, steps), req.proof.job);
      if req.proof.job in t.queue.jobs {
        ClosedStays(s, steps[0], who, req);
        ClosedForGood(t, steps[1..], who, req);
      } else {
        JobNeverComesBack(s, steps[0], req.proof.job);
        GoneStaysGone(t, steps[1..], req.proof.job.run);
      }
    }
  }

  lemma ClosedHasJob(s: State, who: Identity, req: CompleteRequest)
    requires RefsOk(s) && ClosedBy(s, who, req)
    ensures req.proof.job in s.queue.jobs
  {
  }

  lemma JobsHaveRuns(s: State, id: JobId)
    requires RefsOk(s) && id in s.queue.jobs
    ensures id.run in s.queue.runs
  {
  }

  lemma CloseIsOnRecord(s: State, who: Identity, req: CompleteRequest, transcript: Document, speakers: Document)
    requires RefsOk(s) && MediaSettled(s.queue) && LeaseProven(s, who, req.proof)
    requires Complete(s, who, req, transcript, speakers).1.Done?
    ensures ClosedBy(Complete(s, who, req, transcript, speakers).0, who, req)
  {
    CloseRecords(s, who, req, transcript, speakers);
  }

  /**
   An honest resend at any later time, while the job exists, changes nothing, and is accepted
   exactly when the content on record by then is its own.
   */
  lemma LaterReplayIff(s: State, who: Identity, req: CompleteRequest, transcript: Document, speakers: Document,
                       steps: seq<Step>, again: Document, others: Document)
    requires RefsOk(s) && MediaSettled(s.queue) && LeaseProven(s, who, req.proof)
    requires Complete(s, who, req, transcript, speakers).1.Done?
    requires req.proof.job in After(Complete(s, who, req, transcript, speakers).0, steps).queue.jobs
    ensures var t := After(Complete(s, who, req, transcript, speakers).0, steps);
            var u := U.UploadId(req.proof.job, req.proof.attempt);
            && u in t.uploads && Complete(t, who, req, again, others).0 == t
            && (Complete(t, who, req, again, others).1.Done? <==> Recorded(t.uploads[u]).None? || Recorded(t.uploads[u]).value == req.content)
  {
    var first := Complete(s, who, req, transcript, speakers).0;
    AcceptedHasProbe(s, who, req, transcript, speakers);
    CloseIsOnRecord(s, who, req, transcript, speakers);
    ClosedForGood(first, steps, who, req);
    ClosedIsReplayed(After(first, steps), who, req, again, others);
  }

  lemma AcceptedHasProbe(s: State, who: Identity, req: CompleteRequest, transcript: Document, speakers: Document)
    requires RefsOk(s) && Complete(s, who, req, transcript, speakers).1.Done?
    ensures ProbeError(req.proof.job.stage, req.probe).None?
  {
    hide CloseJob;
  }

  lemma ClosedIsReplayed(t: State, who: Identity, req: CompleteRequest, again: Document, others: Document)
    requires RefsOk(t) && ClosedBy(t, who, req) && ProbeError(req.proof.job.stage, req.probe).None?
    ensures var u := U.UploadId(req.proof.job, req.proof.attempt);
            && Complete(t, who, req, again, others).0 == t
            && (Complete(t, who, req, again, others).1.Done? <==> Recorded(t.uploads[u]).None? || Recorded(t.uploads[u]).value == req.content)
  {
    hide Complete;
    CompleteReplay(t, who, req, again, others);
  }

  // ---- A later resend of a terminal `fail` -------------------------------------------------------------------

  predicate GivenUpBy(s: State, who: Identity, proof: Proof, code: string, detail: Option<string>)
    requires RefsOk(s)
  {
    && SameWorker(s, who, proof) && s.queue.jobs[proof.job].status == Failed
    && s.queue.jobs[proof.job].failureCode == Some(code) && s.queue.jobs[proof.job].failureDetail == KeptDetail(detail)
  }

  lemma GivenUpStays(s: State, step: Step, who: Identity, proof: Proof, code: string, detail: Option<string>)
    requires RefsOk(s) && GivenUpBy(s, who, proof, code, detail) && proof.job in Next(s, step).queue.jobs
    ensures GivenUpBy(Next(s, step), who, proof, code, detail)
  {
    hide Next, RefsOk;
    var t := Next(s, step);
    NextProgress(s, step);
    NextKeepsTheRows(s, step);
    assert RowNext(s.queue.jobs[proof.job], t.queue.jobs[proof.job]);
    SameMeeting(s, t, proof.job);
  }

  lemma {:induction false} GivenUpForGood(s: State, steps: seq<Step>, who: Identity, proof: Proof, code: string, detail: Option<string>)
    requires RefsOk(s) && GivenUpBy(s, who, proof, code, detail) && proof.job in After(s, steps).queue.jobs
    ensures GivenUpBy(After(s, steps), who, proof, code, detail)
    decreases |steps|
  {
    if steps != [] {
      hide Next, RefsOk;
      var t := Next(s, steps[0]);
      JobsHaveRuns(After(s, steps), proof.job);
      if proof.job in t.queue.jobs {
        GivenUpStays(s, steps[0], who, proof, code, detail);
        GivenUpForGood(t, steps[1..], who, proof, code, detail);
      } else {
        JobNeverComesBack(s, steps[0], proof.job);
        GoneStaysGone(t, steps[1..], proof.job.run);
      }
    }
  }

  /** A terminal failure sent again at any later time, while the job exists, is accepted and changes nothing. */
  lemma LaterFailReplay(s: State, who: Identity, proof: Proof, code: string, detail: Option<string>, retryAt: int,
                        reread: Option<Document>, steps: seq<Step>, later: int, again: Option<Document>)
    requires RefsOk(s) && LeaseProven(s, who, proof) && Fail(s, who, proof, code, detail, retryAt, reread).1 == Done(false)
    requires proof.job in After(Fail(s, who, proof, code, detail, retryAt, reread).0, steps).queue.jobs
    ensures var t := After(Fail(s, who, proof, code, detail, retryAt, reread).0, steps);
            Fail(t, who, proof, code, detail, later, again) == (t, Done(false))
  {
    var first := Fail(s, who, proof, code, detail, retryAt, reread).0;
    FailLeaves(s, who, proof, code, detail, retryAt, reread);
    GivenUpForGood(first, steps, who, proof, code, detail);
    GivenUpIsReplayed(After(first, steps), who, proof, code, detail, later, again);
  }

  lemma GivenUpIsReplayed(t: State, who: Identity, proof: Proof, code: string, detail: Option<string>, later: int, again: Option<Document>)
    requires RefsOk(t) && GivenUpBy(t, who, proof, code, detail) && 0 < |code| <= 80
    ensures Fail(t, who, proof, code, detail, later, again) == (t, Done(false))
  {
  }
}
