/**
 Repeated requests: a `complete` or a terminal `fail` sent again changes nothing, and is
 accepted exactly when it says what was recorded.
 */
module Replays {
  import opened Common
  import opened JobRows
  import opened JobQueue
  import opened PipelineState
  import opened QueueInvariant
  import opened LeaseSafety
  import U = UploadRows

  // ---- Quantised durations ----------------------------------------------------------------

  /** Quantising rounds to the nearest millisecond. */
  lemma QuantisedNear(x: real)
    ensures x - 0.0005 < Quantised(x) <= x + 0.0005
  {
    var n := (x * 1000.0 + 0.5).Floor;
    assert n as real <= x * 1000.0 + 0.5 < n as real + 1.0;
  }

  lemma QuantisedOfThousandth(n: int)
    ensures Quantised(n as real / 1000.0) == n as real / 1000.0
  {
    assert (n as real / 1000.0) * 1000.0 + 0.5 == n as real + 0.5;
    assert (n as real + 0.5).Floor == n;
  }

  /** Quantising twice is quantising once, so a stored duration sent back is never a conflict. */
  lemma QuantisedIdempotent(x: real)
    ensures Quantised(Quantised(x)) == Quantised(x)
  {
    QuantisedOfThousandth((x * 1000.0 + 0.5).Floor);
  }

  // ---- complete ------------------------------------------------------------------------------

  /** The credential that closed the job, and its attempt. */
  predicate SameWorker(s: State, who: Identity, proof: Proof)
    requires RefsOk(s)
  {
    && proof.job in s.queue.jobs
    && s.queue.jobs[proof.job].credential == Some(who.credential)
    && s.queue.jobs[proof.job].attempts == proof.attempt
    && (who.tenant.Some? ==> s.meetings[MeetingOfJob(s, proof.job)].tenant == who.tenant.value)
  }

  /** What the upload's row says was uploaded: measured if it was measured, declared otherwise. */
  function Recorded(u: Upload): Option<U.Digested> { if u.observed.Some? then u.observed else u.declared }

  /** The request repeats what is on record. */
  predicate SamePayload(s: State, u: UploadId, req: CompleteRequest)
  {
    && u in s.uploads
    && (Recorded(s.uploads[u]).Some? ==> Recorded(s.uploads[u]).value == req.content)
    && (u.job.stage == Normalize ==>
          req.probe.Some? && u in s.queue.media && s.queue.media[u].probe == QuantisedProbe(req.probe.value))
  }

  /** On a succeeded job a `complete` never writes, and is accepted iff it is the closing worker's own payload. */
  lemma CompleteReplay(s: State, who: Identity, req: CompleteRequest, transcript: Document, speakers: Document)
    requires RefsOk(s) && req.proof.job in s.queue.jobs && s.queue.jobs[req.proof.job].status == Succeeded
    ensures Complete(s, who, req, transcript, speakers).0 == s
    ensures Complete(s, who, req, transcript, speakers).1.Done? <==>
              && SameWorker(s, who, req.proof)
              && ProbeError(req.proof.job.stage, req.probe).None?
              && SamePayload(s, U.UploadId(req.proof.job, req.proof.attempt), req)
  {
  }

  lemma CloseLeavesRow(q: Queue, u: UploadId, result: Result, usable: bool, now: int)
    requires Linked(q) && u.job in q.jobs
    ensures u.job.run in q.runs
    ensures var t := Close(q, u, result, usable, now);
            && u.job in t.jobs && t.jobs[u.job] == MarkedSucceeded(q.jobs[u.job])
            && u.job.run in t.runs && t.runs[u.job.run].meeting == q.runs[u.job.run].meeting
  {
  }

  lemma {:induction false} CloseJobLeavesRow(s: State, u: UploadId, req: CompleteRequest, transcript: Document, speakers: Document)
    requires RefsOk(s) && u in s.uploads
    ensures u.job in s.queue.jobs
    ensures var t := CloseJob(s, u, req, transcript, speakers).0;
            && u.job in t.queue.jobs && t.queue.jobs[u.job] == MarkedSucceeded(s.queue.jobs[u.job])
            && MeetingOfJob(t, u.job) == MeetingOfJob(s, u.job)
            && t.meetings[MeetingOfJob(t, u.job)].tenant == s.meetings[MeetingOfJob(s, u.job)].tenant
  {
    CloseLeavesRow(s.queue, u, ResultOf(req, transcript, speakers), HasTranscript(s, u.job.run), s.now);
  }

  lemma CloseJobRecords(s: State, u: UploadId, req: CompleteRequest, transcript: Document, speakers: Document)
    requires RefsOk(s) && u in s.uploads && u.job in s.queue.jobs
    ensures var t := CloseJob(s, u, req, transcript, speakers).0;
            u in t.uploads && Recorded(t.uploads[u]) == Recorded(s.uploads[u])
  {
  }

  lemma CloseJobMeasures(s: State, u: UploadId, req: CompleteRequest, transcript: Document, speakers: Document)
    requires RefsOk(s) && u in s.uploads && u.job in s.queue.jobs && u.job.stage == Normalize
    requires u !in s.queue.media && req.probe.Some?
    ensures var t := CloseJob(s, u, req, transcript, speakers).0;
            u in t.queue.media && t.queue.media[u].probe == QuantisedProbe(req.probe.value) && t.queue.media[u].content == req.content
  {
  }

  /** What an accepted close leaves for its own replay to be compared with. */
  lemma {:induction false} CloseRecords(s: State, who: Identity, req: CompleteRequest, transcript: Document, speakers: Document)
    requires RefsOk(s) && LeaseProven(s, who, req.proof)
    requires Complete(s, who, req, transcript, speakers).1.Done?
    ensures var t := Complete(s, who, req, transcript, speakers).0;
            var u := U.UploadId(req.proof.job, req.proof.attempt);
            && SameWorker(t, who, req.proof)
            && t.queue.jobs[req.proof.job].status == Succeeded
            && u in s.uploads && u in t.uploads
            && Recorded(t.uploads[u]) == Recorded(s.uploads[u])
            && (u.job.stage == Normalize && u !in s.queue.media ==>
                  u in t.queue.media && t.queue.media[u].probe == QuantisedProbe(req.probe.value)
                  && t.queue.media[u].content == req.content)
  {
    var u := U.UploadId(req.proof.job, req.proof.attempt);
    assert u in s.uploads && Complete(s, who, req, transcript, speakers) == CloseJob(s, u, req, transcript, speakers);
    CloseJobLeavesRow(s, u, req, transcript, speakers);
    CloseJobRecords(s, u, req, transcript, speakers);
    if u.job.stage == Normalize && u !in s.queue.media { CloseJobMeasures(s, u, req, transcript, speakers); }
  }

  /**
   An honest resend of an accepted `complete` is accepted, and changes nothing, exactly when
   the content on record before it was its own. A `complete` that found its upload verified
   by an earlier request with another content is closed all the same, and then its replay
   is a conflict.
   */
  lemma {:induction false} HonestReplayIff(s: State, who: Identity, req: CompleteRequest, transcript: Document, speakers: Document,
                                           again: Document, others: Document)
    requires RefsOk(s) && LeaseProven(s, who, req.proof)
    requires Complete(s, who, req, transcript, speakers).1.Done?
    requires MediaSettled(s.queue)
    ensures U.UploadId(req.proof.job, req.proof.attempt) in s.uploads
    ensures var t := Complete(s, who, req, transcript, speakers).0;
            var recorded := Recorded(s.uploads[U.UploadId(req.proof.job, req.proof.attempt)]);
            && Complete(t, who, req, again, others).0 == t
            && (Complete(t, who, req, again, others).1.Done? <==> recorded.None? || recorded.value == req.content)
  {
    assert U.UploadId(req.proof.job, req.proof.attempt) !in s.queue.media;
    CloseRecords(s, who, req, transcript, speakers);
    CompleteReplay(Complete(s, who, req, transcript, speakers).0, who, req, again, others);
  }

  /** With its upload just confirmed for its own content, the resend is always accepted. */
  lemma {:induction false} ConfirmedReplayAccepted(s: State, who: Identity, req: CompleteRequest, transcript: Document,
                                                   speakers: Document, again: Document, others: Document)
    requires RefsOk(s) && U.UploadId(req.proof.job, req.proof.attempt) in s.uploads
    requires s.uploads[U.UploadId(req.proof.job, req.proof.attempt)].state == U.Uploaded
    requires MediaSettled(s.queue)
    requires var v := VerifyUpload(s, U.UploadId(req.proof.job, req.proof.attempt), req.content);
             LeaseProven(v, who, req.proof) && Complete(v, who, req, transcript, speakers).1.Done?
    ensures var v := VerifyUpload(s, U.UploadId(req.proof.job, req.proof.attempt), req.content);
            var t := Complete(v, who, req, transcript, speakers).0;
            Complete(t, who, req, again, others).0 == t && Complete(t, who, req, again, others).1.Done?
  {
    HonestReplayIff(VerifyUpload(s, U.UploadId(req.proof.job, req.proof.attempt), req.content), who, req, transcript, speakers, again, others);
  }

  // ---- fail --------------------------------------------------------------------------------------

  /** On a failed job a `fail` never writes, and is accepted iff it repeats the recorded cause. */
  lemma FailReplay(s: State, who: Identity, proof: Proof, code: string, detail: Option<string>,
                   retryAt: int, reread: Option<Document>)
    requires RefsOk(s) && proof.job in s.queue.jobs && s.queue.jobs[proof.job].status == Failed
    ensures Fail(s, who, proof, code, detail, retryAt, reread).0 == s
    ensures Fail(s, who, proof, code, detail, retryAt, reread).1.Done? <==>
              && SameWorker(s, who, proof) && 0 < |code| <= 80
              && s.queue.jobs[proof.job].failureCode == Some(code)
              && s.queue.jobs[proof.job].failureDetail == KeptDetail(detail)
  {
  }

  /** A terminal failure sent again is accepted and changes nothing; one that was requeued is refused. */
  lemma {:induction false} FailThenReplay(s: State, who: Identity, proof: Proof, code: string, detail: Option<string>,
                                          retryAt: int, reread: Option<Document>, later: int, again: Option<Document>)
    requires RefsOk(s) && LeaseProven(s, who, proof)
    requires Fail(s, who, proof, code, detail, retryAt, reread).1.Done?
    ensures var (t, reply) := Fail(s, who, proof, code, detail, retryAt, reread);
            Fail(t, who, proof, code, detail, later, again) == if reply.value then (t, Refused(NotFound)) else (t, Done(false))
  {
    FailLeaves(s, who, proof, code, detail, retryAt, reread);
    var t := Fail(s, who, proof, code, detail, retryAt, reread).0;
    if t.queue.jobs[proof.job].status == Failed { FailReplay(t, who, proof, code, detail, later, again); }
  }

  lemma ResolveLeavesRow(q: Queue, id: JobId, j: Job, code: string, transcript: Document, usable: bool)
    requires Linked(q) && id in q.jobs
    ensures id.run in q.runs
    ensures var t := Resolve(PutJob(q, id, j), id, code, transcript, usable);
            id in t.jobs && t.jobs[id] == j && id.run in t.runs && t.runs[id.run].meeting == q.runs[id.run].meeting
  {
  }

  lemma {:induction false} FailJobLeaves(s: State, id: JobId, j: Job, code: string, reread: Option<Document>)
    requires RefsOk(s) && id in s.queue.jobs && FailJob(s, id, j, code, reread).1.Done?
    ensures var (t, reply) := FailJob(s, id, j, code, reread);
            && id in t.queue.jobs && t.queue.jobs[id] == j && reply.value == (j.status == Queued)
            && MeetingOfJob(t, id) == MeetingOfJob(s, id)
            && t.meetings[MeetingOfJob(t, id)].tenant == s.meetings[MeetingOfJob(s, id)].tenant
  {
    if j.status != Queued { ResolveLeavesRow(s.queue, id, j, code, reread.GetOr(0), HasTranscript(s, id.run)); }
    assert GivenUp(s.meetings[MeetingOfJob(s, id)], id, code, HasTranscript(s, id.run)).tenant == s.meetings[MeetingOfJob(s, id)].tenant;
  }

  lemma {:induction false} FailLeaves(s: State, who: Identity, proof: Proof, code: string, detail: Option<string>,
                                      retryAt: int, reread: Option<Document>)
    requires RefsOk(s) && LeaseProven(s, who, proof)
    requires Fail(s, who, proof, code, detail, retryAt, reread).1.Done?
    ensures var (t, reply) := Fail(s, who, proof, code, detail, retryAt, reread);
            && proof.job in t.queue.jobs && 0 < |code| <= 80
            && var j := t.queue.jobs[proof.job];
               if reply.value then j.status == Queued && j.credential.None? && j.attempts == proof.attempt
               else j.status == Failed && j.failureCode == Some(code) && j.failureDetail == KeptDetail(detail) && SameWorker(t, who, proof)
  {
    FailJobLeaves(s, proof.job, MarkedFailed(s.queue.jobs[proof.job], code, KeptDetail(detail), retryAt), code, reread);
  }
}
