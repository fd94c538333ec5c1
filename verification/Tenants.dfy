/**
 Who may take what: a claim hands out a job exactly to a worker that may have it, and whatever a
 worker bound to one tenant does, nothing of another tenant's meetings changes.
 */
module Tenants {
  import opened Common
  import opened JobRows
  import opened JobQueue
  import opened QueueInvariant
  import opened PipelineState
  import opened PipelineInvariant
  import opened PipelineProgress
  import opened RunInvariant
  import opened PipelineTraces
  import opened LeaseSafety
  import U = UploadRows

  // ---- What a claim takes -------------------------------------------------------------------------

  /** The row waits, is due and has attempts left; its meeting lives; the worker transcribes and, if bound to a tenant, to the meeting's. */
  predicate Takable(s: State, who: Identity, id: JobId)
    requires RefsOk(s)
  {
    && id in s.queue.jobs
    && var (j, row) := (s.queue.jobs[id], s.meetings[MeetingOfJob(s, id)]);
       && j.status == Queued && j.nextAttemptAt <= s.now && j.attempts < j.maxAttempts
       && row.deletion == Live && TranscribeCap in who.capabilities
       && (who.tenant == None || who.tenant == Some(row.tenant))
  }

  /** What the stage of a claimed job makes of its meeting's row. */
  function Started(row: Meeting, stage: Stage): Meeting
  {
    match stage
    case Normalize => row
    case Transcribe => row.(transcriptState := Running)
    case Diarize => row.(diarizationState := Running)
  }

  /**
   A claim takes a job exactly when the worker may have it, and then the row holds the next attempt,
   its credential, a token bound to both, and an expiry `leaseMs` away; nothing else changes but the
   state of that stage on the meeting.
   */
  lemma ClaimTakes(s: State, who: Identity, id: JobId, secret: string, leaseMs: nat)
    requires RefsOk(s)
    ensures Claim(s, who, id, secret, leaseMs) == s <==> !Takable(s, who, id)
    ensures var t := Claim(s, who, id, secret, leaseMs);
            Takable(s, who, id) ==>
              var (j, m) := (s.queue.jobs[id], MeetingOfJob(s, id));
              && t == s.(queue := s.queue.(jobs := t.queue.jobs), meetings := s.meetings[m := Started(s.meetings[m], id.stage)])
              && t.queue.jobs == s.queue.jobs[id :=
                   Job(Leased, j.attempts + 1, j.maxAttempts, j.nextAttemptAt,
                       Some(TokenHash(secret, id, j.attempts + 1, who.credential)), Some(s.now + leaseMs), Some(who.credential),
                       j.failureCode, j.failureDetail)]
  {
    var t := Claim(s, who, id, secret, leaseMs);
    if Takable(s, who, id) {
      var m := MeetingOfJob(s, id);
      assert t.queue.jobs[id].status == Leased;
      assert id.stage == Normalize ==> s.meetings[m := s.meetings[m]] == s.meetings;
    }
  }

  // ---- Everything of one meeting ---------------------------------------------------------------------

  /** Run `r` belongs to meeting `m`. */
  predicate RunOf(s: State, r: Id, m: Id) { r in s.queue.runs && s.queue.runs[r].meeting == m }

  /** The rows of meeting `m` in every table, the URLs and the objects under its prefix are the same in both states. */
  ghost predicate Untouched(s: State, t: State, m: Id)
  {
    && (m in t.meetings <==> m in s.meetings) && (m in s.meetings ==> t.meetings[m] == s.meetings[m])
    && (forall r :: RunOf(t, r, m) <==> RunOf(s, r, m))
    && (forall r | RunOf(s, r, m) :: SameRun(s, t, r))
    && (forall x: PutUrl | x.key.meeting == m :: x in t.urls <==> x in s.urls)
    && (forall k: ObjectKey | k.meeting == m :: k in t.objects <==> k in s.objects)
  }

  /** Run `r` has the same row, jobs, media, version and uploads in both states. */
  ghost predicate SameRun(s: State, t: State, r: Id)
    requires r in s.queue.runs
  {
    && r in t.queue.runs && t.queue.runs[r] == s.queue.runs[r]
    && (forall j: JobId | j.run == r :: j in t.queue.jobs <==> j in s.queue.jobs)
    && (forall j: JobId | j.run == r && j in s.queue.jobs :: t.queue.jobs[j] == s.queue.jobs[j])
    && (forall u: UploadId | u.job.run == r :: u in t.queue.media <==> u in s.queue.media)
    && (forall u: UploadId | u.job.run == r && u in s.queue.media :: t.queue.media[u] == s.queue.media[u])
    && (r in t.queue.versions <==> r in s.queue.versions)
    && (r in s.queue.versions ==> t.queue.versions[r] == s.queue.versions[r])
    && (forall u: UploadId | u.job.run == r :: u in t.uploads <==> u in s.uploads)
    && (forall u: UploadId | u.job.run == r && u in s.uploads :: t.uploads[u] == s.uploads[u])
  }

  lemma NothingTouched(s: State, m: Id)
    ensures Untouched(s, s, m)
  {
  }

  lemma UntouchedThrough(s: State, p: State, t: State, m: Id)
    requires Untouched(s, p, m) && Untouched(p, t, m)
    ensures Untouched(s, t, m)
  {
    forall r | RunOf(s, r, m) ensures SameRun(s, t, r) { assert RunOf(p, r, m); assert SameRun(s, p, r) && SameRun(p, t, r); }
  }

  // ---- One step touches one meeting ----------------------------------------------------------------------

  /** Only run `r` differs. */
  ghost predicate OnlyRun(q: Queue, t: Queue, r: Id)
  {
    && t.runs.Keys == q.runs.Keys && AgreeOff(r, q, t)
    && (forall u: UploadId | u.job.run != r :: u in t.media <==> u in q.media)
    && (forall u: UploadId | u.job.run != r && u in q.media :: t.media[u] == q.media[u])
  }

  ghost predicate OnlyUploads(before: map<UploadId, Upload>, after: map<UploadId, Upload>, r: Id)
  {
    && (forall u: UploadId | u.job.run != r :: u in after <==> u in before)
    && (forall u: UploadId | u.job.run != r && u in before :: after[u] == before[u])
  }

  /** Only run `r` and its meeting `m` differ, and no URL of another meeting was added. */
  ghost predicate OnlyIn(s: State, t: State, r: Id, m: Id)
  {
    && t.meetings.Keys == s.meetings.Keys && (forall n | n in s.meetings && n != m :: t.meetings[n] == s.meetings[n])
    && OnlyRun(s.queue, t.queue, r) && OnlyUploads(s.uploads, t.uploads, r)
    && (forall x: PutUrl | x.key.meeting != m :: x in t.urls <==> x in s.urls)
    && t.objects == s.objects
  }

  lemma OnlyRunSparesOthers(s: State, t: State, r: Id, p: Id)
    requires OnlyRun(s.queue, t.queue, r) && OnlyUploads(s.uploads, t.uploads, r) && p != r && p in s.queue.runs
    ensures SameRun(s, t, p)
  {
    forall j: JobId | j.run == p ensures (j in t.queue.jobs <==> j in s.queue.jobs) && (j in s.queue.jobs ==> t.queue.jobs[j] == s.queue.jobs[j]) {
      assert JobAt(t.queue, p, j.stage) == JobAt(s.queue, p, j.stage);
      assert j == JobId(p, j.stage);
    }
  }

  lemma OnlyInSparesOthers(s: State, t: State, r: Id, m: Id, n: Id)
    requires RunOf(s, r, m) && RunOf(t, r, m) && OnlyIn(s, t, r, m) && n != m
    ensures Untouched(s, t, n)
  {
    hide SameRun, OnlyUploads;
    forall p ensures RunOf(t, p, n) <==> RunOf(s, p, n) {
      if p in s.queue.runs && p != r { assert t.queue.runs[p] == s.queue.runs[p]; }
    }
    forall p | RunOf(s, p, n) ensures SameRun(s, t, p) { OnlyRunSparesOthers(s, t, r, p); }
  }

  lemma PutOnlyRun(q: Queue, id: JobId, j: Job)
    requires Linked(q) && id.run in q.runs
    ensures OnlyRun(q, PutJob(q, id, j), id.run)
  {
    PutAgreesOff(q, id, j);
  }

  lemma ResolveOnlyRun(q: Queue, id: JobId, j: Job, code: string, transcript: Document, usable: bool)
    requires Linked(q) && id in q.jobs
    ensures OnlyRun(q, Resolve(PutJob(q, id, j), id, code, transcript, usable), id.run)
  {
    hide AgreeOff;
    ResolveAgreesOff(q, id, j, code, transcript, usable);
  }

  lemma CloseOnlyRun(q: Queue, u: U.UploadId, result: Result, usable: bool, now: int)
    requires Linked(q) && u.job in q.jobs
    ensures OnlyRun(q, Close(q, u, result, usable, now), u.job.run)
  {
    hide AgreeOff;
    CloseAgreesOff(q, u, result, usable, now);
  }

  lemma ClaimOnlyIn(s: State, who: Identity, id: JobId, secret: string, leaseMs: nat)
    requires RefsOk(s) && id in s.queue.jobs
    ensures OnlyIn(s, Claim(s, who, id, secret, leaseMs), id.run, MeetingOfJob(s, id))
  {
    hide OnlyRun, Claim, Takable, RefsOk;
    JobsRunIsThere(s, id);
    var t := Claim(s, who, id, secret, leaseMs);
    ClaimTakes(s, who, id, secret, leaseMs);
    NothingInRun(s.queue, id.run);
    if t != s {
      PutOnlyRun(s.queue, id, t.queue.jobs[id]);
      assert t.queue == PutJob(s.queue, id, t.queue.jobs[id]);
    }
  }

  lemma JobsRunIsThere(s: State, id: JobId)
    requires RefsOk(s) && id in s.queue.jobs
    ensures id.run in s.queue.runs && Linked(s.queue)
  {
  }

  lemma NothingInRun(q: Queue, r: Id)
    ensures OnlyRun(q, q, r)
  {
  }

  lemma HeartbeatOnlyIn(s: State, who: Identity, proof: Proof, leaseMs: nat)
    requires RefsOk(s) && proof.job in s.queue.jobs
    ensures OnlyIn(s, Heartbeat(s, who, proof, leaseMs).0, proof.job.run, MeetingOfJob(s, proof.job))
  {
    hide OnlyRun, Renewed, Authorize, RefsOk;
    JobsRunIsThere(s, proof.job);
    HeartbeatLeavesTables(s, who, proof, leaseMs);
    NothingInRun(s.queue, proof.job.run);
    if Authorize(s, who, proof, false).Done? {
      LeaseStepsPut(s, who, proof, leaseMs, U.Digested(0, ""));
      PutOnlyRun(s.queue, proof.job, Renewed(s.queue.jobs[proof.job], s.now + leaseMs));
    }
  }

  lemma HeartbeatLeavesTables(s: State, who: Identity, proof: Proof, leaseMs: nat)
    requires RefsOk(s)
    ensures var t := Heartbeat(s, who, proof, leaseMs).0;
            t.meetings == s.meetings && t.uploads == s.uploads && t.urls == s.urls && t.objects == s.objects
  {
    hide Authorize, RefsOk;
  }

  lemma ResultInitLeavesTables(s: State, who: Identity, proof: Proof, declared: U.Digested)
    requires RefsOk(s) && proof.job in s.queue.jobs
    ensures var t := ResultInit(s, who, proof, declared).0;
            && t.meetings == s.meetings && t.objects == s.objects
            && OnlyUploads(s.uploads, t.uploads, proof.job.run)
            && forall x: PutUrl | x.key.meeting != MeetingOfJob(s, proof.job) :: x in t.urls <==> x in s.urls
  {
    hide Authorize, RefsOk, U.Initiated;
  }

  lemma ResultInitOnlyIn(s: State, who: Identity, proof: Proof, declared: U.Digested)
    requires RefsOk(s) && proof.job in s.queue.jobs
    ensures OnlyIn(s, ResultInit(s, who, proof, declared).0, proof.job.run, MeetingOfJob(s, proof.job))
  {
    hide OnlyRun, OnlyUploads, ResultInit, MarkedUploading, Authorize, RefsOk;
    JobsRunIsThere(s, proof.job);
    ResultInitLeavesTables(s, who, proof, declared);
    NothingInRun(s.queue, proof.job.run);
    if Authorize(s, who, proof, false).Done? {
      LeaseStepsPut(s, who, proof, 0, declared);
      PutOnlyRun(s.queue, proof.job, MarkedUploading(s.queue.jobs[proof.job]));
    } else {
      LeaseStepsRefused(s, who, proof, 0, declared);
      NothingInUploads(s.uploads, proof.job.run);
    }
  }

  lemma NothingInUploads(uploads: map<UploadId, Upload>, r: Id)
    ensures OnlyUploads(uploads, uploads, r)
  {
  }

  lemma FailJobOnlyIn(s: State, id: JobId, j: Job, code: string, reread: Option<Document>)
    requires RefsOk(s) && id in s.queue.jobs
    ensures OnlyIn(s, FailJob(s, id, j, code, reread).0, id.run, MeetingOfJob(s, id))
  {
    hide OnlyRun, Resolve, HasTranscript;
    JobsRunIsThere(s, id);
    PutOnlyRun(s.queue, id, j);
    ResolveOnlyRun(s.queue, id, j, code, reread.GetOr(0), HasTranscript(s, id.run));
    NothingInRun(s.queue, id.run);
  }

  lemma CloseJobOnlyIn(s: State, u: UploadId, req: CompleteRequest, transcript: Document, speakers: Document)
    requires RefsOk(s) && u in s.uploads && u.job in s.queue.jobs
    ensures OnlyIn(s, CloseJob(s, u, req, transcript, speakers).0, u.job.run, MeetingOfJob(s, u.job))
  {
    hide OnlyRun, Close, HasTranscript, ResultOf;
    JobsRunIsThere(s, u.job);
    CloseOnlyRun(s.queue, u, ResultOf(req, transcript, speakers), HasTranscript(s, u.job.run), s.now);
  }

  // ---- A worker bound to a tenant --------------------------------------------------------------------------

  /** The request of a worker bound to this tenant, or of one of its users for an upload URL. */
  predicate ActsFor(step: Step, tenant: Id)
  {
    (IsWorkerStep(step) && step.who.tenant == Some(tenant)) || (step.DoUploadInit? && step.tenant == tenant)
  }

  /** A meeting of another tenant, or one that does not exist. */
  predicate Foreign(s: State, tenant: Id, m: Id) { m in s.meetings ==> s.meetings[m].tenant != tenant }

  /** The job that a worker's request is about. */
  function JobOf(step: Step): JobId
    requires IsWorkerStep(step)
  {
    match step
    case DoClaim(_, job, _, _) => job
    case DoComplete(_, req, _, _) => req.proof.job
    case DoHeartbeat(_, proof, _) => proof.job
    case DoResultInit(_, proof, _) => proof.job
    case DoFail(_, proof, _, _, _, _) => proof.job
  }

  lemma ClaimNeedsTenant(s: State, who: Identity, id: JobId, secret: string, leaseMs: nat, tenant: Id)
    requires RefsOk(s) && who.tenant == Some(tenant)
    ensures Claim(s, who, id, secret, leaseMs) == s || (id in s.queue.jobs && s.meetings[MeetingOfJob(s, id)].tenant == tenant)
  {
    hide Claim, RefsOk;
    ClaimTakes(s, who, id, secret, leaseMs);
  }

  lemma ProofNeedsTenant(s: State, who: Identity, proof: Proof, allowTerminal: bool, tenant: Id)
    requires RefsOk(s) && who.tenant == Some(tenant) && Authorize(s, who, proof, allowTerminal).Done?
    ensures proof.job in s.queue.jobs && s.meetings[MeetingOfJob(s, proof.job)].tenant == tenant
  {
  }

  lemma LeaseStepsNeedTenant(s: State, who: Identity, proof: Proof, leaseMs: nat, declared: U.Digested, tenant: Id)
    requires RefsOk(s) && who.tenant == Some(tenant) && proof.job in s.queue.jobs
    ensures (Heartbeat(s, who, proof, leaseMs).0 == s && ResultInit(s, who, proof, declared).0 == s)
            || s.meetings[MeetingOfJob(s, proof.job)].tenant == tenant
  {
    hide RefsOk, Authorize, Heartbeat, ResultInit;
    if Authorize(s, who, proof, false).Done? {
      ProofNeedsTenant(s, who, proof, false, tenant);
    } else {
      LeaseStepsRefused(s, who, proof, leaseMs, declared);
    }
  }

  lemma EndingsNeedTenant(s: State, who: Identity, req: CompleteRequest, code: string, detail: Option<string>, retryAt: int,
                          reread: Option<Document>, transcript: Document, speakers: Document, tenant: Id)
    requires RefsOk(s) && who.tenant == Some(tenant) && req.proof.job in s.queue.jobs
    ensures (Fail(s, who, req.proof, code, detail, retryAt, reread).0 == s && Complete(s, who, req, transcript, speakers).0 == s)
            || s.meetings[MeetingOfJob(s, req.proof.job)].tenant == tenant
  {
    hide RefsOk, Authorize, FailJob, CloseJob;
    if Authorize(s, who, req.proof, true).Done? { ProofNeedsTenant(s, who, req.proof, true, tenant); }
  }

  lemma FailOnlyIn(s: State, who: Identity, proof: Proof, code: string, detail: Option<string>, retryAt: int, reread: Option<Document>)
    requires RefsOk(s) && proof.job in s.queue.jobs
    ensures OnlyIn(s, Fail(s, who, proof, code, detail, retryAt, reread).0, proof.job.run, MeetingOfJob(s, proof.job))
  {
    hide OnlyRun, FailJob, RefsOk;
    NothingInRun(s.queue, proof.job.run);
    NothingInUploads(s.uploads, proof.job.run);
    FailJobOnlyIn(s, proof.job, MarkedFailed(s.queue.jobs[proof.job], code, KeptDetail(detail), retryAt), code, reread);
  }

  lemma CompleteOnlyIn(s: State, who: Identity, req: CompleteRequest, transcript: Document, speakers: Document)
    requires RefsOk(s) && req.proof.job in s.queue.jobs
    ensures OnlyIn(s, Complete(s, who, req, transcript, speakers).0, req.proof.job.run, MeetingOfJob(s, req.proof.job))
  {
    hide OnlyRun, Complete, CloseJob, RefsOk;
    NothingInRun(s.queue, req.proof.job.run);
    NothingInUploads(s.uploads, req.proof.job.run);
    CompleteClosesOrNothing(s, who, req, transcript, speakers);
    var u := U.UploadId(req.proof.job, req.proof.attempt);
    if u in s.uploads { CloseJobOnlyIn(s, u, req, transcript, speakers); }
  }

  /** A worker's step changes only the run of its job and that run's meeting. */
  lemma WorkerOnlyIn(s: State, step: Step)
    requires RefsOk(s) && IsWorkerStep(step) && JobOf(step) in s.queue.jobs
    ensures OnlyIn(s, Next(s, step), JobOf(step).run, MeetingOfJob(s, JobOf(step)))
  {
    hide OnlyIn, RefsOk, Claim, Heartbeat, ResultInit, Fail, Complete;
    match step
    case DoClaim(who, id, secret, leaseMs) => ClaimOnlyIn(s, who, id, secret, leaseMs);
    case DoHeartbeat(who, proof, leaseMs) => HeartbeatOnlyIn(s, who, proof, leaseMs);
    case DoResultInit(who, proof, declared) => ResultInitOnlyIn(s, who, proof, declared);
    case DoFail(who, proof, code, detail, retryAt, reread) => FailOnlyIn(s, who, proof, code, detail, retryAt, reread);
    case DoComplete(who, req, transcript, speakers) => CompleteOnlyIn(s, who, req, transcript, speakers);
  }

  lemma StrangersChangeNothing(s: State, step: Step)
    requires RefsOk(s) && IsWorkerStep(step) && JobOf(step) !in s.queue.jobs
    ensures Next(s, step) == s
  {
    hide FailJob, CloseJob;
  }

  lemma WorkerNeedsTenant(s: State, step: Step, tenant: Id)
    requires RefsOk(s) && IsWorkerStep(step) && step.who.tenant == Some(tenant) && JobOf(step) in s.queue.jobs
    ensures Next(s, step) == s || s.meetings[MeetingOfJob(s, JobOf(step))].tenant == tenant
  {
    hide RefsOk, Authorize, Claim, Heartbeat, ResultInit, Fail, Complete;
    match step
    case DoClaim(who, id, secret, leaseMs) => ClaimNeedsTenant(s, who, id, secret, leaseMs, tenant);
    case DoHeartbeat(who, proof, leaseMs) => LeaseStepsNeedTenant(s, who, proof, leaseMs, U.Digested(0, ""), tenant);
    case DoResultInit(who, proof, declared) => LeaseStepsNeedTenant(s, who, proof, 0, declared, tenant);
    case DoFail(who, proof, code, detail, retryAt, reread) =>
      EndingsNeedTenant(s, who, CompleteRequest(proof, U.Digested(0, ""), None), code, detail, retryAt, reread, 0, 0, tenant);
    case DoComplete(who, req, transcript, speakers) =>
      EndingsNeedTenant(s, who, req, "", None, 0, None, transcript, speakers, tenant);
  }

  lemma UploadInitStaysIn(s: State, tenant: Id, client: Id, own: Id, m: Id)
    requires RefsOk(s) && Foreign(s, tenant, m)
    ensures Untouched(s, UploadInit(s, tenant, client, own).0, m)
  {
    hide RefsOk;
  }

  /** In any state, a step for one tenant changes no row, URL or object of any other tenant's meetings. */
  lemma TenantTouchesOwn(s: State, step: Step, tenant: Id, m: Id)
    requires RefsOk(s) && ActsFor(step, tenant) && Foreign(s, tenant, m)
    ensures Untouched(s, Next(s, step), m)
  {
    hide OnlyIn, Untouched, RefsOk, UploadInit, Claim, Heartbeat, ResultInit, Fail, Complete;
    if step.DoUploadInit? {
      UploadInitStaysIn(s, tenant, step.client, step.m, m);
    } else {
      if JobOf(step) in s.queue.jobs {
        WorkerNeedsTenant(s, step, tenant);
        WorkerOnlyIn(s, step);
      } else {
        StrangersChangeNothing(s, step);
      }
      WorkerSparesOthers(s, step, m);
    }
  }

  lemma WorkerSparesOthers(s: State, step: Step, m: Id)
    requires RefsOk(s) && IsWorkerStep(step)
    requires var id := JobOf(step);
             || Next(s, step) == s
             || (id in s.queue.jobs && MeetingOfJob(s, id) != m && OnlyIn(s, Next(s, step), id.run, MeetingOfJob(s, id)))
    ensures Untouched(s, Next(s, step), m)
  {
    hide Next, Untouched, RefsOk;
    var (id, t) := (JobOf(step), Next(s, step));
    if t == s {
      NothingTouched(s, m);
    } else {
      JobsRunIsThere(s, id);
      NextProgress(s, step);
      assert id.run in t.queue.runs;
      assert t.queue.runs[id.run].meeting == s.queue.runs[id.run].meeting;
      OnlyInSparesOthers(s, t, id.run, MeetingOfJob(s, id), m);
    }
  }

  /** Over any steps of workers and users of one tenant, everything of every other tenant's meetings stays as it was. */
  lemma {:induction false} TenantsAreIsolated(s: State, steps: seq<Step>, tenant: Id, m: Id)
    requires RefsOk(s) && Foreign(s, tenant, m) && forall i | 0 <= i < |steps| :: ActsFor(steps[i], tenant)
    ensures Untouched(s, After(s, steps), m)
    decreases |steps|
  {
    hide Next, RefsOk, ActsFor, SameRun;
    if steps == [] {
      NothingTouched(s, m);
    } else {
      var t := Next(s, steps[0]);
      TenantTouchesOwn(s, steps[0], tenant, m);
      TenantsAreIsolated(t, steps[1..], tenant, m);
      UntouchedThrough(s, t, After(t, steps[1..]), m);
    }
  }
}
