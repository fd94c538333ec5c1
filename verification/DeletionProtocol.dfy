/**
 No orphan audio: once a meeting's row is gone nothing is under its prefix, then or later,
 although signed upload URLs cannot be revoked. It holds for a meeting exactly as long as
 every URL handed out for it was recorded, and one branch hands out one that is not.
 */
module DeletionProtocol {
  import opened Common
  import opened JobRows
  import opened JobQueue
  import opened QueueProgress
  import opened PipelineState
  import opened PipelineProgress
  import opened PipelineTraces
  import opened LeaseSafety
  import U = UploadRows

  // ---- The invariant, one meeting at a time -----------------------------------------------

  /** The row of the meeting, or of the upload, remembers a URL's expiry. */
  predicate Recorded(meeting: Meeting, uploads: map<UploadId, Upload>, q: Queue, m: Id, x: PutUrl)
  {
    match x.key
    case Original(_) => meeting.originalPutExpiresAt.Some? && x.expiresAt <= meeting.originalPutExpiresAt.value
    case Artifact(_, u) =>
      && u in uploads && x.expiresAt <= uploads[u].putExpiresAt
      && u.job.run in q.runs && q.runs[u.job.run].meeting == m
  }

  /** Every URL of `m` expires by `t`. */
  predicate ExpireBy(urls: set<PutUrl>, m: Id, t: int) { forall x | x in urls && x.key.meeting == m :: x.expiresAt <= t }

  predicate Clear(objects: set<ObjectKey>, m: Id) { forall k | k in objects :: k.meeting != m }

  predicate UrlsRecorded(s: State, m: Id)
  {
    m in s.meetings ==>
      forall x | x in s.urls && x.key.meeting == m :: Recorded(s.meetings[m], s.uploads, s.queue, m, x)
  }

  predicate DeadlineOk(s: State, m: Id)
  {
    m in s.meetings && s.meetings[m].deletion != Live ==>
      s.meetings[m].deletionNotBefore.Some? && ExpireBy(s.urls, m, s.meetings[m].deletionNotBefore.value)
  }

  predicate PurgerOk(s: State, p: Purger)
  {
    && (p.meeting in s.meetings ==> s.meetings[p.meeting].deletion != Live)
    && p.notBefore <= s.now && ExpireBy(s.urls, p.meeting, p.notBefore)
    && (p.sawEmpty ==> Clear(s.objects, p.meeting))
  }

  predicate PurgersOk(s: State, m: Id) { forall p | p in s.purgers && p.meeting == m :: PurgerOk(s, p) }

  /** What deleting the row promised. */
  predicate GoneForGood(s: State, m: Id)
  {
    m in s.usedMeetings && m !in s.meetings ==> Clear(s.objects, m) && ExpireBy(s.urls, m, s.now)
  }

  predicate StoreOk(s: State, m: Id)
  {
    && ExpireBy(s.urls, m, s.now + s.putTtl)
    && UrlsRecorded(s, m) && DeadlineOk(s, m) && PurgersOk(s, m) && GoneForGood(s, m)
  }

  /**
   The step signs an upload URL for `m` whose expiry no row keeps: `result/init` on an upload
   already verified signs a new URL, but the statement that would record it skips that state.
   */
  predicate SignsUnrecorded(s: State, step: Step, m: Id)
    requires RefsOk(s)
  {
    && step.DoResultInit?
    && ResultInit(s, step.who, step.proof, step.declared).1.Done?
    && step.proof.job in s.queue.jobs && MeetingOfJob(s, step.proof.job) == m
    && var u := U.UploadId(step.proof.job, step.proof.attempt);
       u in s.uploads && !U.Reopenable(s.uploads[u]) && s.uploads[u].putExpiresAt < s.now + s.putTtl
  }

  // ---- Steps that do not touch the store --------------------------------------------------

  predicate SameDeletion(a: Meeting, b: Meeting)
  {
    a.deletion == b.deletion && a.deletionNotBefore == b.deletionNotBefore && a.originalPutExpiresAt == b.originalPutExpiresAt
  }

  predicate UploadsKept(s: State, t: State)
  {
    && (forall u | u in s.uploads :: u in t.uploads && t.uploads[u].putExpiresAt == s.uploads[u].putExpiresAt)
    && (forall r | r in s.queue.runs :: r in t.queue.runs && t.queue.runs[r].meeting == s.queue.runs[r].meeting)
  }

  predicate StoreKept(s: State, t: State)
  {
    && t.now == s.now && t.putTtl == s.putTtl && t.usedMeetings == s.usedMeetings
    && t.urls == s.urls && t.objects == s.objects && t.purgers == s.purgers
  }

  predicate DeletionsKept(s: State, t: State, m: Id)
  {
    (m in t.meetings <==> m in s.meetings) && (m in s.meetings ==> SameDeletion(s.meetings[m], t.meetings[m]))
  }

  predicate Quiet(s: State, t: State, m: Id) { StoreKept(s, t) && DeletionsKept(s, t, m) && UploadsKept(s, t) }

  lemma {:induction false} QuietKeepsStore(s: State, t: State, m: Id)
    requires StoreOk(s, m) && Quiet(s, t, m)
    ensures StoreOk(t, m)
  {
    assert UrlsRecorded(t, m);
    forall p | p in t.purgers && p.meeting == m ensures PurgerOk(t, p) { assert PurgerOk(s, p); }
  }

  lemma ResolveKeepsRuns(q: Queue, id: JobId, j: Job, code: string, transcript: Document, usable: bool, r: Id)
    requires Linked(q) && id in q.jobs && r in q.runs
    ensures var t := Resolve(PutJob(q, id, j), id, code, transcript, usable);
            r in t.runs && t.runs[r].meeting == q.runs[r].meeting
  {
  }

  lemma {:induction false} FailJobKeepsUploads(s: State, id: JobId, j: Job, code: string, reread: Option<Document>)
    requires RefsOk(s) && id in s.queue.jobs
    ensures UploadsKept(s, FailJob(s, id, j, code, reread).0)
  {
    forall r | r in s.queue.runs
      ensures var t := FailJob(s, id, j, code, reread).0; r in t.queue.runs && t.queue.runs[r].meeting == s.queue.runs[r].meeting
    {
      ResolveKeepsRuns(s.queue, id, j, code, reread.GetOr(0), HasTranscript(s, id.run), r);
    }
  }

  lemma {:induction false} FailJobIsQuiet(s: State, id: JobId, j: Job, code: string, reread: Option<Document>, m: Id)
    requires RefsOk(s) && id in s.queue.jobs
    ensures Quiet(s, FailJob(s, id, j, code, reread).0, m)
  {
    FailJobKeepsUploads(s, id, j, code, reread);
  }

  lemma {:induction false} FailIsQuiet(s: State, who: Identity, proof: Proof, code: string, detail: Option<string>,
                                       retryAt: int, reread: Option<Document>, m: Id)
    requires RefsOk(s)
    ensures Quiet(s, Fail(s, who, proof, code, detail, retryAt, reread).0, m)
  {
    var a := Authorize(s, who, proof, true);
    if a.Done? && !Terminal(a.value) {
      FailJobIsQuiet(s, proof.job, MarkedFailed(a.value, code, KeptDetail(detail), retryAt), code, reread, m);
    }
  }

  lemma CloseKeepsRuns(q: Queue, u: UploadId, result: Result, usable: bool, now: int, r: Id)
    requires Linked(q) && u.job in q.jobs && r in q.runs
    ensures var t := Close(q, u, result, usable, now); r in t.runs && t.runs[r].meeting == q.runs[r].meeting
  {
  }

  lemma {:induction false} CloseJobKeepsUploads(s: State, u: UploadId, req: CompleteRequest, transcript: Document, speakers: Document)
    requires RefsOk(s) && u in s.uploads
    ensures UploadsKept(s, CloseJob(s, u, req, transcript, speakers).0)
  {
    forall r | r in s.queue.runs
      ensures var t := CloseJob(s, u, req, transcript, speakers).0;
              r in t.queue.runs && t.queue.runs[r].meeting == s.queue.runs[r].meeting
    {
      CloseKeepsRuns(s.queue, u, ResultOf(req, transcript, speakers), HasTranscript(s, u.job.run), s.now, r);
    }
  }

  lemma {:induction false} CloseJobIsQuiet(s: State, u: UploadId, req: CompleteRequest, transcript: Document, speakers: Document, m: Id)
    requires RefsOk(s) && u in s.uploads
    ensures Quiet(s, CloseJob(s, u, req, transcript, speakers).0, m)
  {
    CloseJobKeepsUploads(s, u, req, transcript, speakers);
  }

  lemma {:induction false} CompleteIsQuiet(s: State, who: Identity, req: CompleteRequest, transcript: Document, speakers: Document, m: Id)
    requires RefsOk(s)
    ensures Quiet(s, Complete(s, who, req, transcript, speakers).0, m)
  {
    CompleteClosesOrNothing(s, who, req, transcript, speakers);
    var u := U.UploadId(req.proof.job, req.proof.attempt);
    if u in s.uploads { CloseJobIsQuiet(s, u, req, transcript, speakers, m); }
  }

  lemma HeartbeatIsQuiet(s: State, who: Identity, proof: Proof, leaseMs: nat, m: Id)
    requires RefsOk(s)
    ensures Quiet(s, Heartbeat(s, who, proof, leaseMs).0, m)
  {
  }

  lemma {:induction false} ClaimIsQuiet(s: State, who: Identity, id: JobId, secret: string, leaseMs: nat, m: Id)
    requires RefsOk(s)
    ensures Quiet(s, Claim(s, who, id, secret, leaseMs), m)
  {
    if MayClaim(s, who, id) {
      assert Claim(s, who, id, secret, leaseMs).queue.runs == s.queue.runs;
      assert Claim(s, who, id, secret, leaseMs).uploads == s.uploads;
    }
  }

  lemma {:induction false} UploadCommitIsQuiet(s: State, n: Id, r: Id, m: Id)
    requires RefsOk(s)
    ensures Quiet(s, UploadCommit(s, n, r), m)
  {
    assert r !in s.usedRuns ==> r !in s.queue.runs;
  }

  lemma {:induction false} StartRunIsQuiet(s: State, n: Id, r: Id, diarize: Option<bool>, m: Id)
    requires RefsOk(s)
    ensures Quiet(s, StartRun(s, n, r, diarize), m)
  {
    assert r !in s.usedRuns ==> r !in s.queue.runs;
  }

  lemma VerdictsAreQuiet(s: State, u: UploadId, observed: U.Digested, code: string, m: Id)
    requires RefsOk(s)
    ensures Quiet(s, VerifyUpload(s, u, observed), m) && Quiet(s, RejectUpload(s, u, code), m)
  {
  }

  // ---- Steps that sign, delete or let time pass ---------------------------------------------

  lemma {:induction false} CreateKeepsStore(s: State, n: Id, tenant: Id, client: Id, m: Id)
    requires RefsOk(s) && StoreOk(s, m)
    ensures StoreOk(CreateMeeting(s, n, tenant, client), m)
  {
    var t := CreateMeeting(s, n, tenant, client);
    forall p | p in t.purgers && p.meeting == m ensures PurgerOk(t, p) { assert PurgerOk(s, p); }
  }

  lemma {:induction false} UploadInitKeepsStore(s: State, tenant: Id, client: Id, n: Id, m: Id)
    requires RefsOk(s) && StoreOk(s, m)
    ensures StoreOk(UploadInit(s, tenant, client, n).0, m)
  {
    var t := UploadInit(s, tenant, client, n).0;
    forall p | p in t.purgers && p.meeting == m ensures PurgerOk(t, p) { assert PurgerOk(s, p); }
  }

  lemma {:induction false} ReserveKeepsStore(s: State, n: Id, deadline: int, m: Id)
    requires RefsOk(s) && StoreOk(s, m)
    ensures StoreOk(Reserve(s, n, deadline), m)
  {
    var t := Reserve(s, n, deadline);
    forall p | p in t.purgers && p.meeting == m ensures PurgerOk(t, p) { assert PurgerOk(s, p); }
    if t != s && n == m {
      forall x | x in s.urls && x.key.meeting == m ensures x.expiresAt <= deadline {
        assert Recorded(s.meetings[m], s.uploads, s.queue, m, x);
      }
    }
  }

  lemma {:induction false} StartPurgeKeepsStore(s: State, n: Id, m: Id)
    requires RefsOk(s) && StoreOk(s, m)
    ensures StoreOk(StartPurge(s, n), m)
  {
    var t := StartPurge(s, n);
    forall x | x in t.purgers && x.meeting == m && x in s.purgers ensures PurgerOk(t, x) { assert PurgerOk(s, x); }
  }

  lemma {:induction false} PurgeObjectKeepsStore(s: State, p: Purger, k: ObjectKey, m: Id)
    requires RefsOk(s) && StoreOk(s, m)
    ensures StoreOk(PurgeObject(s, p, k), m)
  {
    var t := PurgeObject(s, p, k);
    forall x | x in t.purgers && x.meeting == m && x in s.purgers ensures PurgerOk(t, x) { assert PurgerOk(s, x); }
  }

  lemma {:induction false} PurgeVerifyKeepsStore(s: State, p: Purger, m: Id)
    requires RefsOk(s) && StoreOk(s, m)
    ensures StoreOk(PurgeVerify(s, p), m)
  {
    var t := PurgeVerify(s, p);
    forall x | x in t.purgers && x.meeting == m && x in s.purgers ensures PurgerOk(t, x) { assert PurgerOk(s, x); }
  }

  lemma {:induction false} MarkDeleteFailedKeepsStore(s: State, n: Id, m: Id)
    requires RefsOk(s) && StoreOk(s, m)
    ensures StoreOk(MarkDeleteFailed(s, n), m)
  {
    var t := MarkDeleteFailed(s, n);
    forall x | x in t.purgers && x.meeting == m && x in s.purgers ensures PurgerOk(t, x) { assert PurgerOk(s, x); }
  }

  lemma {:induction false} DeleteKeepsStore(s: State, p: Purger, m: Id)
    requires RefsOk(s) && StoreOk(s, m)
    ensures StoreOk(DeleteRow(s, p), m)
  {
    var t := DeleteRow(s, p);
    forall x | x in t.purgers && x.meeting == m ensures PurgerOk(t, x) { assert PurgerOk(s, x); }
  }

  lemma {:induction false} PutKeepsStore(s: State, url: PutUrl, m: Id)
    requires RefsOk(s) && StoreOk(s, m)
    ensures StoreOk(Put(s, url), m)
  {
    var t := Put(s, url);
    forall x | x in t.purgers && x.meeting == m ensures PurgerOk(t, x) { assert PurgerOk(s, x); }
  }

  lemma {:induction false} TickKeepsStore(s: State, dt: nat, m: Id)
    requires RefsOk(s) && StoreOk(s, m)
    ensures StoreOk(s.(now := s.now + dt), m)
  {
    var t := s.(now := s.now + dt);
    forall x | x in t.purgers && x.meeting == m ensures PurgerOk(t, x) { assert PurgerOk(s, x); }
  }

  /** What an accepted `result/init` does to the store and to the rows. */
  lemma ResultInitEffect(s: State, who: Identity, proof: Proof, declared: U.Digested)
    requires RefsOk(s) && ResultInit(s, who, proof, declared).1.Done?
    ensures proof.job in s.queue.jobs && proof.job.run in s.queue.runs
    ensures var t := ResultInit(s, who, proof, declared).0;
            var n := MeetingOfJob(s, proof.job);
            var u := U.UploadId(proof.job, proof.attempt);
            && t.urls == s.urls + {PutUrl(Artifact(n, u), s.now + s.putTtl)}
            && t.uploads == s.uploads[u := U.Initiated(UploadAt(s, u), s.now + s.putTtl, declared, s.now)]
            && t.meetings == s.meetings && t.usedMeetings == s.usedMeetings && t.queue.runs == s.queue.runs
            && t.objects == s.objects && t.purgers == s.purgers && t.now == s.now && t.putTtl == s.putTtl
            && s.meetings[n].deletion == Live
  {
  }

  lemma {:induction false} ResultInitElsewhere(s: State, who: Identity, proof: Proof, declared: U.Digested, m: Id)
    requires RefsOk(s) && StoreOk(s, m) && ResultInit(s, who, proof, declared).1.Done?
    requires proof.job in s.queue.jobs && MeetingOfJob(s, proof.job) != m
    ensures StoreOk(ResultInit(s, who, proof, declared).0, m)
  {
    ResultInitEffect(s, who, proof, declared);
    var t := ResultInit(s, who, proof, declared).0;
    forall p | p in t.purgers && p.meeting == m ensures PurgerOk(t, p) { assert PurgerOk(s, p); }
    assert UrlsRecorded(t, m);
  }

  lemma {:induction false} ResultInitHere(s: State, who: Identity, proof: Proof, declared: U.Digested, m: Id)
    requires RefsOk(s) && StoreOk(s, m) && ResultInit(s, who, proof, declared).1.Done?
    requires proof.job in s.queue.jobs && MeetingOfJob(s, proof.job) == m
    ensures StoreOk(ResultInit(s, who, proof, declared).0, m) <==> !SignsUnrecorded(s, DoResultInit(who, proof, declared), m)
  {
    ResultInitEffect(s, who, proof, declared);
    var t := ResultInit(s, who, proof, declared).0;
    var x := PutUrl(Artifact(m, U.UploadId(proof.job, proof.attempt)), s.now + s.putTtl);
    assert forall p | p in s.purgers && p.meeting == m :: PurgerOk(s, p);
    assert PurgersOk(t, m);
    assert x in t.urls && x.key.meeting == m;
    assert UrlsRecorded(t, m) <==> !SignsUnrecorded(s, DoResultInit(who, proof, declared), m);
  }

  lemma {:induction false} ResultInitKeepsStoreIff(s: State, who: Identity, proof: Proof, declared: U.Digested, m: Id)
    requires RefsOk(s) && StoreOk(s, m)
    ensures StoreOk(ResultInit(s, who, proof, declared).0, m) <==> !SignsUnrecorded(s, DoResultInit(who, proof, declared), m)
  {
    if ResultInit(s, who, proof, declared).1.Done? {
      ResultInitEffect(s, who, proof, declared);
      if MeetingOfJob(s, proof.job) == m {
        ResultInitHere(s, who, proof, declared, m);
      } else {
        ResultInitElsewhere(s, who, proof, declared, m);
      }
    }
  }

  lemma {:induction false} WorkersKeepStoreIff(s: State, step: Step, m: Id)
    requires RefsOk(s) && StoreOk(s, m) && IsWorkerStep(step)
    ensures StoreOk(Next(s, step), m) <==> !SignsUnrecorded(s, step, m)
  {
    hide RefsOk, StoreOk, Quiet;
    match step
    case DoResultInit(who, proof, declared) => ResultInitKeepsStoreIff(s, who, proof, declared, m);
    case DoFail(who, proof, code, detail, retryAt, reread) =>
      FailIsQuiet(s, who, proof, code, detail, retryAt, reread, m);
      QuietKeepsStore(s, Next(s, step), m);
    case DoComplete(who, req, transcript, speakers) =>
      CompleteIsQuiet(s, who, req, transcript, speakers, m);
      QuietKeepsStore(s, Next(s, step), m);
    case DoHeartbeat(who, proof, leaseMs) =>
      HeartbeatIsQuiet(s, who, proof, leaseMs, m);
      QuietKeepsStore(s, Next(s, step), m);
    case DoClaim(who, job, secret, leaseMs) =>
      ClaimIsQuiet(s, who, job, secret, leaseMs, m);
      QuietKeepsStore(s, Next(s, step), m);
  }

  /** The steps of a purge that has started. */
  predicate IsPurgerStep(step: Step) { step.DoPurgeObject? || step.DoPurgeVerify? || step.DoDeleteRow? }

  lemma {:induction false} PurgersKeepStore(s: State, step: Step, m: Id)
    requires RefsOk(s) && StoreOk(s, m) && IsPurgerStep(step)
    ensures StoreOk(Next(s, step), m)
  {
    hide RefsOk, StoreOk;
    match step
    case DoPurgeObject(p, k) => PurgeObjectKeepsStore(s, p, k, m);
    case DoPurgeVerify(p) => PurgeVerifyKeepsStore(s, p, m);
    case DoDeleteRow(p) => DeleteKeepsStore(s, p, m);
  }

  lemma {:induction false} DeletionsKeepStore(s: State, step: Step, m: Id)
    requires RefsOk(s) && StoreOk(s, m) && IsDeletionStep(step) && !IsPurgerStep(step)
    ensures StoreOk(Next(s, step), m)
  {
    hide RefsOk, StoreOk;
    match step
    case DoReserve(n, deadline) => ReserveKeepsStore(s, n, deadline, m);
    case DoStartPurge(n) => StartPurgeKeepsStore(s, n, m);
    case DoMarkDeleteFailed(n) => MarkDeleteFailedKeepsStore(s, n, m);
    case DoPut(url) => PutKeepsStore(s, url, m);
  }

  lemma {:induction false} OthersKeepStore(s: State, step: Step, m: Id)
    requires RefsOk(s) && StoreOk(s, m) && !IsWorkerStep(step) && !IsDeletionStep(step)
    ensures StoreOk(Next(s, step), m)
  {
    hide RefsOk, StoreOk;
    match step
    case DoUploadCommit(n, r) => UploadCommitIsQuiet(s, n, r, m); QuietKeepsStore(s, Next(s, step), m);
    case DoStartRun(n, r, diarize) => StartRunIsQuiet(s, n, r, diarize, m); QuietKeepsStore(s, Next(s, step), m);
    case DoVerify(u, observed) => VerdictsAreQuiet(s, u, observed, "", m); QuietKeepsStore(s, Next(s, step), m);
    case DoReject(u, reason) => VerdictsAreQuiet(s, u, U.Digested(0, ""), reason, m); QuietKeepsStore(s, Next(s, step), m);
    case DoMediaRefused(_, _) => QuietKeepsStore(s, Next(s, step), m);
    case DoSweep => QuietKeepsStore(s, Next(s, step), m);
    case DoCancel(_) => QuietKeepsStore(s, Next(s, step), m);
    case DoCreateMeeting(n, tenant, client) => CreateKeepsStore(s, n, tenant, client, m);
    case DoUploadInit(tenant, client, n) => UploadInitKeepsStore(s, tenant, client, n, m);
    case DoTick(dt) => TickKeepsStore(s, dt, m);
  }

  /** Every step keeps the deletion invariant of every meeting, except exactly one that signs an unrecorded URL for it. */
  lemma {:induction false} NextKeepsStoreIff(s: State, step: Step, m: Id)
    requires RefsOk(s) && StoreOk(s, m)
    ensures StoreOk(Next(s, step), m) <==> !SignsUnrecorded(s, step, m)
  {
    if IsWorkerStep(step) {
      WorkersKeepStoreIff(s, step, m);
    } else if IsPurgerStep(step) {
      PurgersKeepStore(s, step, m);
    } else if IsDeletionStep(step) {
      DeletionsKeepStore(s, step, m);
    } else {
      OthersKeepStore(s, step, m);
    }
  }

  // ---- Whole runs ---------------------------------------------------------------------------

  /** No step of the run signs an unrecorded URL for `m`. */
  ghost predicate AllRecorded(s: State, steps: seq<Step>, m: Id)
    requires RefsOk(s)
    decreases |steps|
  {
    steps != [] ==> !SignsUnrecorded(s, steps[0], m) && AllRecorded(Next(s, steps[0]), steps[1..], m)
  }

  lemma {:induction false} RunsKeepStore(s: State, steps: seq<Step>, m: Id)
    requires RefsOk(s) && StoreOk(s, m) && AllRecorded(s, steps, m)
    ensures StoreOk(After(s, steps), m)
    decreases |steps|
  {
    if steps != [] {
      NextKeepsStoreIff(s, steps[0], m);
      RunsKeepStore(Next(s, steps[0]), steps[1..], m);
    }
  }

  /** A meeting that has been deleted: it existed, and its row is gone. */
  predicate Deleted(s: State, m: Id) { m in s.usedMeetings && m !in s.meetings }

  lemma {:induction false} DeletedStays(s: State, steps: seq<Step>, m: Id)
    requires RefsOk(s) && Deleted(s, m)
    ensures Deleted(After(s, steps), m)
    decreases |steps|
  {
    if steps != [] {
      DeletedStaysOnce(s, steps[0], m);
      DeletedStays(Next(s, steps[0]), steps[1..], m);
    }
  }

  lemma {:induction false} WorkersKeepDeleted(s: State, step: Step, m: Id)
    requires RefsOk(s) && Deleted(s, m) && IsWorkerStep(step)
    ensures Deleted(Next(s, step), m)
  {
    match step
    case DoFail(who, proof, code, detail, retryAt, reread) => FailIsQuiet(s, who, proof, code, detail, retryAt, reread, m);
    case DoComplete(who, req, transcript, speakers) => CompleteIsQuiet(s, who, req, transcript, speakers, m);
    case DoResultInit(who, proof, declared) =>
      if ResultInit(s, who, proof, declared).1.Done? { ResultInitEffect(s, who, proof, declared); }
    case _ =>
  }

  lemma {:induction false} DeletedStaysOnce(s: State, step: Step, m: Id)
    requires RefsOk(s) && Deleted(s, m)
    ensures Deleted(Next(s, step), m)
  {
    if IsWorkerStep(step) { WorkersKeepDeleted(s, step, m); }
  }

  /** No orphan audio, from the first meeting on: nothing is ever under the prefix of a deleted meeting. */
  lemma {:induction false} NoOrphanAudio(putTtl: nat, steps: seq<Step>, m: Id)
    requires AllRecorded(Empty(putTtl), steps, m) && Deleted(After(Empty(putTtl), steps), m)
    ensures forall k | k in After(Empty(putTtl), steps).objects :: k.meeting != m
    ensures forall x | x in After(Empty(putTtl), steps).urls && x.key.meeting == m :: x.expiresAt <= After(Empty(putTtl), steps).now
  {
    RunsKeepStore(Empty(putTtl), steps, m);
  }
}
