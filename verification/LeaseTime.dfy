/**
 A lease lasts as long as was promised: the expiry that a claim or a heartbeat gives is the one on
 the row, and until then the holder is never refused for time and the sweep does not touch the job.
 */
module LeaseTime {
  import opened Common
  import opened JobRows
  import opened JobQueue
  import opened QueueInvariant
  import opened QueueProgress
  import opened PipelineState
  import opened PipelineInvariant
  import opened PipelineProgress
  import opened RunInvariant
  import opened PipelineTraces
  import opened LeaseSafety
  import opened Replays
  import opened LaterReplays
  import opened Tenants
  import U = UploadRows

  // ---- One heartbeat --------------------------------------------------------------------------------

  /** A heartbeat is accepted exactly under a proven lease; it moves the expiry of that row to the one it answers, and nothing else. */
  lemma HeartbeatRenews(s: State, who: Identity, proof: Proof, leaseMs: nat)
    requires RefsOk(s)
    ensures Heartbeat(s, who, proof, leaseMs).1.Done? <==> LeaseProven(s, who, proof)
    ensures var (t, reply) := Heartbeat(s, who, proof, leaseMs);
            if reply.Refused? then t == s
            else
              var id := proof.job;
              && id in s.queue.jobs && id.run in s.queue.runs && s.queue.runs[id.run].meeting in s.meetings
              && t == s.(queue := s.queue.(jobs := s.queue.jobs[id := s.queue.jobs[id].(leaseExpiresAt := Some(s.now + leaseMs))]))
              && reply.value.0 == s.now + leaseMs
              && (reply.value.1 <==> s.meetings[s.queue.runs[id.run].meeting].cancelled)
  {
  }

  // ---- What becomes of an expiry -----------------------------------------------------------------------

  /** The same attempt is still under its lease, with the same expiry. */
  predicate SameExpiry(q: Queue, t: Queue, id: JobId)
  {
    id in q.jobs && HoldsLease(q.jobs[id]) && id in t.jobs && HoldsLease(t.jobs[id]) ==> t.jobs[id].leaseExpiresAt == q.jobs[id].leaseExpiresAt
  }

  lemma ClaimKeepsExpiry(s: State, who: Identity, job: JobId, secret: string, leaseMs: nat, id: JobId)
    requires RefsOk(s)
    ensures SameExpiry(s.queue, Claim(s, who, job, secret, leaseMs).queue, id)
  {
    hide Claim, RefsOk;
    ClaimTakes(s, who, job, secret, leaseMs);
  }

  lemma ResultInitKeepsExpiry(s: State, who: Identity, proof: Proof, declared: U.Digested, id: JobId)
    requires RefsOk(s)
    ensures SameExpiry(s.queue, ResultInit(s, who, proof, declared).0.queue, id)
  {
    hide Authorize, ResultInit, Heartbeat;
    if Authorize(s, who, proof, false).Done? {
      LeaseStepsPut(s, who, proof, 0, declared);
    } else {
      LeaseStepsRefused(s, who, proof, 0, declared);
    }
  }

  lemma FailKeepsExpiry(s: State, who: Identity, proof: Proof, code: string, detail: Option<string>, retryAt: int,
                        reread: Option<Document>, id: JobId)
    requires RefsOk(s)
    ensures SameExpiry(s.queue, Fail(s, who, proof, code, detail, retryAt, reread).0.queue, id)
  {
    hide Fail;
    FailWrites(s, who, proof, code, detail, retryAt, reread);
  }

  lemma CompleteKeepsExpiry(s: State, who: Identity, req: CompleteRequest, transcript: Document, speakers: Document, id: JobId)
    requires RefsOk(s)
    ensures SameExpiry(s.queue, Complete(s, who, req, transcript, speakers).0.queue, id)
  {
    hide Complete, CloseJob, Close, RefsOk, ReopensFailedJob, ClosesNothing;
    CompleteWrites(s, who, req, transcript, speakers);
    var u := U.UploadId(req.proof.job, req.proof.attempt);
    RefsAreLinked(s);
    if u in s.uploads && u.job in s.queue.jobs {
      CloseJobWrites(s, u, req, transcript, speakers);
      CloseLeavesRow(s.queue, u, ResultOf(req, transcript, speakers), HasTranscript(s, u.job.run), s.now);
      OnlyClosesOwn(s.queue, u, ResultOf(req, transcript, speakers), HasTranscript(s, u.job.run), s.now, id);
    }
  }

  lemma SweepAndCancelKeepExpiry(q: Queue, now: int, m: Id, id: JobId)
    requires Linked(q)
    ensures SameExpiry(q, SweepAll(q, now), id) && SameExpiry(q, CancelAll(q, m), id)
  {
  }

  lemma WorkersKeepExpiry(s: State, step: Step, id: JobId)
    requires RefsOk(s) && IsWorkerStep(step) && !step.DoHeartbeat?
    ensures SameExpiry(s.queue, Next(s, step).queue, id)
  {
    hide RefsOk, SameExpiry, Claim, ResultInit, Fail, Complete;
    match step
    case DoClaim(who, job, secret, leaseMs) => ClaimKeepsExpiry(s, who, job, secret, leaseMs, id);
    case DoResultInit(who, proof, declared) => ResultInitKeepsExpiry(s, who, proof, declared, id);
    case DoFail(who, proof, code, detail, retryAt, reread) => FailKeepsExpiry(s, who, proof, code, detail, retryAt, reread, id);
    case DoComplete(who, req, transcript, speakers) => CompleteKeepsExpiry(s, who, req, transcript, speakers, id);
  }

  /** Only a heartbeat moves the expiry of a lease that goes on. */
  lemma OnlyHeartbeatsRenew(s: State, step: Step, id: JobId)
    requires RefsOk(s) && !step.DoHeartbeat?
    ensures SameExpiry(s.queue, Next(s, step).queue, id)
  {
    if IsWorkerStep(step) {
      WorkersKeepExpiry(s, step, id);
    } else if step.DoSweep? || step.DoCancel? {
      hide RefsOk, SameExpiry, SweepAll, CancelAll;
      RefsAreLinked(s);
      SweepAndCancelKeepExpiry(s.queue, s.now, if step.DoCancel? then step.m else 0, id);
      SameRowSameExpiry(s.queue, s.queue, id);
    } else if id in s.queue.jobs {
      hide RefsOk, Next;
      JobsMoveOnlyByRight(s, step, id);
    }
  }

  lemma SameRowSameExpiry(q: Queue, t: Queue, id: JobId)
    requires SameRow(q, t, id)
    ensures SameExpiry(q, t, id)
  {
  }

  // ---- A lease that was granted ---------------------------------------------------------------------------

  /** The worker holds this attempt's lease, at least until then. */
  predicate HeldUntil(s: State, who: Identity, proof: Proof, until: int)
    requires RefsOk(s)
  {
    && proof.job in s.queue.jobs
    && var j := s.queue.jobs[proof.job];
       && HoldsLease(j) && j.attempts == proof.attempt && j.credential == Some(who.credential)
       && j.tokenHash == Some(TokenHash(proof.secret, proof.job, proof.attempt, who.credential))
       && j.leaseExpiresAt.Some? && until <= j.leaseExpiresAt.value
       && (who.tenant.Some? ==> s.meetings[MeetingOfJob(s, proof.job)].tenant == who.tenant.value)
  }

  /** Heartbeats on this job renew it for at least that long; in the service the time is one setting for all. */
  predicate NoShorter(steps: seq<Step>, id: JobId, leaseMs: nat)
  {
    forall i | 0 <= i < |steps| && steps[i].DoHeartbeat? && steps[i].proof.job == id :: leaseMs <= steps[i].leaseMs
  }

  lemma RenewalReaches(s: State, who: Identity, proof: Proof, leaseMs: nat, id: JobId, until: int)
    requires RefsOk(s) && id in s.queue.jobs && s.queue.jobs[id].leaseExpiresAt.Some? && until <= s.queue.jobs[id].leaseExpiresAt.value
    requires proof.job == id ==> until <= s.now + leaseMs
    ensures var t := Heartbeat(s, who, proof, leaseMs).0;
            id in t.queue.jobs && t.queue.jobs[id].leaseExpiresAt.Some? && until <= t.queue.jobs[id].leaseExpiresAt.value
  {
    hide Heartbeat, RefsOk;
    HeartbeatRenews(s, who, proof, leaseMs);
  }

  /** Before the promised time every step leaves the lease held, or ends the attempt. */
  lemma HeldOrLost(s: State, step: Step, who: Identity, proof: Proof, until: int)
    requires RefsOk(s) && HeldUntil(s, who, proof, until) && s.now < until
    requires step.DoHeartbeat? && step.proof.job == proof.job ==> until <= s.now + step.leaseMs
    ensures HeldUntil(Next(s, step), who, proof, until) || Lost(Next(s, step), proof)
  {
    hide RefsOk, RowsKept, QueueNext;
    var t := Next(s, step);
    assert LeaseProven(s, who, proof);
    LeaseEndsInLost(s, step, who, proof);
    if !Lost(t, proof) {
      NextProgress(s, step);
      SameMeeting(s, t, proof.job);
      TenantStays(s, step, proof.job);
      if step.DoHeartbeat? {
        RenewalReaches(s, step.who, step.proof, step.leaseMs, proof.job, until);
      } else {
        OnlyHeartbeatsRenew(s, step, proof.job);
      }
    }
  }

  lemma TenantStays(s: State, step: Step, id: JobId)
    requires RefsOk(s) && id in s.queue.jobs && id in Next(s, step).queue.jobs
    ensures Next(s, step).meetings[MeetingOfJob(Next(s, step), id)].tenant == s.meetings[MeetingOfJob(s, id)].tenant
  {
    hide Next, RefsOk;
    NextKeepsTheRows(s, step);
    NextProgress(s, step);
    SameMeeting(s, Next(s, step), id);
  }

  lemma {:induction false} TimeGoesOn(s: State, steps: seq<Step>)
    requires RefsOk(s)
    ensures s.now <= After(s, steps).now
    decreases |steps|
  {
    if steps != [] {
      hide Next, RefsOk, QueueNext, IdsKept;
      NextProgress(s, steps[0]);
      TimeGoesOn(Next(s, steps[0]), steps[1..]);
    }
  }

  lemma {:induction false} HeldOrLostForever(s: State, steps: seq<Step>, who: Identity, proof: Proof, until: int, leaseMs: nat)
    requires RefsOk(s) && (HeldUntil(s, who, proof, until) || Lost(s, proof)) && until <= s.now + leaseMs
    requires NoShorter(steps, proof.job, leaseMs) && After(s, steps).now < until
    ensures HeldUntil(After(s, steps), who, proof, until) || Lost(After(s, steps), proof)
    decreases |steps|
  {
    if Lost(s, proof) {
      LostForever(s, steps, proof);
    } else if steps != [] {
      hide Next, RefsOk, HeldUntil, Lost, NoShorter, QueueNext, IdsKept;
      TimeGoesOn(s, steps);
      FirstIsNoShorter(steps, proof.job, leaseMs);
      NextProgress(s, steps[0]);
      HeldOrLost(s, steps[0], who, proof, until);
      HeldOrLostForever(Next(s, steps[0]), steps[1..], who, proof, until, leaseMs);
    }
  }

  lemma FirstIsNoShorter(steps: seq<Step>, id: JobId, leaseMs: nat)
    requires steps != [] && NoShorter(steps, id, leaseMs)
    ensures steps[0].DoHeartbeat? && steps[0].proof.job == id ==> leaseMs <= steps[0].leaseMs
    ensures NoShorter(steps[1..], id, leaseMs)
  {
  }

  /** While it is held and its time has not come, a lease is good and the sweep leaves its job alone. */
  lemma HeldIsGood(t: State, who: Identity, proof: Proof, until: int)
    requires RefsOk(t) && HeldUntil(t, who, proof, until) && t.now < until
    ensures Authorize(t, who, proof, false).Done? && !Lost(t, proof)
    ensures Next(t, DoSweep).queue.jobs[proof.job] == t.queue.jobs[proof.job]
  {
  }

  lemma LostIsRefused(t: State, who: Identity, proof: Proof, allowTerminal: bool)
    requires RefsOk(t) && Lost(t, proof)
    ensures Authorize(t, who, proof, false).Refused? && Authorize(t, who, proof, allowTerminal) != Refused(LeaseExpired)
  {
    assert proof.job in t.queue.jobs ==> proof.job.run in t.queue.runs;
  }

  /**
   What a holder can count on until the time it was told: it is never refused for that time, it is
   let through as long as its attempt has not ended, and meanwhile the sweep does not touch the job.
   */
  ghost predicate Dependable(t: State, who: Identity, proof: Proof)
    requires RefsOk(t)
  {
    && (forall allowTerminal :: Authorize(t, who, proof, allowTerminal) != Refused(LeaseExpired))
    && (Authorize(t, who, proof, false).Done? <==> !Lost(t, proof))
    && (!Lost(t, proof) ==>
          && proof.job in t.queue.jobs && proof.job in Next(t, DoSweep).queue.jobs
          && Next(t, DoSweep).queue.jobs[proof.job] == t.queue.jobs[proof.job])
  }

  lemma HeldIsDependable(t: State, who: Identity, proof: Proof, until: int)
    requires RefsOk(t) && (HeldUntil(t, who, proof, until) || Lost(t, proof)) && t.now < until
    ensures Dependable(t, who, proof)
  {
    hide RefsOk, HeldUntil, Lost, Authorize;
    if Lost(t, proof) {
      forall allowTerminal ensures Authorize(t, who, proof, allowTerminal) != Refused(LeaseExpired) { LostIsRefused(t, who, proof, allowTerminal); }
      LostIsRefused(t, who, proof, false);
    } else {
      HeldIsGood(t, who, proof, until);
      HeldHasJob(t, who, proof, until);
      LetThroughAnyway(t, who, proof);
    }
  }

  lemma HeldHasJob(t: State, who: Identity, proof: Proof, until: int)
    requires RefsOk(t) && HeldUntil(t, who, proof, until)
    ensures proof.job in t.queue.jobs && proof.job in Next(t, DoSweep).queue.jobs
  {
  }

  lemma LetThroughAnyway(t: State, who: Identity, proof: Proof)
    requires RefsOk(t) && Authorize(t, who, proof, false).Done?
    ensures forall allowTerminal :: Authorize(t, who, proof, allowTerminal).Done?
  {
  }

  /** After an accepted heartbeat, whatever anyone does, its answer holds until the time it names. */
  lemma RenewedLeaseLasts(s: State, who: Identity, proof: Proof, leaseMs: nat, steps: seq<Step>)
    requires RefsOk(s) && LeaseProven(s, who, proof) && NoShorter(steps, proof.job, leaseMs)
    ensures var t := After(Next(s, DoHeartbeat(who, proof, leaseMs)), steps);
            t.now < Heartbeat(s, who, proof, leaseMs).1.value.0 ==> Dependable(t, who, proof)
  {
    hide After, NoShorter, Dependable, Heartbeat;
    HeartbeatRenews(s, who, proof, leaseMs);
    var p := Next(s, DoHeartbeat(who, proof, leaseMs));
    assert HeldUntil(p, who, proof, s.now + leaseMs);
    if After(p, steps).now < s.now + leaseMs {
      HeldOrLostForever(p, steps, who, proof, s.now + leaseMs, leaseMs);
      HeldIsDependable(After(p, steps), who, proof, s.now + leaseMs);
    }
  }

  /** So does the lease that a claim hands out. */
  lemma ClaimedLeaseLasts(s: State, who: Identity, id: JobId, secret: string, leaseMs: nat, steps: seq<Step>)
    requires RefsOk(s) && Takable(s, who, id) && NoShorter(steps, id, leaseMs)
    ensures var t := After(Next(s, DoClaim(who, id, secret, leaseMs)), steps);
            t.now < s.now + leaseMs ==> Dependable(t, who, Proof(id, s.queue.jobs[id].attempts + 1, secret))
  {
    hide After, NoShorter, Dependable, Claim;
    var proof := Proof(id, s.queue.jobs[id].attempts + 1, secret);
    ClaimTakes(s, who, id, secret, leaseMs);
    var p := Next(s, DoClaim(who, id, secret, leaseMs));
    ClaimIsHeld(s, p, who, id, secret, leaseMs);
    if After(p, steps).now < s.now + leaseMs {
      HeldOrLostForever(p, steps, who, proof, s.now + leaseMs, leaseMs);
      HeldIsDependable(After(p, steps), who, proof, s.now + leaseMs);
    }
  }

  lemma ClaimIsHeld(s: State, p: State, who: Identity, id: JobId, secret: string, leaseMs: nat)
    requires RefsOk(s) && Takable(s, who, id) && p == Claim(s, who, id, secret, leaseMs)
    ensures HeldUntil(p, who, Proof(id, s.queue.jobs[id].attempts + 1, secret), s.now + leaseMs)
  {
    hide Claim, RefsOk;
    ClaimTakes(s, who, id, secret, leaseMs);
    assert MeetingOfJob(p, id) == MeetingOfJob(s, id);
  }

  // ---- What can end a lease early -------------------------------------------------------------------------

  /** Runs go only with their meeting. */
  lemma RunsStay(s: State, step: Step, r: Id)
    requires RefsOk(s) && r in s.queue.runs && r !in Next(s, step).queue.runs
    ensures step.DoDeleteRow? && s.queue.runs[r].meeting == step.p.meeting
  {
    hide RefsOk, OnlyRun;
    if IsWorkerStep(step) {
      WorkersKeepRuns(s, step);
    } else if IsDeletionStep(step) {
      hide Drop;
    } else {
      hide ActiveRun;
    }
  }

  lemma WorkersKeepRuns(s: State, step: Step)
    requires RefsOk(s) && IsWorkerStep(step)
    ensures Next(s, step).queue.runs.Keys == s.queue.runs.Keys
  {
    hide RefsOk, Claim, Heartbeat, ResultInit, Fail, Complete, Authorize;
    var id := JobOf(step);
    if id in s.queue.jobs {
      WorkerOnlyIn(s, step);
    } else {
      StrangersChangeNothing(s, step);
    }
  }

  lemma RowStillHeld(t: State, step: Step, id: JobId)
    requires RefsOk(t) && id in t.queue.jobs && HoldsLease(t.queue.jobs[id]) && (step.DoHeartbeat? || step.DoResultInit?)
    ensures var p := Next(t, step);
            id in p.queue.jobs && HoldsLease(p.queue.jobs[id]) && p.queue.jobs[id].attempts == t.queue.jobs[id].attempts
  {
    hide Heartbeat, ResultInit, Authorize;
    if Authorize(t, step.who, step.proof, false).Done? {
      LeaseStepsPut(t, step.who, step.proof, if step.DoHeartbeat? then step.leaseMs else 0,
                    if step.DoHeartbeat? then U.Digested(0, "") else step.declared);
    } else {
      LeaseStepsRefused(t, step.who, step.proof, if step.DoHeartbeat? then step.leaseMs else 0,
                        if step.DoHeartbeat? then U.Digested(0, "") else step.declared);
    }
  }

  lemma EndedRowMoved(t: State, step: Step, who: Identity, proof: Proof, until: int)
    requires RefsOk(t) && HeldUntil(t, who, proof, until) && t.now < until && Lost(Next(t, step), proof) && proof.job.run in Next(t, step).queue.runs
    ensures MayMove(t, step, proof.job) && (step.DoFail? || step.DoComplete? || step.DoCancel?)
  {
    hide RefsOk, Next;
    if !MayMove(t, step, proof.job) { JobsMoveOnlyByRight(t, step, proof.job); }
    if step.DoHeartbeat? || step.DoResultInit? { RowStillHeld(t, step, proof.job); }
  }

  /** Before its time a lease ends only by its holder's own `fail` or `complete`, or when its meeting is cancelled or deleted. */
  lemma OnlyTheHolderEndsIt(t: State, step: Step, who: Identity, proof: Proof, until: int)
    requires RefsOk(t) && HeldUntil(t, who, proof, until) && t.now < until && Lost(Next(t, step), proof)
    ensures || (step.DoFail? && step.proof.job == proof.job && step.proof.secret == proof.secret && step.who.credential == who.credential)
            || (step.DoComplete? && step.req.proof.job == proof.job && step.req.proof.secret == proof.secret && step.who.credential == who.credential)
            || (step.DoCancel? && step.m == MeetingOfJob(t, proof.job))
            || (step.DoDeleteRow? && step.p.meeting == MeetingOfJob(t, proof.job))
  {
    hide RefsOk, Next;
    JobsRunIsThere(t, proof.job);
    if proof.job.run in Next(t, step).queue.runs {
      EndedRowMoved(t, step, who, proof, until);
    } else {
      RunsStay(t, step, proof.job.run);
    }
  }
}
