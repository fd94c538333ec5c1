/**
 How the queue moves between two states: attempts only grow, a settled job never moves
 again, outcomes and versions are written once, and every move costs a run some fuel.
 */
module QueueProgress {
  import opened Common
  import opened JobRows
  import opened JobQueue
  import opened QueueInvariant
  import U = UploadRows

  /** A move under a lease keeps the attempt, and the lease's token and holder while it is held. */
  predicate LeaseMove(j: Job, k: Job)
  {
    && HoldsLease(j) && k.attempts == j.attempts && k.maxAttempts == j.maxAttempts
    && (HoldsLease(k) ==> k.tokenHash == j.tokenHash && k.credential == j.credential)
    && (j.status == UploadingResult ==> k.status != Leased)
    && (k.status == Queued ==> j.attempts < j.maxAttempts)
    && (k.status == Succeeded || k.status == Failed ==> k.credential == j.credential)
  }

  predicate ClaimMove(j: Job, k: Job)
  {
    j.status == Queued && k.status == Leased && k.attempts == j.attempts + 1 && k.maxAttempts == j.maxAttempts
  }

  /** A row stays, is claimed, is moved under its lease or by its expiry, or is cancelled. */
  predicate RowNext(j: Job, k: Job)
  {
    || k == j
    || ClaimMove(j, k)
    || LeaseMove(j, k)
    || (Unsettled(j) && k == MarkedCancelled(j))
  }

  ghost predicate QueueNext(q: Queue, t: Queue)
  {
    && (forall id {:trigger t.jobs[id]} | id in q.jobs && id in t.jobs :: RowNext(q.jobs[id], t.jobs[id]))
    && (forall id {:trigger id in t.jobs} | id in t.jobs && id !in q.jobs :: t.jobs[id].status == Queued && t.jobs[id].attempts == 0
          && t.jobs[id].maxAttempts == DEFAULT_MAX_ATTEMPTS)
    && (forall id {:trigger id in t.jobs} | id in q.jobs && id.run in t.runs :: id in t.jobs)
    && (forall r {:trigger t.runs[r]} | r in q.runs && r in t.runs ::
          t.runs[r].meeting == q.runs[r].meeting && t.runs[r].diarize == q.runs[r].diarize
          && (q.runs[r].outcome.Some? ==> t.runs[r].outcome == q.runs[r].outcome))
    && (forall r {:trigger r in t.versions} | r in q.versions && r in t.runs :: r in t.versions && t.versions[r] == q.versions[r])
  }

  lemma StaysNext(q: Queue)
    ensures QueueNext(q, q)
  {
  }

  lemma PutNext(q: Queue, id: JobId, k: Job)
    requires Linked(q) && id in q.jobs && RowNext(q.jobs[id], k)
    ensures QueueNext(q, PutJob(q, id, k))
  {
  }

  lemma SweepNext(q: Queue, now: int)
    requires Linked(q)
    ensures QueueNext(q, SweepAll(q, now))
  {
  }

  lemma CancelNext(q: Queue, m: Id)
    requires Linked(q)
    ensures QueueNext(q, CancelAll(q, m))
  {
  }

  lemma DropNext(q: Queue, m: Id)
    requires Linked(q)
    ensures QueueNext(q, Drop(q, m))
  {
  }

  lemma OpenRunNext(q: Queue, m: Id, r: Id, diarize: Option<bool>, now: int)
    requires Linked(q) && r !in q.runs
    ensures QueueNext(q, OpenRun(q, m, r, diarize, now))
  {
  }

  lemma EnqueueNext(q: Queue, r: Id, stage: Stage, now: int)
    requires Linked(q) && r in q.runs
    ensures QueueNext(q, Enqueue(q, r, stage, now))
  {
  }

  lemma ResolveNext(q: Queue, id: JobId, k: Job, code: string, transcript: Document, usable: bool)
    requires Linked(q) && id in q.jobs && RowNext(q.jobs[id], k)
    ensures QueueNext(q, Resolve(PutJob(q, id, k), id, code, transcript, usable))
  {
  }

  lemma AdvanceNext(q: Queue, t: Queue, id: JobId, next: Stage, now: int)
    requires Linked(q) && id in q.jobs && id.stage != next
    requires t.runs == q.runs && t.versions == q.versions
    requires t.jobs == Enqueue(PutJob(q, id, MarkedSucceeded(q.jobs[id])), id.run, next, now).jobs
    ensures QueueNext(q, t)
  {
  }

  lemma IngestNext(q: Queue, id: JobId, k: Job, how: DiarizationOutcome, transcript: Document, usable: bool)
    requires Linked(q) && id in q.jobs && RowNext(q.jobs[id], k)
    ensures QueueNext(q, Ingest(PutJob(q, id, k), id.run, how, transcript, usable))
  {
  }

  lemma {:induction false} CloseNext(q: Queue, u: U.UploadId, result: Result, usable: bool, now: int)
    requires Linked(q) && u.job in q.jobs
    ensures QueueNext(q, Close(q, u, result, usable, now))
  {
    var id := u.job;
    var k := MarkedSucceeded(q.jobs[id]);
    match id.stage
    case Normalize => AdvanceNext(q, Close(q, u, result, usable, now), id, Transcribe, now);
    case Transcribe =>
      if WantsDiarization(q, q.runs[id.run].meeting) {
        AdvanceNext(q, Close(q, u, result, usable, now), id, Diarize, now);
      } else {
        IngestNext(q, id, k, NotAsked, result.transcript, usable);
      }
    case Diarize => IngestNext(q, id, k, Aligned(result.speakers), result.transcript, usable);
  }
}
