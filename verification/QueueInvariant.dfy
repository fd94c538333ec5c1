/**
 What every transaction keeps in the queue: the shape of each run (which stages exist,
 which one is open, what a finished run's outcome says), the tables' CHECKs and indexes.
 */
module QueueInvariant {
  import opened Common
  import opened JobRows
  import opened JobQueue
  import U = UploadRows

  /** One run with everything that hangs from it. */
  datatype View = View(run: Run, norm: Option<Job>, trans: Option<Job>, diar: Option<Job>, version: Option<Version>)

  function JobAt(q: Queue, r: Id, stage: Stage): Option<Job>
  {
    if JobId(r, stage) in q.jobs then Some(q.jobs[JobId(r, stage)]) else None
  }

  function ViewOf(q: Queue, r: Id): View
    requires r in q.runs
  {
    View(q.runs[r], JobAt(q, r, Normalize), JobAt(q, r, Transcribe), JobAt(q, r, Diarize),
         if r in q.versions then Some(q.versions[r]) else None)
  }

  predicate IsDone(j: Option<Job>) { j.Some? && j.value.status == Succeeded }

  /** The stage a run is waiting on: queued, under a lease, or abandoned. */
  predicate IsOpen(j: Option<Job>) { j.Some? && (Unsettled(j.value) || j.value.status == Abandoned) }

  /** Exactly one job is not succeeded; every earlier stage has succeeded and no later one exists. */
  predicate Waiting(v: View)
  {
    || (IsOpen(v.norm) && v.trans.None? && v.diar.None?)
    || (IsDone(v.norm) && IsOpen(v.trans) && v.diar.None?)
    || (IsDone(v.norm) && IsDone(v.trans) && IsOpen(v.diar))
  }

  /** A stage has a job only once every earlier one has succeeded. */
  predicate Ordered(v: View)
  {
    v.norm.Some? && (v.trans.Some? ==> IsDone(v.norm)) && (v.diar.Some? ==> IsDone(v.trans))
  }

  predicate Settled(j: Option<Job>) { j.Some? ==> !Unsettled(j.value) }

  /** What a finished run's outcome promises about its version and its diarization. */
  predicate OutcomeTrue(v: View, o: Outcome)
  {
    match o
    case RunSucceeded =>
      && v.version.Some? && IsDone(v.trans)
      && (v.diar.Some? ==> IsDone(v.diar) && v.version.value.speakers.Some?)
      && (v.diar.None? ==> v.version.value.speakers.None?)
    case RunPartial =>
      && v.version.Some? && v.version.value.speakers.None?
      && v.diar.Some? && v.diar.value.status == Failed
    case RunFailed => v.version.None?
    case RunCancelled => v.version.None?
  }

  predicate ShapeOk(v: View)
  {
    && Ordered(v)
    && match v.run.outcome
       case None => v.version.None? && Waiting(v)
       case Some(o) => Settled(v.norm) && Settled(v.trans) && Settled(v.diar) && OutcomeTrue(v, o)
  }

  predicate RunOk(q: Queue, r: Id) { r in q.runs ==> ShapeOk(ViewOf(q, r)) }

  predicate ShapesOk(q: Queue)
  {
    forall r {:trigger ViewOf(q, r)} | r in q.runs :: ShapeOk(ViewOf(q, r))
  }

  predicate RowsOk(q: Queue) { forall j {:trigger RowOk(q.jobs[j])} | j in q.jobs :: RowOk(q.jobs[j]) }

  /** A derived medium belongs to a closed normalize, to its last attempt, and is the live one. */
  predicate MediumOk(q: Queue, u: U.UploadId)
    requires u in q.media
  {
    u.job in q.jobs && u.job.stage == Normalize && q.jobs[u.job].status == Succeeded
    && u.attempt == q.jobs[u.job].attempts && q.media[u].live
  }

  /** Every closed normalize has its medium. */
  predicate MediumKept(q: Queue, j: JobId)
    requires j in q.jobs
  {
    j.stage == Normalize && q.jobs[j].status == Succeeded ==> U.UploadId(j, q.jobs[j].attempts) in q.media
  }

  predicate MediaOk(q: Queue)
  {
    && (forall u | u in q.media :: MediumOk(q, u))
    && (forall j | j in q.jobs :: MediumKept(q, j))
  }

  /** No derived medium belongs to a job that is queued or leased. */
  predicate MediaSettled(q: Queue) { forall u | u in q.media :: u.job in q.jobs && !Unsettled(q.jobs[u.job]) }

  ghost predicate QueueOk(q: Queue)
  {
    Linked(q) && RowsOk(q) && ShapesOk(q) && OneActiveRun(q) && MediaOk(q)
  }

  // ---- Shapes --------------------------------------------------------------------------

  /** The two queues agree on everything but run `r`. */
  ghost predicate AgreeOff(r: Id, q: Queue, t: Queue)
  {
    && (forall p | p in t.runs && p != r :: p in q.runs && t.runs[p] == q.runs[p])
    && (forall p, g: Stage | p != r :: JobAt(t, p, g) == JobAt(q, p, g))
    && (forall p | p != r :: p in t.versions <==> p in q.versions)
    && (forall p | p != r && p in t.versions :: t.versions[p] == q.versions[p])
  }

  lemma {:induction false} OneRunChanges(r: Id, q: Queue, t: Queue)
    requires ShapesOk(q) && AgreeOff(r, q, t)
    requires r in t.runs ==> ShapeOk(ViewOf(t, r))
    ensures ShapesOk(t)
  {
    forall p | p in t.runs ensures ShapeOk(ViewOf(t, p)) {
      if p != r { assert ViewOf(t, p) == ViewOf(q, p); }
    }
  }

  /** A job that is queued or leased is the open stage of an unfinished run. */
  lemma {:induction false} UnsettledIsOpen(q: Queue, id: JobId)
    requires Linked(q) && RunOk(q, id.run) && id in q.jobs && Unsettled(q.jobs[id])
    ensures id.run in q.runs && q.runs[id.run].outcome.None? && id.run !in q.versions
    ensures forall g: Stage | g != id.stage && JobId(id.run, g) in q.jobs :: q.jobs[JobId(id.run, g)].status == Succeeded
    ensures id.stage == Normalize ==> JobId(id.run, Transcribe) !in q.jobs && JobId(id.run, Diarize) !in q.jobs
    ensures id.stage == Transcribe ==> JobId(id.run, Normalize) in q.jobs && JobId(id.run, Diarize) !in q.jobs
    ensures id.stage == Diarize ==> JobId(id.run, Normalize) in q.jobs && JobId(id.run, Transcribe) in q.jobs
  {
    var v := ViewOf(q, id.run);
    assert ShapeOk(v);
    match id.stage { case Normalize => case Transcribe => case Diarize => }
  }

  /** The open stage may be claimed, renewed, moved to uploading, requeued or abandoned. */
  predicate StillOpen(j: Job) { Unsettled(j) || j.status == Abandoned }

  lemma {:induction false} OpenKeepsShapes(q: Queue, id: JobId, j: Job)
    requires Linked(q) && ShapesOk(q) && id in q.jobs && Unsettled(q.jobs[id]) && StillOpen(j)
    ensures ShapesOk(PutJob(q, id, j))
  {
    UnsettledIsOpen(q, id);
    assert ShapeOk(ViewOf(q, id.run));
    OneRunChanges(id.run, q, PutJob(q, id, j));
  }

  lemma OpenKeepsMedia(q: Queue, id: JobId, j: Job)
    requires Linked(q) && MediaOk(q) && id in q.jobs && q.jobs[id].status != Succeeded && j.status != Succeeded
    ensures MediaOk(PutJob(q, id, j))
  {
  }

  lemma {:induction false} SameRunsOneActive(q: Queue, t: Queue)
    requires OneActiveRun(q) && t.runs == q.runs
    ensures OneActiveRun(t)
  {
    assert forall m, r :: Active(t, m, r) <==> Active(q, m, r);
  }

  lemma FewerActive(q: Queue, t: Queue)
    requires OneActiveRun(q)
    requires forall m, r :: Active(t, m, r) ==> Active(q, m, r)
    ensures OneActiveRun(t)
  {
  }

  lemma {:induction false} OpenStaysOpen(q: Queue, id: JobId, j: Job)
    requires QueueOk(q) && id in q.jobs && Unsettled(q.jobs[id]) && StillOpen(j) && RowOk(j)
    ensures QueueOk(PutJob(q, id, j))
  {
    var t := PutJob(q, id, j);
    assert ShapesOk(t) by { OpenKeepsShapes(q, id, j); }
    assert MediaOk(t) by { OpenKeepsMedia(q, id, j); }
    assert OneActiveRun(t) by { SameRunsOneActive(q, t); }
    assert RowsOk(t);
  }

  /** `t` is `q` with the settled job `j` of run `r` written, the run finished and a version perhaps added. */
  ghost predicate Finished(q: Queue, t: Queue, id: JobId, j: Job, o: Outcome, version: Option<Version>)
    requires id.run in q.runs
  {
    && t.runs == q.runs[id.run := q.runs[id.run].(outcome := Some(o))]
    && t.jobs == q.jobs[id := j]
    && t.media == q.media
    && t.versions == if version.Some? then q.versions[id.run := version.value] else q.versions
  }

  /** What an outcome must come with, given the last job's row and the version written beside it. */
  predicate Deserved(id: JobId, j: Job, o: Outcome, version: Option<Version>)
  {
    match o
    case RunSucceeded =>
      version.Some? && j.status == Succeeded
      && ((id.stage == Transcribe && version.value.speakers.None?) || (id.stage == Diarize && version.value.speakers.Some?))
    case RunPartial => version.Some? && version.value.speakers.None? && id.stage == Diarize && j.status == Failed
    case RunFailed => version.None?
    case RunCancelled => version.None?
  }

  lemma {:induction false} FinishedShape(q: Queue, t: Queue, id: JobId, j: Job, o: Outcome, version: Option<Version>)
    requires Linked(q) && RunOk(q, id.run) && id in q.jobs && Unsettled(q.jobs[id])
    requires !Unsettled(j) && Deserved(id, j, o, version) && Finished(q, t, id, j, o, version)
    ensures ShapeOk(ViewOf(t, id.run))
  {
    UnsettledIsOpen(q, id);
    assert ShapeOk(ViewOf(q, id.run));
  }

  lemma {:induction false} FinishedKeepsShapes(q: Queue, t: Queue, id: JobId, j: Job, o: Outcome, version: Option<Version>)
    requires Linked(q) && ShapesOk(q) && id in q.jobs && Unsettled(q.jobs[id])
    requires !Unsettled(j) && Deserved(id, j, o, version) && Finished(q, t, id, j, o, version)
    ensures ShapesOk(t)
  {
    FinishedShape(q, t, id, j, o, version);
    assert AgreeOff(id.run, q, t);
    OneRunChanges(id.run, q, t);
  }

  lemma FinishedKeepsMedia(q: Queue, t: Queue, id: JobId, j: Job)
    requires Linked(q) && MediaOk(q) && id in q.jobs && Unsettled(q.jobs[id])
    requires t.media == q.media && t.jobs == q.jobs[id := j]
    requires id.stage == Normalize ==> j.status != Succeeded
    ensures MediaOk(t)
  {
  }

  lemma {:induction false} FinishedOneActive(q: Queue, t: Queue, r: Id, o: Outcome)
    requires OneActiveRun(q) && r in q.runs && t.runs == q.runs[r := q.runs[r].(outcome := Some(o))]
    ensures OneActiveRun(t)
  {
    assert forall m, p :: Active(t, m, p) ==> Active(q, m, p);
  }

  lemma {:induction false} FinishedKeepsQueue(q: Queue, t: Queue, id: JobId, j: Job, o: Outcome, version: Option<Version>)
    requires QueueOk(q) && Linked(t) && id in q.jobs && Unsettled(q.jobs[id]) && RowOk(j)
    requires !Unsettled(j) && Deserved(id, j, o, version) && Finished(q, t, id, j, o, version)
    requires id.stage == Normalize ==> j.status != Succeeded
    ensures QueueOk(t)
  {
    FinishedKeepsShapes(q, t, id, j, o, version);
    FinishedKeepsMedia(q, t, id, j);
    FinishedOneActive(q, t, id.run, o);
    assert RowsOk(t);
  }

  lemma {:induction false} IngestFinishes(q: Queue, id: JobId, j: Job, how: DiarizationOutcome, transcript: Document)
    requires Linked(q) && RunOk(q, id.run) && id in q.jobs && Unsettled(q.jobs[id])
    ensures id.run in q.runs
    ensures Finished(q, Ingest(PutJob(q, id, j), id.run, how, transcript, true), id, j,
                     if how.GaveUp? then RunPartial else RunSucceeded,
                     Some(Version(transcript, if how.Aligned? then Some(how.speakers) else None)))
  {
    UnsettledIsOpen(q, id);
  }

  /** A terminal failure finishes the run, after ingesting the transcript when `diarize` gave up. */
  lemma {:induction false} ResolveKeepsQueue(q: Queue, id: JobId, j: Job, code: string, transcript: Document, usable: bool)
    requires QueueOk(q) && id in q.jobs && Unsettled(q.jobs[id]) && RowOk(j) && j.status == Failed
    ensures QueueOk(Resolve(PutJob(q, id, j), id, code, transcript, usable))
  {
    var t := Resolve(PutJob(q, id, j), id, code, transcript, usable);
    if id.stage == Diarize && usable {
      IngestFinishes(q, id, j, GaveUp(code), transcript);
      FinishedKeepsQueue(q, t, id, j, RunPartial, Some(Version(transcript, None)));
    } else {
      assert Finished(q, t, id, j, RunFailed, None) by { UnsettledIsOpen(q, id); }
      FinishedKeepsQueue(q, t, id, j, RunFailed, None);
    }
  }

  /** An ingesting close: `transcribe` without diarization, or `diarize`. */
  lemma {:induction false} IngestKeepsQueue(q: Queue, id: JobId, j: Job, how: DiarizationOutcome, transcript: Document, usable: bool)
    requires QueueOk(q) && id in q.jobs && Unsettled(q.jobs[id]) && RowOk(j) && j.status == Succeeded
    requires (id.stage == Transcribe && how.NotAsked?) || (id.stage == Diarize && how.Aligned?)
    ensures QueueOk(Ingest(PutJob(q, id, j), id.run, how, transcript, usable))
  {
    var t := Ingest(PutJob(q, id, j), id.run, how, transcript, usable);
    if usable {
      IngestFinishes(q, id, j, how, transcript);
      FinishedKeepsQueue(q, t, id, j, RunSucceeded, Some(Version(transcript, if how.Aligned? then Some(how.speakers) else None)));
    } else {
      assert Finished(q, t, id, j, RunFailed, None) by { UnsettledIsOpen(q, id); }
      FinishedKeepsQueue(q, t, id, j, RunFailed, None);
    }
  }

  /** A close that opens the next stage, with the normalised medium when there is one. */
  lemma {:induction false} AdvanceKeepsShapes(q: Queue, id: JobId, next: Stage, t: Queue, now: int)
    requires Linked(q) && ShapesOk(q) && id in q.jobs && Unsettled(q.jobs[id])
    requires (id.stage == Normalize && next == Transcribe) || (id.stage == Transcribe && next == Diarize)
    requires t.runs == q.runs && t.versions == q.versions
    requires t.jobs == q.jobs[id := MarkedSucceeded(q.jobs[id])][JobId(id.run, next) := Fresh(now)]
    requires HoldsLease(q.jobs[id])
    ensures ShapesOk(t)
  {
    UnsettledIsOpen(q, id);
    assert ShapeOk(ViewOf(q, id.run));
    OneRunChanges(id.run, q, t);
  }

  lemma CloseNormalizeKeepsMedia(q: Queue, u: U.UploadId, row: Media, t: Queue, now: int)
    requires Linked(q) && MediaOk(q) && u.job in q.jobs && u.job.stage == Normalize && HoldsLease(q.jobs[u.job])
    requires u.attempt == q.jobs[u.job].attempts && row.live
    requires t.jobs == q.jobs[u.job := MarkedSucceeded(q.jobs[u.job])][JobId(u.job.run, Transcribe) := Fresh(now)]
    requires t.media == q.media[u := row]
    ensures MediaOk(t)
  {
  }

  /** No other derived medium of the run exists while its `normalize` is open. */
  lemma {:induction false} NothingToSupersede(q: Queue, u: U.UploadId, row: Media)
    requires Linked(q) && MediaOk(q) && u.job in q.jobs && u.job.stage == Normalize && q.jobs[u.job].status != Succeeded
    ensures InsertMedia(q, u, row) == q.(media := q.media[u := row])
  {
    assert forall v | v in q.media :: v.job.run == u.job.run ==> v.job == u.job;
    var t := InsertMedia(q, u, row);
    assert u !in q.media;
    assert t.media == q.media[u := row];
  }

  lemma OpenedKeepsMedia(q: Queue, t: Queue, id: JobId, now: int)
    requires MediaOk(q) && id !in q.jobs && t.media == q.media && t.jobs == q.jobs[id := Fresh(now)]
    ensures MediaOk(t)
  {
  }

  lemma {:induction false} CloseNormalizeEffect(q: Queue, u: U.UploadId, result: Result, usable: bool, now: int)
    requires Linked(q) && ShapesOk(q) && MediaOk(q)
    requires u.job in q.jobs && HoldsLease(q.jobs[u.job]) && u.job.stage == Normalize
    ensures var t := Close(q, u, result, usable, now);
            && t.media == q.media[u := result.medium] && t.runs == q.runs && t.versions == q.versions
            && t.jobs == q.jobs[u.job := MarkedSucceeded(q.jobs[u.job])][JobId(u.job.run, Transcribe) := Fresh(now)]
  {
    UnsettledIsOpen(q, u.job);
    NothingToSupersede(q, u, result.medium);
  }

  lemma {:induction false} CloseNormalizeKeepsQueue(q: Queue, u: U.UploadId, result: Result, usable: bool, now: int)
    requires QueueOk(q) && u.job in q.jobs && HoldsLease(q.jobs[u.job]) && u.attempt == q.jobs[u.job].attempts
    requires result.medium.live && u.job.stage == Normalize
    ensures QueueOk(Close(q, u, result, usable, now))
  {
    var id := u.job;
    var t := Close(q, u, result, usable, now);
    CloseNormalizeEffect(q, u, result, usable, now);
    AdvanceKeepsShapes(q, id, Transcribe, t, now);
    CloseNormalizeKeepsMedia(q, u, result.medium, t, now);
    SameRunsOneActive(q, t);
    AdvanceKeepsRows(q, t, id, Transcribe, now);
  }

  lemma {:induction false} AdvanceEffect(q: Queue, id: JobId, t: Queue, now: int)
    requires Linked(q) && ShapesOk(q) && id in q.jobs && Unsettled(q.jobs[id]) && id.stage == Transcribe
    requires t == Enqueue(PutJob(q, id, MarkedSucceeded(q.jobs[id])), id.run, Diarize, now)
    ensures t.runs == q.runs && t.versions == q.versions && t.media == q.media
    ensures JobId(id.run, Diarize) !in q.jobs
    ensures t.jobs == q.jobs[id := MarkedSucceeded(q.jobs[id])][JobId(id.run, Diarize) := Fresh(now)]
  {
    UnsettledIsOpen(q, id);
  }

  lemma {:induction false} AdvanceKeepsMedia(q: Queue, id: JobId, t: Queue, now: int)
    requires Linked(q) && MediaOk(q) && id in q.jobs && Unsettled(q.jobs[id]) && id.stage == Transcribe
    requires t.media == q.media && JobId(id.run, Diarize) !in q.jobs
    requires t.jobs == q.jobs[id := MarkedSucceeded(q.jobs[id])][JobId(id.run, Diarize) := Fresh(now)]
    ensures MediaOk(t)
  {
    var j := MarkedSucceeded(q.jobs[id]);
    FinishedKeepsMedia(q, PutJob(q, id, j), id, j);
    OpenedKeepsMedia(PutJob(q, id, j), t, JobId(id.run, Diarize), now);
  }

  lemma {:induction false} AdvanceKeepsRows(q: Queue, t: Queue, id: JobId, next: Stage, now: int)
    requires RowsOk(q) && id in q.jobs
    requires t.jobs == q.jobs[id := MarkedSucceeded(q.jobs[id])][JobId(id.run, next) := Fresh(now)]
    ensures RowsOk(t)
  {
    assert RowOk(q.jobs[id]);
  }

  /** A `transcribe` whose run wants diarization opens it. */
  lemma {:induction false} AdvanceKeepsQueue(q: Queue, id: JobId, t: Queue, now: int)
    requires QueueOk(q) && id in q.jobs && HoldsLease(q.jobs[id]) && id.stage == Transcribe
    requires t == Enqueue(PutJob(q, id, MarkedSucceeded(q.jobs[id])), id.run, Diarize, now)
    ensures QueueOk(t)
  {
    AdvanceEffect(q, id, t, now);
    AdvanceKeepsShapes(q, id, Diarize, t, now);
    SameRunsOneActive(q, t);
    AdvanceKeepsRows(q, t, id, Diarize, now);
    AdvanceKeepsMedia(q, id, t, now);
  }

  /** Closing a job that still holds its lease. */
  lemma {:induction false} CloseKeepsQueue(q: Queue, u: U.UploadId, result: Result, usable: bool, now: int)
    requires QueueOk(q) && u.job in q.jobs && HoldsLease(q.jobs[u.job]) && u.attempt == q.jobs[u.job].attempts
    requires result.medium.live
    ensures QueueOk(Close(q, u, result, usable, now))
  {
    var id := u.job;
    var j := MarkedSucceeded(q.jobs[id]);
    assert RowOk(q.jobs[id]);
    match id.stage
    case Diarize => IngestKeepsQueue(q, id, j, Aligned(result.speakers), result.transcript, usable);
    case Transcribe =>
      if WantsDiarization(q, q.runs[id.run].meeting) {
        AdvanceKeepsQueue(q, id, Close(q, u, result, usable, now), now);
      } else {
        IngestKeepsQueue(q, id, j, NotAsked, result.transcript, usable);
      }
    case Normalize => CloseNormalizeKeepsQueue(q, u, result, usable, now);
  }

  lemma {:induction false} OpenRunKeepsQueue(q: Queue, m: Id, r: Id, diarize: Option<bool>, now: int)
    requires QueueOk(q) && r !in q.runs && (forall p :: !Active(q, m, p))
    ensures QueueOk(OpenRun(q, m, r, diarize, now))
  {
    var t := OpenRun(q, m, r, diarize, now);
    assert forall g: Stage :: JobId(r, g) !in q.jobs;
    OneRunChanges(r, q, t);
    OpenedKeepsMedia(q, t, JobId(r, Normalize), now);
    assert forall n, p :: Active(t, n, p) ==> Active(q, n, p) || (n == m && p == r);
    assert RowsOk(t);
  }

  lemma SweepKeepsShape(q: Queue, now: int, r: Id)
    requires Linked(q) && r in q.runs && ShapeOk(ViewOf(q, r))
    ensures ShapeOk(ViewOf(SweepAll(q, now), r))
  {
  }

  lemma SweepKeepsMedia(q: Queue, now: int)
    requires Linked(q) && MediaOk(q)
    ensures MediaOk(SweepAll(q, now))
  {
  }

  lemma {:induction false} SweepKeepsShapes(q: Queue, now: int)
    requires Linked(q) && ShapesOk(q)
    ensures ShapesOk(SweepAll(q, now))
  {
    forall r | r in q.runs ensures ShapeOk(ViewOf(SweepAll(q, now), r)) {
      assert ShapeOk(ViewOf(q, r));
      SweepKeepsShape(q, now, r);
    }
  }

  lemma {:induction false} SweepKeepsRows(q: Queue, now: int)
    requires Linked(q) && RowsOk(q)
    ensures RowsOk(SweepAll(q, now))
  {
    forall j | j in q.jobs ensures RowOk(SweepAll(q, now).jobs[j]) { assert RowOk(q.jobs[j]); }
  }

  lemma {:induction false} SweepKeepsQueue(q: Queue, now: int)
    requires QueueOk(q)
    ensures QueueOk(SweepAll(q, now))
  {
    SweepKeepsShapes(q, now);
    SameRunsOneActive(q, SweepAll(q, now));
    SweepKeepsMedia(q, now);
    SweepKeepsRows(q, now);
  }

  lemma CancelKeepsShape(q: Queue, m: Id, r: Id)
    requires Linked(q) && r in q.runs && ShapeOk(ViewOf(q, r))
    ensures ShapeOk(ViewOf(CancelAll(q, m), r))
  {
  }

  lemma CancelKeepsMedia(q: Queue, m: Id)
    requires Linked(q) && MediaOk(q)
    ensures MediaOk(CancelAll(q, m))
  {
  }

  lemma {:induction false} CancelKeepsShapes(q: Queue, m: Id)
    requires Linked(q) && ShapesOk(q)
    ensures ShapesOk(CancelAll(q, m))
  {
    forall r | r in q.runs ensures ShapeOk(ViewOf(CancelAll(q, m), r)) {
      assert ShapeOk(ViewOf(q, r));
      CancelKeepsShape(q, m, r);
    }
  }

  lemma {:induction false} CancelKeepsRest(q: Queue, m: Id)
    requires Linked(q) && OneActiveRun(q) && RowsOk(q)
    ensures OneActiveRun(CancelAll(q, m)) && RowsOk(CancelAll(q, m))
  {
    forall j | j in q.jobs ensures RowOk(CancelAll(q, m).jobs[j]) { assert RowOk(q.jobs[j]); }
    assert forall n, r :: Active(CancelAll(q, m), n, r) ==> Active(q, n, r);
    FewerActive(q, CancelAll(q, m));
  }

  lemma {:induction false} CancelKeepsQueue(q: Queue, m: Id)
    requires QueueOk(q)
    ensures QueueOk(CancelAll(q, m))
  {
    CancelKeepsShapes(q, m);
    CancelKeepsMedia(q, m);
    CancelKeepsRest(q, m);
  }

  lemma {:induction false} DropKeepsQueue(q: Queue, m: Id)
    requires QueueOk(q)
    ensures QueueOk(Drop(q, m))
  {
    var t := Drop(q, m);
    forall r | r in t.runs ensures ShapeOk(ViewOf(t, r)) {
      assert ViewOf(t, r) == ViewOf(q, r);
    }
    FewerActive(q, t);
    assert MediaOk(t);
    assert RowsOk(t);
  }

  // ---- Closing a job that failed for good ------------------------------------------------

  /** When closing the failed job of `u` leaves the queue as it is. */
  ghost predicate ClosesNothing(q: Queue, u: U.UploadId, usable: bool)
    requires Linked(q) && u.job in q.jobs
  {
    match u.job.stage
    case Normalize => false
    case Transcribe => !usable && !WantsDiarization(q, q.runs[u.job.run].meeting)
    case Diarize => !usable || u.job.run in q.versions
  }

  /** A failed job's run is finished, and only a given-up diarization left a version behind. */
  lemma {:induction false} FailedIsFinished(q: Queue, id: JobId)
    requires Linked(q) && RunOk(q, id.run) && id in q.jobs && q.jobs[id].status == Failed
    ensures q.runs[id.run].outcome.Some?
    ensures id.stage == Transcribe ==> id.run !in q.versions && JobId(id.run, Diarize) !in q.jobs
  {
    assert ShapeOk(ViewOf(q, id.run));
    match id.stage { case Normalize => case Transcribe => case Diarize => }
  }

  lemma {:induction false} ClosingFailedNormalizeBreaks(q: Queue, u: U.UploadId, result: Result, usable: bool, now: int)
    requires Linked(q) && u.job in q.jobs && q.jobs[u.job].status == Failed && u.job.stage == Normalize
    ensures !RunOk(Close(q, u, result, usable, now), u.job.run)
  {
    var t := Close(q, u, result, usable, now);
    assert t.jobs[u.job] == q.jobs[u.job] && JobId(u.job.run, Transcribe) in t.jobs;
    assert u.job.run in t.runs && !Ordered(ViewOf(t, u.job.run));
  }

  lemma {:induction false} ClosingFailedBreaks(q: Queue, u: U.UploadId, result: Result, usable: bool, now: int)
    requires Linked(q) && RunOk(q, u.job.run) && u.job in q.jobs && q.jobs[u.job].status == Failed
    requires u.job.stage != Normalize && !ClosesNothing(q, u, usable)
    ensures !RunOk(Close(q, u, result, usable, now), u.job.run)
  {
    FailedIsFinished(q, u.job);
    assert ShapeOk(ViewOf(q, u.job.run));
    assert !ShapeOk(ViewOf(Close(q, u, result, usable, now), u.job.run));
  }

  /** For the run itself: closing its failed job keeps its shape exactly when that changes nothing. */
  lemma {:induction false} ClosingFailedKeepsRunIff(q: Queue, u: U.UploadId, result: Result, usable: bool, now: int)
    requires Linked(q) && RunOk(q, u.job.run) && u.job in q.jobs && q.jobs[u.job].status == Failed
    ensures RunOk(Close(q, u, result, usable, now), u.job.run) <==> ClosesNothing(q, u, usable)
    ensures ClosesNothing(q, u, usable) ==> Close(q, u, result, usable, now) == q
  {
    if u.job.stage == Normalize {
      ClosingFailedNormalizeBreaks(q, u, result, usable, now);
    } else if !ClosesNothing(q, u, usable) {
      ClosingFailedBreaks(q, u, result, usable, now);
    } else {
      FailedIsFinished(q, u.job);
      var t := Close(q, u, result, usable, now);
      assert t.jobs == q.jobs && t.runs == q.runs && t.versions == q.versions && t.media == q.media;
    }
  }

  /** The source lets a `failed` job be closed; that keeps the queue exactly when it changes nothing. */
  lemma {:induction false} ClosingFailedKeepsIff(q: Queue, u: U.UploadId, result: Result, usable: bool, now: int)
    requires QueueOk(q) && u.job in q.jobs && q.jobs[u.job].status == Failed
    ensures QueueOk(Close(q, u, result, usable, now)) <==> ClosesNothing(q, u, usable)
    ensures ClosesNothing(q, u, usable) ==> Close(q, u, result, usable, now) == q
  {
    ClosingFailedKeepsRunIff(q, u, result, usable, now);
    if QueueOk(Close(q, u, result, usable, now)) { ShapesOkIsEach(Close(q, u, result, usable, now), u.job.run); }
  }

  lemma ShapesOkIsEach(q: Queue, r: Id)
    requires ShapesOk(q)
    ensures RunOk(q, r)
  {
    if r in q.runs { assert ShapeOk(ViewOf(q, r)); }
  }
}
