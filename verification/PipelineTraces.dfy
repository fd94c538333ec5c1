/**
 Whole runs of the service: any interleaving of transactions, uploads and ticks. Nothing
 happens twice, and every processing run comes to rest within a fixed number of moves.
 */
module PipelineTraces {
  import opened Common
  import opened JobRows
  import opened JobQueue
  import opened QueueInvariant
  import opened QueueProgress
  import opened PipelineState
  import opened PipelineInvariant
  import opened PipelineProgress
  import opened RunInvariant
  import U = UploadRows

  ghost function After(s: State, steps: seq<Step>): (t: State)
    requires RefsOk(s)
    ensures RefsOk(t)
    decreases |steps|
  {
    if steps == [] then s else After(Next(s, steps[0]), steps[1..])
  }

  /** No step of the run closes a job that had failed for good. */
  ghost predicate Clean(s: State, steps: seq<Step>)
    requires RefsOk(s)
    decreases |steps|
  {
    steps != [] ==> !ReopensFailedJob(s, steps[0]) && Clean(Next(s, steps[0]), steps[1..])
  }

  /** Over whole runs: every state reached without reopening a failed job meets the invariant. */
  lemma {:induction false} RunsKeepPipeline(s: State, steps: seq<Step>)
    requires PipelineOk(s) && Clean(s, steps)
    ensures PipelineOk(After(s, steps))
    decreases |steps|
  {
    if steps != [] {
      NextKeepsPipelineIff(s, steps[0]);
      RunsKeepPipeline(Next(s, steps[0]), steps[1..]);
    }
  }

  lemma {:induction false} EverythingReachableIsOk(putTtl: nat, steps: seq<Step>)
    requires Clean(Empty(putTtl), steps)
    ensures PipelineOk(After(Empty(putTtl), steps))
    decreases |steps|
  {
    RunsKeepPipeline(Empty(putTtl), steps);
  }

  /** No step of the run of steps closes a failed job of processing run `r`. */
  ghost predicate CleanIn(s: State, steps: seq<Step>, r: Id)
    requires RefsOk(s)
    decreases |steps|
  {
    steps != [] ==> !ReopensIn(s, steps[0], r) && CleanIn(Next(s, steps[0]), steps[1..], r)
  }

  lemma {:induction false} CleanIsCleanIn(s: State, steps: seq<Step>, r: Id)
    requires RefsOk(s) && Clean(s, steps)
    ensures CleanIn(s, steps, r)
    decreases |steps|
  {
    if steps != [] { CleanIsCleanIn(Next(s, steps[0]), steps[1..], r); }
  }

  lemma {:induction false} UncleanSomewhere(s: State, steps: seq<Step>) returns (r: Id)
    requires RefsOk(s) && !Clean(s, steps)
    ensures !CleanIn(s, steps, r)
    decreases |steps|
  {
    if ReopensFailedJob(s, steps[0]) {
      r := steps[0].req.proof.job.run;
    } else {
      r := UncleanSomewhere(Next(s, steps[0]), steps[1..]);
    }
  }

  /** Steps are clean exactly when they are clean in every processing run. */
  lemma {:induction false} CleanIsEach(s: State, steps: seq<Step>)
    requires RefsOk(s)
    ensures Clean(s, steps) <==> forall r :: CleanIn(s, steps, r)
  {
    hide Clean, CleanIn, RefsOk;
    if Clean(s, steps) {
      forall r ensures CleanIn(s, steps, r) { CleanIsCleanIn(s, steps, r); }
    } else {
      var r := UncleanSomewhere(s, steps);
    }
  }

  /** The shape of a processing run lasts as long as its own failed jobs are left alone, whatever becomes of the others. */
  lemma {:induction false} RunKeepsItsShape(s: State, steps: seq<Step>, r: Id)
    requires RefsOk(s) && RunOk(s.queue, r) && CleanIn(s, steps, r)
    ensures RunOk(After(s, steps).queue, r)
    decreases |steps|
  {
    if steps != [] {
      NextKeepsRunIff(s, steps[0], r);
      RunKeepsItsShape(Next(s, steps[0]), steps[1..], r);
    }
  }

  /** The CHECKs on job rows and the index of active runs hold over all steps, clean or not. */
  lemma {:induction false} RowsAndIndexLast(s: State, steps: seq<Step>)
    requires RefsOk(s) && RowsOk(s.queue) && OneActiveRun(s.queue)
    ensures RowsOk(After(s, steps).queue) && OneActiveRun(After(s, steps).queue)
    decreases |steps|
  {
    if steps != [] {
      NextKeepsRows(s, steps[0]);
      NextKeepsOneActive(s, steps[0]);
      RowsAndIndexLast(Next(s, steps[0]), steps[1..]);
    }
  }

  // ---- At most once -------------------------------------------------------------------

  predicate Succeeds(s: State, t: State, id: JobId)
  {
    id in s.queue.jobs && id in t.queue.jobs && s.queue.jobs[id].status != Succeeded && t.queue.jobs[id].status == Succeeded
  }

  ghost function Successes(s: State, steps: seq<Step>, id: JobId): nat
    requires RefsOk(s)
    decreases |steps|
  {
    if steps == [] then 0
    else
      var t := Next(s, steps[0]);
      (if Succeeds(s, t, id) then 1 else 0) + Successes(t, steps[1..], id)
  }

  /** The job's row is gone for good, or settled. */
  predicate Over(s: State, id: JobId)
  {
    id.run in s.usedRuns && (id.run !in s.queue.runs || (id in s.queue.jobs && !Unsettled(s.queue.jobs[id])))
  }

  lemma {:induction false} OverStays(s: State, step: Step, id: JobId)
    requires RefsOk(s) && Over(s, id)
    ensures Over(Next(s, step), id) && !Succeeds(s, Next(s, step), id)
  {
    NextProgress(s, step);
    var t := Next(s, step);
    if id.run in t.queue.runs {
      assert id.run in s.queue.runs && id in t.queue.jobs;
      assert RowNext(s.queue.jobs[id], t.queue.jobs[id]);
    }
  }

  lemma {:induction false} SuccessIsOver(s: State, step: Step, id: JobId)
    requires RefsOk(s) && Succeeds(s, Next(s, step), id)
    ensures Over(Next(s, step), id)
  {
    hide Next;
    var t := Next(s, step);
    assert id.run in t.queue.runs;
  }

  /** Each job succeeds at most once, whoever completes it, and a settled one never again. */
  lemma {:induction false} SucceedsAtMostOnce(s: State, steps: seq<Step>, id: JobId)
    requires RefsOk(s)
    ensures Successes(s, steps, id) <= if Over(s, id) then 0 else 1
    decreases |steps|
  {
    if steps != [] {
      var t := Next(s, steps[0]);
      SucceedsAtMostOnce(t, steps[1..], id);
      if Over(s, id) { OverStays(s, steps[0], id); }
      if Succeeds(s, t, id) { SuccessIsOver(s, steps[0], id); }
    }
  }

  predicate Ingests(s: State, t: State, r: Id) { r !in s.queue.versions && r in t.queue.versions }

  ghost function Ingestions(s: State, steps: seq<Step>, r: Id): nat
    requires RefsOk(s)
    decreases |steps|
  {
    if steps == [] then 0
    else
      var t := Next(s, steps[0]);
      (if Ingests(s, t, r) then 1 else 0) + Ingestions(t, steps[1..], r)
  }

  /** The run has its version, or is gone with it. */
  predicate Told(s: State, r: Id) { r in s.usedRuns && (r !in s.queue.runs || r in s.queue.versions) }

  lemma {:induction false} ToldStays(s: State, step: Step, r: Id)
    requires RefsOk(s) && Told(s, r)
    ensures Told(Next(s, step), r) && !Ingests(s, Next(s, step), r)
  {
    NextProgress(s, step);
    assert r in Next(s, step).queue.versions ==> r in Next(s, step).queue.runs;
  }

  lemma {:induction false} IngestionIsTold(s: State, step: Step, r: Id)
    requires RefsOk(s) && Ingests(s, Next(s, step), r)
    ensures Told(Next(s, step), r)
  {
    assert r in Next(s, step).queue.runs;
  }

  /** Each run ingests at most one transcript version. */
  lemma {:induction false} IngestsAtMostOnce(s: State, steps: seq<Step>, r: Id)
    requires RefsOk(s)
    ensures Ingestions(s, steps, r) <= if Told(s, r) then 0 else 1
    decreases |steps|
  {
    if steps != [] {
      var t := Next(s, steps[0]);
      IngestsAtMostOnce(t, steps[1..], r);
      if Told(s, r) { ToldStays(s, steps[0], r); }
      if Ingests(s, t, r) { IngestionIsTold(s, steps[0], r); }
    }
  }

  /** What a run ingested, and how it ended, is never rewritten while the run exists. */
  lemma {:induction false} HistoryIsWrittenOnce(s: State, steps: seq<Step>, r: Id)
    requires RefsOk(s) && r in s.queue.runs && r in After(s, steps).queue.runs
    ensures var t := After(s, steps);
            && (r in s.queue.versions ==> r in t.queue.versions && t.queue.versions[r] == s.queue.versions[r])
            && (s.queue.runs[r].outcome.Some? ==> t.queue.runs[r].outcome == s.queue.runs[r].outcome)
            && t.queue.runs[r].meeting == s.queue.runs[r].meeting
    decreases |steps|
  {
    if steps != [] {
      NextProgress(s, steps[0]);
      var t := Next(s, steps[0]);
      if r !in t.queue.runs {
        GoneStaysGone(t, steps[1..], r);
      } else {
        HistoryIsWrittenOnce(t, steps[1..], r);
      }
    }
  }

  lemma {:induction false} GoneStaysGone(s: State, steps: seq<Step>, r: Id)
    requires RefsOk(s) && r in s.usedRuns && r !in s.queue.runs
    ensures r !in After(s, steps).queue.runs
    decreases |steps|
  {
    if steps != [] {
      NextProgress(s, steps[0]);
      GoneStaysGone(Next(s, steps[0]), steps[1..], r);
    }
  }

  // ---- Termination --------------------------------------------------------------------

  function StageFuel(q: Queue, r: Id, stage: Stage): int
  {
    if JobId(r, stage) in q.jobs then Fuel(q.jobs[JobId(r, stage)]) else 3 * DEFAULT_MAX_ATTEMPTS + 1
  }

  function RunFuel(q: Queue, r: Id): int
  {
    StageFuel(q, r, Normalize) + StageFuel(q, r, Transcribe) + StageFuel(q, r, Diarize)
  }

  function StageAttempts(q: Queue, r: Id, stage: Stage): int
  {
    if JobId(r, stage) in q.jobs then q.jobs[JobId(r, stage)].attempts else 0
  }

  function RunAttempts(q: Queue, r: Id): int
  {
    StageAttempts(q, r, Normalize) + StageAttempts(q, r, Transcribe) + StageAttempts(q, r, Diarize)
  }

  /** Some row of the run changed its status or its attempt. */
  predicate StageMoves(q: Queue, t: Queue, id: JobId)
  {
    id in q.jobs && id in t.jobs && (q.jobs[id].status != t.jobs[id].status || q.jobs[id].attempts != t.jobs[id].attempts)
  }

  predicate Moves(q: Queue, t: Queue, r: Id)
  {
    StageMoves(q, t, JobId(r, Normalize)) || StageMoves(q, t, JobId(r, Transcribe)) || StageMoves(q, t, JobId(r, Diarize))
  }

  lemma RowFuelFalls(j: Job, k: Job)
    requires RowNext(j, k) && RowOk(j) && RowOk(k)
    ensures 0 <= Fuel(k) <= Fuel(j) <= 3 * DEFAULT_MAX_ATTEMPTS + 1
    ensures j.status != k.status || j.attempts != k.attempts ==> Fuel(k) < Fuel(j)
    ensures j.attempts <= k.attempts <= DEFAULT_MAX_ATTEMPTS
  {
  }

  lemma {:induction false} StageFuelFalls(q: Queue, t: Queue, r: Id, stage: Stage)
    requires QueueNext(q, t) && RowsOk(q) && RowsOk(t) && (JobId(r, stage) in q.jobs ==> JobId(r, stage) in t.jobs)
    ensures 0 <= StageFuel(t, r, stage) <= StageFuel(q, r, stage) <= 3 * DEFAULT_MAX_ATTEMPTS + 1
    ensures StageMoves(q, t, JobId(r, stage)) ==> StageFuel(t, r, stage) < StageFuel(q, r, stage)
    ensures StageAttempts(q, r, stage) <= StageAttempts(t, r, stage) <= DEFAULT_MAX_ATTEMPTS
  {
    var id := JobId(r, stage);
    if id in q.jobs {
      assert RowOk(q.jobs[id]) && RowOk(t.jobs[id]);
      RowFuelFalls(q.jobs[id], t.jobs[id]);
    } else if id in t.jobs {
      assert t.jobs[id].status == Queued && t.jobs[id].attempts == 0;
    }
  }

  lemma {:induction false} RunFuelFalls(q: Queue, t: Queue, r: Id)
    requires QueueNext(q, t) && RowsOk(q) && RowsOk(t) && Linked(q) && (r in q.runs ==> r in t.runs)
    ensures 0 <= RunFuel(t, r) <= RunFuel(q, r) <= 30
    ensures Moves(q, t, r) ==> RunFuel(t, r) < RunFuel(q, r)
    ensures RunAttempts(q, r) <= RunAttempts(t, r) <= 3 * DEFAULT_MAX_ATTEMPTS
  {
    StageFuelFalls(q, t, r, Normalize);
    StageFuelFalls(q, t, r, Transcribe);
    StageFuelFalls(q, t, r, Diarize);
  }

  ghost function MovesMade(s: State, steps: seq<Step>, r: Id): nat
    requires RefsOk(s)
    decreases |steps|
  {
    if steps == [] then 0
    else
      var t := Next(s, steps[0]);
      (if Moves(s.queue, t.queue, r) then 1 else 0) + MovesMade(t, steps[1..], r)
  }

  ghost function ClaimsMade(s: State, steps: seq<Step>, r: Id): nat
    requires RefsOk(s)
    decreases |steps|
  {
    if steps == [] then 0
    else
      (if steps[0].DoClaim? && steps[0].job.run == r && MayClaim(s, steps[0].who, steps[0].job) then 1 else 0)
      + ClaimsMade(Next(s, steps[0]), steps[1..], r)
  }

  lemma {:induction false} NothingLeft(s: State, steps: seq<Step>, r: Id)
    requires RefsOk(s) && r in s.usedRuns && r !in s.queue.runs
    ensures MovesMade(s, steps, r) == 0 && ClaimsMade(s, steps, r) == 0
    decreases |steps|
  {
    if steps != [] {
      NextProgress(s, steps[0]);
      var t := Next(s, steps[0]);
      assert r !in t.queue.runs;
      NothingLeft(t, steps[1..], r);
    }
  }

  /**
   Every claim, completion, failure, expiry and cancellation spends fuel, and a run has at most
   thirty units: over any steps, a failed job closed after all included.
   */
  lemma {:induction false} RunsComeToRest(s: State, steps: seq<Step>, r: Id)
    requires RefsOk(s) && RowsOk(s.queue)
    ensures MovesMade(s, steps, r) <= RunFuel(s.queue, r) <= 30
    decreases |steps|
  {
    StaysNext(s.queue);
    RunFuelFalls(s.queue, s.queue, r);
    if steps != [] {
      var t := Next(s, steps[0]);
      NextKeepsRows(s, steps[0]);
      NextProgress(s, steps[0]);
      if r in s.queue.runs && r !in t.queue.runs {
        NothingLeft(t, steps[1..], r);
        assert !Moves(s.queue, t.queue, r);
      } else {
        RunFuelFalls(s.queue, t.queue, r);
        RunsComeToRest(t, steps[1..], r);
      }
    }
  }

  lemma {:induction false} ClaimCosts(s: State, step: Step, r: Id)
    requires RefsOk(s) && step.DoClaim? && step.job.run == r && MayClaim(s, step.who, step.job)
    ensures RunAttempts(Next(s, step).queue, r) == RunAttempts(s.queue, r) + 1
    ensures r in Next(s, step).queue.runs
  {
    match step.job.stage { case Normalize => case Transcribe => case Diarize => }
  }

  /** A run is claimed at most nine times: three stages of three attempts. */
  lemma {:induction false} AtMostNineClaims(s: State, steps: seq<Step>, r: Id)
    requires RefsOk(s) && RowsOk(s.queue)
    ensures ClaimsMade(s, steps, r) <= 9 - RunAttempts(s.queue, r)
    ensures RunAttempts(s.queue, r) >= 0
    decreases |steps|
  {
    StaysNext(s.queue);
    RunFuelFalls(s.queue, s.queue, r);
    if steps != [] {
      var t := Next(s, steps[0]);
      NextKeepsRows(s, steps[0]);
      NextProgress(s, steps[0]);
      if r in s.queue.runs && r !in t.queue.runs {
        NothingLeft(t, steps[1..], r);
      } else {
        RunFuelFalls(s.queue, t.queue, r);
        AtMostNineClaims(t, steps[1..], r);
      }
      if steps[0].DoClaim? && steps[0].job.run == r && MayClaim(s, steps[0].who, steps[0].job) { ClaimCosts(s, steps[0], r); }
    }
  }
}
