/**
 Whole runs of the service, from an empty installation on, in which one of its promises fails:
 a late `complete` reopens a failed job, another one makes a meeting claim a diarization it
 has not got, audio outlives the meeting it was uploaded for, a run is left unfinished for good,
 an honest resend is refused, and a rejected upload is let through.
 */
module FailingRuns {
  import opened Common
  import opened JobRows
  import opened JobQueue
  import opened PipelineState
  import opened QueueInvariant
  import opened PipelineInvariant
  import opened PipelineTraces
  import opened DeletionProtocol
  import opened OutcomeTruth
  import opened LeaseSafety
  import Replays
  import Service = PipelineService
  import U = UploadRows

  // ---- Runs made of shorter ones ----------------------------------------------------------------

  lemma {:induction false} AfterThen(s: State, a: seq<Step>, b: seq<Step>)
    requires RefsOk(s)
    ensures After(s, a + b) == After(After(s, a), b)
    ensures Clean(s, a + b) <==> Clean(s, a) && Clean(After(s, a), b)
    decreases |a|
  {
    if a == [] {
      assert a + b == b;
    } else {
      assert (a + b)[0] == a[0] && (a + b)[1..] == a[1..] + b;
      AfterThen(Next(s, a[0]), a[1..], b);
    }
  }

  lemma {:induction false} AfterOne(s: State, x: Step)
    requires RefsOk(s)
    ensures After(s, [x]) == Next(s, x) && (Clean(s, [x]) <==> !ReopensFailedJob(s, x))
  {
    assert After(Next(s, x), [x][1..]) == Next(s, x);
  }

  /** A clean run leads from `s` to `t`. */
  ghost predicate Reaches(s: State, steps: seq<Step>, t: State)
  {
    RefsOk(s) && RefsOk(t) && Clean(s, steps) && After(s, steps) == t
  }

  /** One clean step leads from `s` to `t`. */
  ghost predicate Moves(s: State, x: Step, t: State)
  {
    RefsOk(s) && RefsOk(t) && !ReopensFailedJob(s, x) && Next(s, x) == t
  }

  lemma MovesBy(s: State, x: Step, t: State)
    requires RefsOk(s) && !x.DoComplete? && Next(s, x) == t
    ensures Moves(s, x, t)
  {
  }

  lemma {:induction false} AndThen(s: State, steps: seq<Step>, t: State, x: Step, u: State) returns (more: seq<Step>)
    requires Reaches(s, steps, t) && Moves(t, x, u)
    ensures more == steps + [x] && Reaches(s, more, u)
  {
    hide Next, ReopensFailedJob, RefsOk;
    more := steps + [x];
    AfterThen(s, steps, [x]);
    AfterOne(t, x);
  }

  lemma NothingYet(s: State)
    requires RefsOk(s)
    ensures Reaches(s, [], s)
  {
    hide RefsOk;
  }

  // ---- An uploaded recording ------------------------------------------------------------------------

  const WORKER := Identity(7, None, {TranscribeCap}, None)
  const CONTENT := U.Digested(10, "aa")

  function JobOf(stage: Stage): JobId { JobId(1, stage) }
  function UploadOf(stage: Stage, attempt: nat): UploadId { U.UploadId(JobOf(stage), attempt) }
  function UrlOf(u: UploadId, expiresAt: int): PutUrl { PutUrl(Artifact(4, u), expiresAt) }

  /** A meeting is created and its recording uploaded and confirmed. */
  function Recorded(ttl: nat): seq<Step>
  {
    [] + [DoCreateMeeting(4, 2, 3)] + [DoUploadInit(2, 3, 4)] + [DoPut(PutUrl(Original(4), ttl))] + [DoUploadCommit(4, 1)]
  }

  function NewMeeting(): Meeting { Meeting(2, 3, MediaPending, false, Pending, Pending, None, [], false, None, Live, None) }

  function RecordedMeeting(ttl: nat): Meeting { NewMeeting().(mediaState := MediaReady, hasOriginal := true, originalPutExpiresAt := Some(ttl)) }

  /** The state after that: one run, its first job queued. */
  function RecordedState(ttl: nat): State
  {
    State(0, ttl, map[4 := RecordedMeeting(ttl)], {4}, {1},
          Queue(map[1 := Run(4, None, None)], map[JobOf(Normalize) := Fresh(0)], map[], map[]),
          map[], {PutUrl(Original(4), ttl)}, {Original(4)}, {})
  }

  function CreatedState(ttl: nat): State { Empty(ttl).(usedMeetings := {4}, meetings := map[4 := NewMeeting()]) }

  function SignedState(ttl: nat): State
  {
    CreatedState(ttl).(meetings := map[4 := NewMeeting().(mediaState := MediaUploading, originalPutExpiresAt := Some(ttl))],
                       urls := {PutUrl(Original(4), ttl)})
  }

  function UploadedState(ttl: nat): State { SignedState(ttl).(objects := {Original(4)}) }

  lemma RecordingIsSigned(ttl: nat)
    requires ttl > 0
    ensures Moves(Empty(ttl), DoCreateMeeting(4, 2, 3), CreatedState(ttl))
    ensures Moves(CreatedState(ttl), DoUploadInit(2, 3, 4), SignedState(ttl))
    ensures Moves(SignedState(ttl), DoPut(PutUrl(Original(4), ttl)), UploadedState(ttl))
  {
  }

  lemma RecordingIsCommitted(ttl: nat)
    requires RefsOk(UploadedState(ttl))
    ensures Moves(UploadedState(ttl), DoUploadCommit(4, 1), RecordedState(ttl))
  {
    assert ActiveRun(UploadedState(ttl).queue, 4).None?;
  }

  lemma RecordedRuns(ttl: nat)
    requires ttl > 0
    ensures Reaches(Empty(ttl), Recorded(ttl), RecordedState(ttl))
  {
    hide Next, ReopensFailedJob, RefsOk, After, Clean,
         Empty, CreatedState, SignedState, UploadedState, RecordedState;
    RecordingIsSigned(ttl);
    NothingYet(Empty(ttl));
    var s := Empty(ttl);
    var a: seq<Step> := [];
    a := AndThen(s, a, Empty(ttl), DoCreateMeeting(4, 2, 3), CreatedState(ttl));
    a := AndThen(s, a, CreatedState(ttl), DoUploadInit(2, 3, 4), SignedState(ttl));
    a := AndThen(s, a, SignedState(ttl), DoPut(PutUrl(Original(4), ttl)), UploadedState(ttl));
    RecordingIsCommitted(ttl);
    a := AndThen(s, a, UploadedState(ttl), DoUploadCommit(4, 1), RecordedState(ttl));
  }

  // ---- Attempts at a stage ------------------------------------------------------------------------------

  /** A job that failed so many times; the third one is for good. */
  function TriedJob(attempts: nat): Job
  {
    if attempts < 3 then Job(Queued, attempts, 3, 0, None, None, None, if attempts == 0 then None else Some("oom"), None)
    else Job(Failed, 3, 3, 0, None, None, Some(7), Some("oom"), None)
  }

  function HeldJob(stage: Stage, attempt: nat, status: Status): Job
  {
    Job(status, attempt, 3, 0, Some(TokenHash("t", JobOf(stage), attempt, 7)), Some(9), Some(7), if attempt == 1 then None else Some("oom"), None)
  }

  function SoundUpload(ttl: nat): Upload { U.Upload(U.Uploaded, ttl, Some(CONTENT), None, Some(0), None, None, None, None) }

  function VerifiedUpload(ttl: nat): Upload
  {
    SoundUpload(ttl).(state := U.Verified, observed := Some(CONTENT), verifiedAt := Some(0))
  }

  function ClaimOf(stage: Stage): Step { DoClaim(WORKER, JobOf(stage), "t", 9) }
  function ProofOf(stage: Stage, attempt: nat): Proof { Proof(JobOf(stage), attempt, "t") }
  function InitOf(stage: Stage, attempt: nat): Step { DoResultInit(WORKER, ProofOf(stage, attempt), CONTENT) }
  function FailOf(stage: Stage, attempt: nat): Step { DoFail(WORKER, ProofOf(stage, attempt), "oom", None, 0, Some(5)) }

  /** `normalize` has this row and nothing has been delivered. */
  function NormalizeState(ttl: nat, j: Job): State
  {
    var s := RecordedState(ttl);
    s.(queue := s.queue.(jobs := map[JobOf(Normalize) := j]))
  }

  /** The result of this attempt at `normalize` may be uploaded. */
  function ResultSignedState(ttl: nat, attempt: nat): State
  {
    NormalizeState(ttl, HeldJob(Normalize, attempt, UploadingResult)).(
      uploads := map[UploadOf(Normalize, attempt) := SoundUpload(ttl)],
      urls := {PutUrl(Original(4), ttl), UrlOf(UploadOf(Normalize, attempt), ttl)})
  }

  lemma NormalizeWaits(ttl: nat)
    requires ttl > 0
    ensures Reaches(Empty(ttl), Recorded(ttl), NormalizeState(ttl, TriedJob(0)))
  {
    hide Next, ReopensFailedJob, RefsOk, After, Clean;
    RecordedRuns(ttl);
    assert NormalizeState(ttl, TriedJob(0)) == RecordedState(ttl);
  }

  lemma AttemptIsClaimed(ttl: nat, attempts: nat)
    requires attempts < 3 && RefsOk(NormalizeState(ttl, TriedJob(attempts)))
    ensures Moves(NormalizeState(ttl, TriedJob(attempts)), ClaimOf(Normalize), NormalizeState(ttl, HeldJob(Normalize, attempts + 1, Leased)))
  {
    hide RefsOk, ReopensFailedJob, Moves;
    var s := NormalizeState(ttl, TriedJob(attempts));
    assert MayClaim(s, WORKER, JobOf(Normalize));
    assert Next(s, ClaimOf(Normalize)).queue.jobs == map[JobOf(Normalize) := HeldJob(Normalize, attempts + 1, Leased)];
    MovesBy(NormalizeState(ttl, TriedJob(attempts)), ClaimOf(Normalize), NormalizeState(ttl, HeldJob(Normalize, attempts + 1, Leased)));
  }

  lemma AttemptFails(ttl: nat, attempt: nat)
    requires 1 <= attempt < 3 && RefsOk(NormalizeState(ttl, HeldJob(Normalize, attempt, Leased)))
    ensures Moves(NormalizeState(ttl, HeldJob(Normalize, attempt, Leased)), FailOf(Normalize, attempt), NormalizeState(ttl, TriedJob(attempt)))
  {
    hide RefsOk, ReopensFailedJob, Moves;
    var s := NormalizeState(ttl, HeldJob(Normalize, attempt, Leased));
    assert Authorize(s, WORKER, ProofOf(Normalize, attempt), true) == Done(HeldJob(Normalize, attempt, Leased));
    assert Next(s, FailOf(Normalize, attempt)).queue.jobs == map[JobOf(Normalize) := TriedJob(attempt)];
    MovesBy(NormalizeState(ttl, HeldJob(Normalize, attempt, Leased)), FailOf(Normalize, attempt), NormalizeState(ttl, TriedJob(attempt)));
  }

  lemma ResultIsSigned(ttl: nat, attempt: nat)
    requires 1 <= attempt && RefsOk(NormalizeState(ttl, HeldJob(Normalize, attempt, Leased)))
    ensures Moves(NormalizeState(ttl, HeldJob(Normalize, attempt, Leased)), InitOf(Normalize, attempt), ResultSignedState(ttl, attempt))
  {
    hide RefsOk, ReopensFailedJob, Moves;
    var s := NormalizeState(ttl, HeldJob(Normalize, attempt, Leased));
    assert Authorize(s, WORKER, ProofOf(Normalize, attempt), false) == Done(HeldJob(Normalize, attempt, Leased));
    MovesBy(NormalizeState(ttl, HeldJob(Normalize, attempt, Leased)), InitOf(Normalize, attempt), ResultSignedState(ttl, attempt));
  }

  // ---- A failed job that is closed after all ---------------------------------------------------------------

  function FailedState(ttl: nat): State
  {
    var s := ResultSignedState(ttl, 3);
    s.(queue := s.queue.(jobs := map[JobOf(Normalize) := TriedJob(3)], runs := map[1 := Run(4, None, Some(RunFailed))]),
       meetings := map[4 := RecordedMeeting(ttl).(transcriptState := Failing, warnings := [StageFailed(Normalize, "oom")])])
  }

  lemma NormalizeIsGivenUp(ttl: nat)
    requires RefsOk(ResultSignedState(ttl, 3))
    ensures FailJob(ResultSignedState(ttl, 3), JobOf(Normalize), TriedJob(3), "oom", Some(5)) == (FailedState(ttl), Done(false))
  {
    var t := FailJob(ResultSignedState(ttl, 3), JobOf(Normalize), TriedJob(3), "oom", Some(5)).0;
    assert t.queue.jobs == FailedState(ttl).queue.jobs && t.queue.runs == FailedState(ttl).queue.runs;
    assert RecordedMeeting(ttl).warnings + [StageFailed(Normalize, "oom")] == [StageFailed(Normalize, "oom")];
    assert t.meetings == FailedState(ttl).meetings;
  }

  lemma LastAttemptFails(ttl: nat)
    requires RefsOk(ResultSignedState(ttl, 3))
    ensures Moves(ResultSignedState(ttl, 3), FailOf(Normalize, 3), FailedState(ttl))
  {
    hide FailJob, FailedState, RefsOk;
    var s := ResultSignedState(ttl, 3);
    NormalizeIsGivenUp(ttl);
    assert Authorize(s, WORKER, ProofOf(Normalize, 3), true) == Done(HeldJob(Normalize, 3, UploadingResult));
    assert Fail(s, WORKER, ProofOf(Normalize, 3), "oom", None, 0, Some(5)).0 == FailedState(ttl);
  }

  /** `normalize` fails three times; its last attempt had begun to deliver its result. */
  function FailedRun(ttl: nat): seq<Step>
  {
    Recorded(ttl)
    + [ClaimOf(Normalize)]
    + [FailOf(Normalize, 1)]
    + [ClaimOf(Normalize)]
    + [FailOf(Normalize, 2)]
    + [ClaimOf(Normalize)]
    + [InitOf(Normalize, 3)]
    + [FailOf(Normalize, 3)]
  }

  lemma FailedRuns(ttl: nat)
    requires ttl > 0
    ensures Reaches(Empty(ttl), FailedRun(ttl), FailedState(ttl))
  {
    hide Next, ReopensFailedJob, RefsOk, After, Clean,
         Empty, Recorded, RecordedState, NormalizeState, TriedJob, HeldJob, ClaimOf, InitOf, FailOf, ResultSignedState, FailedState;
    NormalizeWaits(ttl);
    var (s, a) := (Empty(ttl), Recorded(ttl));
    AttemptIsClaimed(ttl, 0);
    a := AndThen(s, a, NormalizeState(ttl, TriedJob(0)), ClaimOf(Normalize), NormalizeState(ttl, HeldJob(Normalize, 1, Leased)));
    AttemptFails(ttl, 1);
    a := AndThen(s, a, NormalizeState(ttl, HeldJob(Normalize, 1, Leased)),
                 FailOf(Normalize, 1), NormalizeState(ttl, TriedJob(1)));
    AttemptIsClaimed(ttl, 1);
    a := AndThen(s, a, NormalizeState(ttl, TriedJob(1)), ClaimOf(Normalize), NormalizeState(ttl, HeldJob(Normalize, 2, Leased)));
    AttemptFails(ttl, 2);
    a := AndThen(s, a, NormalizeState(ttl, HeldJob(Normalize, 2, Leased)),
                 FailOf(Normalize, 2), NormalizeState(ttl, TriedJob(2)));
    AttemptIsClaimed(ttl, 2);
    a := AndThen(s, a, NormalizeState(ttl, TriedJob(2)), ClaimOf(Normalize), NormalizeState(ttl, HeldJob(Normalize, 3, Leased)));
    ResultIsSigned(ttl, 3);
    a := AndThen(s, a, NormalizeState(ttl, HeldJob(Normalize, 3, Leased)), InitOf(Normalize, 3), ResultSignedState(ttl, 3));
    LastAttemptFails(ttl);
    a := AndThen(s, a, ResultSignedState(ttl, 3), FailOf(Normalize, 3), FailedState(ttl));
  }

  /** The worker that failed it sends its `complete` after all, without any token. */
  function LateComplete(): Step
  {
    DoComplete(WORKER, CompleteRequest(Proof(JobOf(Normalize), 3, ""), CONTENT, Some(Probe(Some(1.0), SAMPLE_RATE, CHANNELS, CODEC))), 0, 0)
  }

  lemma LateCompleteReopens(ttl: nat)
    requires RefsOk(FailedState(ttl))
    ensures ReopensFailedJob(FailedState(ttl), LateComplete())
  {
    assert Authorize(FailedState(ttl), WORKER, Proof(JobOf(Normalize), 3, ""), true) == Done(TriedJob(3));
  }

  /** The branch is not idle: a system that has just started gets, cleanly, to where one late request breaks the invariant. */
  lemma FailedJobCanBeReopened(ttl: nat)
    requires ttl > 0
    ensures Clean(Empty(ttl), FailedRun(ttl))
    ensures var t := After(Empty(ttl), FailedRun(ttl)); PipelineOk(t) && ReopensFailedJob(t, LateComplete()) && !PipelineOk(Next(t, LateComplete()))
  {
    FailedRuns(ttl);
    EverythingReachableIsOk(ttl, FailedRun(ttl));
    LateCompleteReopens(ttl);
    NextKeepsPipelineIff(FailedState(ttl), LateComplete());
  }

  // ---- A result delivered ------------------------------------------------------------------------------------

  function ResultStoredState(ttl: nat): State
  {
    ResultSignedState(ttl, 1).(objects := {Original(4), Artifact(4, UploadOf(Normalize, 1))})
  }

  function ResultVerifiedState(ttl: nat): State
  {
    ResultStoredState(ttl).(uploads := map[UploadOf(Normalize, 1) := VerifiedUpload(ttl)])
  }

  lemma ResultIsVerified(ttl: nat)
    requires ttl > 0 && RefsOk(ResultSignedState(ttl, 1))
    ensures Moves(ResultSignedState(ttl, 1), DoPut(UrlOf(UploadOf(Normalize, 1), ttl)), ResultStoredState(ttl))
    ensures Moves(ResultStoredState(ttl), DoVerify(UploadOf(Normalize, 1), CONTENT), ResultVerifiedState(ttl))
  {
  }

  /** The first attempt at `normalize` uploads its result, which is confirmed. */
  function VerifiedRun(ttl: nat): seq<Step>
  {
    Recorded(ttl)
    + [ClaimOf(Normalize)]
    + [InitOf(Normalize, 1)]
    + [DoPut(UrlOf(UploadOf(Normalize, 1), ttl))]
    + [DoVerify(UploadOf(Normalize, 1), CONTENT)]
  }

  lemma VerifiedRuns(ttl: nat)
    requires ttl > 0
    ensures Reaches(Empty(ttl), VerifiedRun(ttl), ResultVerifiedState(ttl))
  {
    hide Next, ReopensFailedJob, RefsOk, After, Clean,
         Empty, Recorded, RecordedState, NormalizeState, TriedJob, HeldJob, ClaimOf, InitOf, FailOf, ResultSignedState,
         ResultStoredState, ResultVerifiedState;
    NormalizeWaits(ttl);
    var (s, a) := (Empty(ttl), Recorded(ttl));
    AttemptIsClaimed(ttl, 0);
    a := AndThen(s, a, NormalizeState(ttl, TriedJob(0)), ClaimOf(Normalize), NormalizeState(ttl, HeldJob(Normalize, 1, Leased)));
    ResultIsSigned(ttl, 1);
    a := AndThen(s, a, NormalizeState(ttl, HeldJob(Normalize, 1, Leased)), InitOf(Normalize, 1), ResultSignedState(ttl, 1));
    ResultIsVerified(ttl);
    a := AndThen(s, a, ResultSignedState(ttl, 1), DoPut(UrlOf(UploadOf(Normalize, 1), ttl)), ResultStoredState(ttl));
    a := AndThen(s, a, ResultStoredState(ttl), DoVerify(UploadOf(Normalize, 1), CONTENT), ResultVerifiedState(ttl));
  }

  // ---- Audio that outlives its meeting ------------------------------------------------------------------

  /** The worker asks for a second URL a millisecond later; the row keeps the expiry of the first. */
  function LateSignedState(ttl: nat): State
  {
    ResultVerifiedState(ttl).(now := 1, urls := {PutUrl(Original(4), ttl), UrlOf(UploadOf(Normalize, 1), ttl), UrlOf(UploadOf(Normalize, 1), ttl + 1)})
  }

  function ReservedState(ttl: nat): State
  {
    LateSignedState(ttl).(meetings := map[4 := RecordedMeeting(ttl).(deletion := Deleting, deletionNotBefore := Some(ttl))])
  }

  function PurgingState(ttl: nat, objects: set<ObjectKey>): State
  {
    ReservedState(ttl).(now := ttl, purgers := {Purger(4, ttl, false)}, objects := objects)
  }

  function PurgedState(ttl: nat): State
  {
    PurgingState(ttl, {}).(purgers := {Purger(4, ttl, false), Purger(4, ttl, true)})
  }

  function GoneState(ttl: nat): State
  {
    PurgedState(ttl).(meetings := map[], queue := Queue(map[], map[], map[], map[]), uploads := map[])
  }

  function OrphanState(ttl: nat): State { GoneState(ttl).(objects := {Artifact(4, UploadOf(Normalize, 1))}) }

  lemma AMillisecondPasses(ttl: nat)
    requires RefsOk(ResultVerifiedState(ttl))
    ensures Moves(ResultVerifiedState(ttl), DoTick(1), ResultVerifiedState(ttl).(now := 1))
  {
  }

  lemma LateUrlIsSigned(ttl: nat)
    requires RefsOk(ResultVerifiedState(ttl).(now := 1))
    ensures Moves(ResultVerifiedState(ttl).(now := 1), InitOf(Normalize, 1), LateSignedState(ttl))
  {
    hide RefsOk, ReopensFailedJob, Moves;
    var t := ResultVerifiedState(ttl).(now := 1);
    assert Authorize(t, WORKER, ProofOf(Normalize, 1), false) == Done(t.queue.jobs[JobOf(Normalize)]);
    MovesBy(ResultVerifiedState(ttl).(now := 1), InitOf(Normalize, 1), LateSignedState(ttl));
  }

  /** The deadline the deletion reads is that of the first URL. */
  lemma DeletionIsReserved(ttl: nat)
    requires ttl > 0 && RefsOk(LateSignedState(ttl))
    ensures Moves(LateSignedState(ttl), DoReserve(4, ttl), ReservedState(ttl))
  {
    hide RefsOk, ReopensFailedJob, Moves;
    assert IsDeadline(LateSignedState(ttl), 4, ttl);
    MovesBy(LateSignedState(ttl), DoReserve(4, ttl), ReservedState(ttl));
  }

  lemma DeadlinePasses(ttl: nat)
    requires ttl > 0 && RefsOk(ReservedState(ttl))
    ensures Moves(ReservedState(ttl), DoTick(ttl - 1), ReservedState(ttl).(now := ttl))
  {
  }

  lemma PurgeStarts(ttl: nat)
    requires RefsOk(ReservedState(ttl).(now := ttl))
    ensures Moves(ReservedState(ttl).(now := ttl), DoStartPurge(4), PurgingState(ttl, {Original(4), Artifact(4, UploadOf(Normalize, 1))}))
  {
    hide RefsOk, ReopensFailedJob, Moves;
    MovesBy(ReservedState(ttl).(now := ttl), DoStartPurge(4), PurgingState(ttl, {Original(4), Artifact(4, UploadOf(Normalize, 1))}));
  }

  lemma ObjectIsPurged(ttl: nat, objects: set<ObjectKey>, k: ObjectKey)
    requires RefsOk(PurgingState(ttl, objects)) && k.meeting == 4
    ensures Moves(PurgingState(ttl, objects), DoPurgeObject(Purger(4, ttl, false), k), PurgingState(ttl, objects - {k}))
  {
    hide RefsOk, ReopensFailedJob, Moves;
    MovesBy(PurgingState(ttl, objects), DoPurgeObject(Purger(4, ttl, false), k), PurgingState(ttl, objects - {k}));
  }

  lemma PrefixIsEmptied(ttl: nat)
    requires RefsOk(ReservedState(ttl).(now := ttl))
    ensures var (p, audio, artifact) := (Purger(4, ttl, false), Original(4), Artifact(4, UploadOf(Normalize, 1)));
            && Moves(ReservedState(ttl).(now := ttl), DoStartPurge(4), PurgingState(ttl, {audio, artifact}))
            && Moves(PurgingState(ttl, {audio, artifact}), DoPurgeObject(p, audio), PurgingState(ttl, {artifact}))
            && Moves(PurgingState(ttl, {artifact}), DoPurgeObject(p, artifact), PurgingState(ttl, {}))
  {
    hide RefsOk, ReopensFailedJob, PurgingState, ReservedState, Next;
    var (audio, artifact) := (Original(4), Artifact(4, UploadOf(Normalize, 1)));
    PurgeStarts(ttl);
    ObjectIsPurged(ttl, {audio, artifact}, audio);
    assert {audio, artifact} - {audio} == {artifact};
    ObjectIsPurged(ttl, {artifact}, artifact);
    assert {artifact} - {artifact} == {};
  }

  lemma PrefixIsSeenEmpty(ttl: nat)
    requires RefsOk(PurgingState(ttl, {}))
    ensures Moves(PurgingState(ttl, {}), DoPurgeVerify(Purger(4, ttl, false)), PurgedState(ttl))
  {
  }

  lemma RowIsDeleted(ttl: nat)
    requires RefsOk(PurgedState(ttl))
    ensures Moves(PurgedState(ttl), DoDeleteRow(Purger(4, ttl, true)), GoneState(ttl))
  {
    hide RefsOk, ReopensFailedJob, Moves;
    var t := DeleteRow(PurgedState(ttl), Purger(4, ttl, true));
    assert t.queue.runs == map[] && t.queue.jobs == map[] && t.queue.media == map[] && t.queue.versions == map[];
    assert t.uploads == map[];
    MovesBy(PurgedState(ttl), DoDeleteRow(Purger(4, ttl, true)), GoneState(ttl));
  }

  lemma LateUrlIsUsed(ttl: nat)
    requires RefsOk(GoneState(ttl))
    ensures Moves(GoneState(ttl), DoPut(UrlOf(UploadOf(Normalize, 1), ttl + 1)), OrphanState(ttl))
  {
    hide RefsOk, ReopensFailedJob, Moves;
    MovesBy(GoneState(ttl), DoPut(UrlOf(UploadOf(Normalize, 1), ttl + 1)), OrphanState(ttl));
  }

  /** A second URL for one result, a deletion whose deadline misses it, and its use after the purge. */
  function OrphanRun(ttl: nat): seq<Step>
    requires ttl > 0
  {
    VerifiedRun(ttl)
    + [DoTick(1)]
    + [InitOf(Normalize, 1)]
    + [DoReserve(4, ttl)]
    + [DoTick(ttl - 1)]
    + [DoStartPurge(4)]
    + [DoPurgeObject(Purger(4, ttl, false), Original(4))]
    + [DoPurgeObject(Purger(4, ttl, false), Artifact(4, UploadOf(Normalize, 1)))]
    + [DoPurgeVerify(Purger(4, ttl, false))]
    + [DoDeleteRow(Purger(4, ttl, true))]
    + [DoPut(UrlOf(UploadOf(Normalize, 1), ttl + 1))]
  }

  lemma OrphanRuns(ttl: nat)
    requires ttl > 0
    ensures Reaches(Empty(ttl), OrphanRun(ttl), OrphanState(ttl))
  {
    hide Next, ReopensFailedJob, RefsOk, After, Clean,
         Empty, VerifiedRun, ResultVerifiedState, LateSignedState, ReservedState, PurgingState, PurgedState, GoneState,
         OrphanState, InitOf;
    VerifiedRuns(ttl);
    var (s, a) := (Empty(ttl), VerifiedRun(ttl));
    AMillisecondPasses(ttl);
    a := AndThen(s, a, ResultVerifiedState(ttl), DoTick(1), ResultVerifiedState(ttl).(now := 1));
    LateUrlIsSigned(ttl);
    a := AndThen(s, a, ResultVerifiedState(ttl).(now := 1), InitOf(Normalize, 1), LateSignedState(ttl));
    DeletionIsReserved(ttl);
    a := AndThen(s, a, LateSignedState(ttl), DoReserve(4, ttl), ReservedState(ttl));
    DeadlinePasses(ttl);
    a := AndThen(s, a, ReservedState(ttl), DoTick(ttl - 1), ReservedState(ttl).(now := ttl));
    PrefixIsEmptied(ttl);
    a := AndThen(s, a, ReservedState(ttl).(now := ttl),
                 DoStartPurge(4), PurgingState(ttl, {Original(4), Artifact(4, UploadOf(Normalize, 1))}));
    a := AndThen(s, a, PurgingState(ttl, {Original(4), Artifact(4, UploadOf(Normalize, 1))}),
                 DoPurgeObject(Purger(4, ttl, false), Original(4)), PurgingState(ttl, {Artifact(4, UploadOf(Normalize, 1))}));
    a := AndThen(s, a, PurgingState(ttl, {Artifact(4, UploadOf(Normalize, 1))}),
                 DoPurgeObject(Purger(4, ttl, false), Artifact(4, UploadOf(Normalize, 1))), PurgingState(ttl, {}));
    PrefixIsSeenEmpty(ttl);
    a := AndThen(s, a, PurgingState(ttl, {}), DoPurgeVerify(Purger(4, ttl, false)), PurgedState(ttl));
    RowIsDeleted(ttl);
    a := AndThen(s, a, PurgedState(ttl), DoDeleteRow(Purger(4, ttl, true)), GoneState(ttl));
    LateUrlIsUsed(ttl);
    a := AndThen(s, a, GoneState(ttl), DoPut(UrlOf(UploadOf(Normalize, 1), ttl + 1)), OrphanState(ttl));
  }

  /** Whatever the lifetime of its URLs, a system that has just started can leave audio of a deleted meeting in its store. */
  lemma OrphanAudioIsPossible(ttl: nat)
    requires ttl > 0
    ensures var t := After(Empty(ttl), OrphanRun(ttl)); Deleted(t, 4) && Artifact(4, UploadOf(Normalize, 1)) in t.objects
  {
    hide Next, ReopensFailedJob, RefsOk, After, Clean;
    OrphanRuns(ttl);
  }

  // ---- A diarization that gave up and is ready ------------------------------------------------------------------

  const PROBE := Probe(Some(1.0), SAMPLE_RATE, CHANNELS, CODEC)

  function DoneJob(): Job { Job(Succeeded, 1, 3, 0, None, None, Some(7), None, None) }

  function IngestedUpload(ttl: nat): Upload { VerifiedUpload(ttl).(state := U.Ingested, ingestedAt := Some(0)) }

  function CompleteOf(stage: Stage): Step
  {
    DoComplete(WORKER, CompleteRequest(ProofOf(stage, 1), CONTENT, if stage == Normalize then Some(PROBE) else None), 5, 6)
  }

  /** `transcribe` has this row, after a `normalize` that succeeded. */
  function TranscribeState(ttl: nat, j: Job, state: StageState): State
  {
    var s := ResultVerifiedState(ttl);
    s.(meetings := map[4 := RecordedMeeting(ttl).(transcriptState := state)],
       queue := s.queue.(jobs := map[JobOf(Normalize) := DoneJob(), JobOf(Transcribe) := j],
                         media := map[UploadOf(Normalize, 1) := Media(CONTENT, PROBE, true)]),
       uploads := map[UploadOf(Normalize, 1) := IngestedUpload(ttl)])
  }

  /** Its result may be uploaded, and then is and is confirmed. */
  function TextState(ttl: nat, row: Upload, objects: set<ObjectKey>): State
  {
    var s := TranscribeState(ttl, HeldJob(Transcribe, 1, UploadingResult), Running);
    s.(uploads := s.uploads[UploadOf(Transcribe, 1) := row], urls := s.urls + {UrlOf(UploadOf(Transcribe, 1), ttl)}, objects := s.objects + objects)
  }

  function TextVerifiedState(ttl: nat): State { TextState(ttl, VerifiedUpload(ttl), {Artifact(4, UploadOf(Transcribe, 1))}) }

  /** `diarize` has this row, after a `transcribe` that succeeded. */
  function DiarizeState(ttl: nat, j: Job, state: StageState): State
  {
    var s := TextVerifiedState(ttl);
    s.(meetings := map[4 := RecordedMeeting(ttl).(transcriptState := Running, diarizationState := state)],
       queue := s.queue.(jobs := map[JobOf(Normalize) := DoneJob(), JobOf(Transcribe) := DoneJob(), JobOf(Diarize) := j]))
  }

  /** Its last attempt has begun to deliver its result. */
  function VoicesSignedState(ttl: nat): State
  {
    var s := DiarizeState(ttl, HeldJob(Diarize, 3, UploadingResult), Running);
    s.(uploads := s.uploads[UploadOf(Diarize, 3) := SoundUpload(ttl)], urls := s.urls + {UrlOf(UploadOf(Diarize, 3), ttl)})
  }

  /** Diarization gave up: a transcript without speakers. */
  function PartialState(ttl: nat): State
  {
    var s := VoicesSignedState(ttl);
    s.(meetings := map[4 := RecordedMeeting(ttl).(transcriptState := Ready, diarizationState := Failing, activeTranscript := Some(1),
                                                  warnings := [DiarizationFailed("oom")])],
       queue := s.queue.(runs := map[1 := Run(4, None, Some(RunPartial))], jobs := s.queue.jobs[JobOf(Diarize) := TriedJob(3)],
                         versions := map[1 := Version(5, None)]),
       uploads := s.uploads[UploadOf(Transcribe, 1) := IngestedUpload(ttl)])
  }

  lemma NormalizeIsClosed(ttl: nat)
    requires RefsOk(ResultVerifiedState(ttl))
    ensures CloseJob(ResultVerifiedState(ttl), UploadOf(Normalize, 1), CompleteOf(Normalize).req, 5, 6).0 == TranscribeState(ttl, TriedJob(0), Pending)
  {
    hide RefsOk;
    var s := ResultVerifiedState(ttl);
    var t := CloseJob(s, UploadOf(Normalize, 1), CompleteOf(Normalize).req, 5, 6).0;
    assert Quantised(1.0) == 1.0;
    assert t.queue.jobs == TranscribeState(ttl, TriedJob(0), Pending).queue.jobs;
    assert t.queue.media == TranscribeState(ttl, TriedJob(0), Pending).queue.media;
    assert t.uploads == TranscribeState(ttl, TriedJob(0), Pending).uploads;
  }

  lemma NormalizeCompletes(ttl: nat)
    requires RefsOk(ResultVerifiedState(ttl))
    ensures Moves(ResultVerifiedState(ttl), CompleteOf(Normalize), TranscribeState(ttl, TriedJob(0), Pending))
  {
    hide CloseJob, TranscribeState, RefsOk;
    var s := ResultVerifiedState(ttl);
    NormalizeIsClosed(ttl);
    assert Authorize(s, WORKER, ProofOf(Normalize, 1), true) == Done(HeldJob(Normalize, 1, UploadingResult));
    assert Complete(s, WORKER, CompleteOf(Normalize).req, 5, 6).0 == TranscribeState(ttl, TriedJob(0), Pending);
  }

  lemma TranscribeIsClaimed(ttl: nat)
    requires RefsOk(TranscribeState(ttl, TriedJob(0), Pending))
    ensures Moves(TranscribeState(ttl, TriedJob(0), Pending), ClaimOf(Transcribe), TranscribeState(ttl, HeldJob(Transcribe, 1, Leased), Running))
  {
    hide RefsOk, ReopensFailedJob, Moves;
    var (s, t) := (TranscribeState(ttl, TriedJob(0), Pending), TranscribeState(ttl, HeldJob(Transcribe, 1, Leased), Running));
    assert MayClaim(s, WORKER, JobOf(Transcribe));
    assert Next(s, ClaimOf(Transcribe)).queue.jobs == t.queue.jobs && Next(s, ClaimOf(Transcribe)).meetings == t.meetings;
    MovesBy(TranscribeState(ttl, TriedJob(0), Pending), ClaimOf(Transcribe), TranscribeState(ttl, HeldJob(Transcribe, 1, Leased), Running));
  }

  lemma TextIsSigned(ttl: nat)
    requires RefsOk(TranscribeState(ttl, HeldJob(Transcribe, 1, Leased), Running))
    ensures Moves(TranscribeState(ttl, HeldJob(Transcribe, 1, Leased), Running), InitOf(Transcribe, 1), TextState(ttl, SoundUpload(ttl), {}))
  {
    hide RefsOk, ReopensFailedJob, Moves;
    var (s, t) := (TranscribeState(ttl, HeldJob(Transcribe, 1, Leased), Running), TextState(ttl, SoundUpload(ttl), {}));
    assert Authorize(s, WORKER, ProofOf(Transcribe, 1), false) == Done(HeldJob(Transcribe, 1, Leased));
    assert Next(s, InitOf(Transcribe, 1)).queue.jobs == t.queue.jobs;
    MovesBy(TranscribeState(ttl, HeldJob(Transcribe, 1, Leased), Running), InitOf(Transcribe, 1), TextState(ttl, SoundUpload(ttl), {}));
  }

  lemma TextIsStored(ttl: nat)
    requires ttl > 0 && RefsOk(TextState(ttl, SoundUpload(ttl), {}))
    ensures Moves(TextState(ttl, SoundUpload(ttl), {}), DoPut(UrlOf(UploadOf(Transcribe, 1), ttl)),
                  TextState(ttl, SoundUpload(ttl), {Artifact(4, UploadOf(Transcribe, 1))}))
  {
    hide RefsOk, ReopensFailedJob, Moves;
    MovesBy(TextState(ttl, SoundUpload(ttl), {}), DoPut(UrlOf(UploadOf(Transcribe, 1), ttl)), TextState(ttl, SoundUpload(ttl), {Artifact(4, UploadOf(Transcribe, 1))}));
  }

  lemma TextIsVerified(ttl: nat)
    requires RefsOk(TextState(ttl, SoundUpload(ttl), {Artifact(4, UploadOf(Transcribe, 1))}))
    ensures Moves(TextState(ttl, SoundUpload(ttl), {Artifact(4, UploadOf(Transcribe, 1))}), DoVerify(UploadOf(Transcribe, 1), CONTENT), TextVerifiedState(ttl))
  {
    hide RefsOk, ReopensFailedJob, Moves;
    var s := TextState(ttl, SoundUpload(ttl), {Artifact(4, UploadOf(Transcribe, 1))});
    assert s.uploads[UploadOf(Transcribe, 1) := VerifiedUpload(ttl)] == TextVerifiedState(ttl).uploads;
    MovesBy(TextState(ttl, SoundUpload(ttl), {Artifact(4, UploadOf(Transcribe, 1))}), DoVerify(UploadOf(Transcribe, 1), CONTENT), TextVerifiedState(ttl));
  }

  lemma TranscribeEnqueues(ttl: nat, result: Result, usable: bool)
    requires Linked(TextVerifiedState(ttl).queue)
    ensures WantsDiarization(TextVerifiedState(ttl).queue, 4)
    ensures Close(TextVerifiedState(ttl).queue, UploadOf(Transcribe, 1), result, usable, 0) == DiarizeState(ttl, TriedJob(0), Pending).queue
  {
    var (q, t) := (TextVerifiedState(ttl).queue, DiarizeState(ttl, TriedJob(0), Pending).queue);
    assert Active(q, 4, 1);
    assert Close(q, UploadOf(Transcribe, 1), result, usable, 0).jobs == t.jobs;
  }

  lemma TranscribeIsClosed(ttl: nat)
    requires RefsOk(TextVerifiedState(ttl)) && Linked(TextVerifiedState(ttl).queue)
    ensures CloseJob(TextVerifiedState(ttl), UploadOf(Transcribe, 1), CompleteOf(Transcribe).req, 5, 6).0 == DiarizeState(ttl, TriedJob(0), Pending)
  {
    hide RefsOk, Close, WantsDiarization, HasTranscript;
    var s := TextVerifiedState(ttl);
    TranscribeEnqueues(ttl, ResultOf(CompleteOf(Transcribe).req, 5, 6), HasTranscript(s, 1));
  }

  lemma TranscribeCompletes(ttl: nat)
    requires RefsOk(TextVerifiedState(ttl))
    ensures Moves(TextVerifiedState(ttl), CompleteOf(Transcribe), DiarizeState(ttl, TriedJob(0), Pending))
  {
    hide CloseJob, DiarizeState, RefsOk;
    var s := TextVerifiedState(ttl);
    RefsAreLinked(s);
    TranscribeIsClosed(ttl);
    assert Authorize(s, WORKER, ProofOf(Transcribe, 1), true) == Done(HeldJob(Transcribe, 1, UploadingResult));
    assert Complete(s, WORKER, CompleteOf(Transcribe).req, 5, 6).0 == DiarizeState(ttl, TriedJob(0), Pending);
  }

  lemma DiarizeMayBeClaimed(ttl: nat, attempts: nat, state: StageState)
    requires attempts < 3 && RefsOk(DiarizeState(ttl, TriedJob(attempts), state))
    ensures MayClaim(DiarizeState(ttl, TriedJob(attempts), state), WORKER, JobOf(Diarize))
    ensures var (s, t) := (DiarizeState(ttl, TriedJob(attempts), state), DiarizeState(ttl, HeldJob(Diarize, attempts + 1, Leased), Running));
            && s.queue.jobs[JobOf(Diarize) := Claimed(TriedJob(attempts), JobOf(Diarize), 7, "t", 9)] == t.queue.jobs
            && s.meetings[4 := s.meetings[4].(diarizationState := Running)] == t.meetings
  {
    hide RefsOk;
  }

  lemma DiarizeIsClaimed(ttl: nat, attempts: nat, state: StageState)
    requires attempts < 3 && RefsOk(DiarizeState(ttl, TriedJob(attempts), state))
    ensures Moves(DiarizeState(ttl, TriedJob(attempts), state), ClaimOf(Diarize), DiarizeState(ttl, HeldJob(Diarize, attempts + 1, Leased), Running))
  {
    hide RefsOk, ReopensFailedJob, Moves, MayClaim;
    DiarizeMayBeClaimed(ttl, attempts, state);
    MovesBy(DiarizeState(ttl, TriedJob(attempts), state), ClaimOf(Diarize), DiarizeState(ttl, HeldJob(Diarize, attempts + 1, Leased), Running));
  }

  lemma DiarizeFails(ttl: nat, attempt: nat)
    requires 1 <= attempt < 3 && RefsOk(DiarizeState(ttl, HeldJob(Diarize, attempt, Leased), Running))
    ensures Moves(DiarizeState(ttl, HeldJob(Diarize, attempt, Leased), Running), FailOf(Diarize, attempt), DiarizeState(ttl, TriedJob(attempt), Running))
  {
    hide RefsOk, ReopensFailedJob, Moves;
    var s := DiarizeState(ttl, HeldJob(Diarize, attempt, Leased), Running);
    assert Authorize(s, WORKER, ProofOf(Diarize, attempt), true) == Done(HeldJob(Diarize, attempt, Leased));
    assert Next(s, FailOf(Diarize, attempt)).queue.jobs == DiarizeState(ttl, TriedJob(attempt), Running).queue.jobs;
    MovesBy(DiarizeState(ttl, HeldJob(Diarize, attempt, Leased), Running), FailOf(Diarize, attempt), DiarizeState(ttl, TriedJob(attempt), Running));
  }

  lemma VoicesAreSigned(ttl: nat)
    requires RefsOk(DiarizeState(ttl, HeldJob(Diarize, 3, Leased), Running))
    ensures Moves(DiarizeState(ttl, HeldJob(Diarize, 3, Leased), Running), InitOf(Diarize, 3), VoicesSignedState(ttl))
  {
    hide RefsOk, ReopensFailedJob, Moves;
    var s := DiarizeState(ttl, HeldJob(Diarize, 3, Leased), Running);
    assert Authorize(s, WORKER, ProofOf(Diarize, 3), false) == Done(HeldJob(Diarize, 3, Leased));
    assert Next(s, InitOf(Diarize, 3)).queue.jobs == VoicesSignedState(ttl).queue.jobs;
    MovesBy(DiarizeState(ttl, HeldJob(Diarize, 3, Leased), Running), InitOf(Diarize, 3), VoicesSignedState(ttl));
  }

  lemma DiarizeIsResolved(ttl: nat)
    requires Linked(VoicesSignedState(ttl).queue)
    ensures Resolve(PutJob(VoicesSignedState(ttl).queue, JobOf(Diarize), TriedJob(3)), JobOf(Diarize), "oom", 5, true) == PartialState(ttl).queue
  {
    var (q, t) := (PutJob(VoicesSignedState(ttl).queue, JobOf(Diarize), TriedJob(3)), PartialState(ttl).queue);
    var r := Resolve(q, JobOf(Diarize), "oom", 5, true);
    assert r.runs == t.runs && r.versions == t.versions && r.jobs == t.jobs;
  }

  lemma TextIsIngested(ttl: nat)
    ensures HasTranscript(VoicesSignedState(ttl), 1)
    ensures IngestUploads(VoicesSignedState(ttl).uploads, 1, 0) == PartialState(ttl).uploads
    ensures GivenUp(VoicesSignedState(ttl).meetings[4], JobOf(Diarize), "oom", true) == PartialState(ttl).meetings[4]
  {
    var s := VoicesSignedState(ttl);
    assert U.Usable(s.uploads[UploadOf(Transcribe, 1)]);
  }

  lemma DiarizeIsGivenUp(ttl: nat)
    requires RefsOk(VoicesSignedState(ttl)) && Linked(VoicesSignedState(ttl).queue)
    ensures FailJob(VoicesSignedState(ttl), JobOf(Diarize), TriedJob(3), "oom", Some(5)) == (PartialState(ttl), Done(false))
  {
    hide RefsOk, Resolve, IngestUploads, HasTranscript, GivenUp;
    DiarizeIsResolved(ttl);
    TextIsIngested(ttl);
    assert VoicesSignedState(ttl).meetings[4 := PartialState(ttl).meetings[4]] == PartialState(ttl).meetings;
  }

  lemma RefsAreLinked(s: State)
    requires RefsOk(s)
    ensures Linked(s.queue)
  {
  }

  lemma LastDiarizeFails(ttl: nat)
    requires RefsOk(VoicesSignedState(ttl))
    ensures Moves(VoicesSignedState(ttl), FailOf(Diarize, 3), PartialState(ttl))
  {
    hide FailJob, PartialState, RefsOk;
    var s := VoicesSignedState(ttl);
    RefsAreLinked(s);
    DiarizeIsGivenUp(ttl);
    assert Authorize(s, WORKER, ProofOf(Diarize, 3), true) == Done(HeldJob(Diarize, 3, UploadingResult));
    assert Fail(s, WORKER, ProofOf(Diarize, 3), "oom", None, 0, Some(5)).0 == PartialState(ttl);
  }

  /** `normalize` and `transcribe` succeed. */
  function TranscribedRun(ttl: nat): seq<Step>
  {
    VerifiedRun(ttl)
    + [CompleteOf(Normalize)]
    + [ClaimOf(Transcribe)]
    + [InitOf(Transcribe, 1)]
    + [DoPut(UrlOf(UploadOf(Transcribe, 1), ttl))]
    + [DoVerify(UploadOf(Transcribe, 1), CONTENT)]
    + [CompleteOf(Transcribe)]
  }

  lemma TranscribedRuns(ttl: nat)
    requires ttl > 0
    ensures Reaches(Empty(ttl), TranscribedRun(ttl), DiarizeState(ttl, TriedJob(0), Pending))
  {
    hide Next, ReopensFailedJob, RefsOk, After, Clean,
         Empty, VerifiedRun, ResultVerifiedState, TranscribeState, TextState, TextVerifiedState, DiarizeState, TriedJob, HeldJob,
         SoundUpload, ClaimOf, InitOf, CompleteOf;
    VerifiedRuns(ttl);
    var (s, a) := (Empty(ttl), VerifiedRun(ttl));
    NormalizeCompletes(ttl);
    a := AndThen(s, a, ResultVerifiedState(ttl), CompleteOf(Normalize), TranscribeState(ttl, TriedJob(0), Pending));
    TranscribeIsClaimed(ttl);
    a := AndThen(s, a, TranscribeState(ttl, TriedJob(0), Pending),
                 ClaimOf(Transcribe), TranscribeState(ttl, HeldJob(Transcribe, 1, Leased), Running));
    TextIsSigned(ttl);
    a := AndThen(s, a, TranscribeState(ttl, HeldJob(Transcribe, 1, Leased), Running),
                 InitOf(Transcribe, 1), TextState(ttl, SoundUpload(ttl), {}));
    TextIsStored(ttl);
    a := AndThen(s, a, TextState(ttl, SoundUpload(ttl), {}),
                 DoPut(UrlOf(UploadOf(Transcribe, 1), ttl)), TextState(ttl, SoundUpload(ttl), {Artifact(4, UploadOf(Transcribe, 1))}));
    TextIsVerified(ttl);
    a := AndThen(s, a, TextState(ttl, SoundUpload(ttl), {Artifact(4, UploadOf(Transcribe, 1))}),
                 DoVerify(UploadOf(Transcribe, 1), CONTENT), TextVerifiedState(ttl));
    TranscribeCompletes(ttl);
    a := AndThen(s, a, TextVerifiedState(ttl), CompleteOf(Transcribe), DiarizeState(ttl, TriedJob(0), Pending));
  }

  /** `diarize` fails three times; its last attempt had begun to deliver its result. */
  function PartialRun(ttl: nat): seq<Step>
  {
    TranscribedRun(ttl)
    + [ClaimOf(Diarize)]
    + [FailOf(Diarize, 1)]
    + [ClaimOf(Diarize)]
    + [FailOf(Diarize, 2)]
    + [ClaimOf(Diarize)]
    + [InitOf(Diarize, 3)]
    + [FailOf(Diarize, 3)]
  }

  lemma PartialRuns(ttl: nat)
    requires ttl > 0
    ensures Reaches(Empty(ttl), PartialRun(ttl), PartialState(ttl))
  {
    hide Next, ReopensFailedJob, RefsOk, After, Clean,
         Empty, TranscribedRun, DiarizeState, VoicesSignedState, PartialState, TriedJob, HeldJob, ClaimOf, InitOf, FailOf;
    TranscribedRuns(ttl);
    var (s, a) := (Empty(ttl), TranscribedRun(ttl));
    DiarizeIsClaimed(ttl, 0, Pending);
    a := AndThen(s, a, DiarizeState(ttl, TriedJob(0), Pending),
                 ClaimOf(Diarize), DiarizeState(ttl, HeldJob(Diarize, 1, Leased), Running));
    DiarizeFails(ttl, 1);
    a := AndThen(s, a, DiarizeState(ttl, HeldJob(Diarize, 1, Leased), Running),
                 FailOf(Diarize, 1), DiarizeState(ttl, TriedJob(1), Running));
    DiarizeIsClaimed(ttl, 1, Running);
    a := AndThen(s, a, DiarizeState(ttl, TriedJob(1), Running),
                 ClaimOf(Diarize), DiarizeState(ttl, HeldJob(Diarize, 2, Leased), Running));
    DiarizeFails(ttl, 2);
    a := AndThen(s, a, DiarizeState(ttl, HeldJob(Diarize, 2, Leased), Running),
                 FailOf(Diarize, 2), DiarizeState(ttl, TriedJob(2), Running));
    DiarizeIsClaimed(ttl, 2, Running);
    a := AndThen(s, a, DiarizeState(ttl, TriedJob(2), Running),
                 ClaimOf(Diarize), DiarizeState(ttl, HeldJob(Diarize, 3, Leased), Running));
    VoicesAreSigned(ttl);
    a := AndThen(s, a, DiarizeState(ttl, HeldJob(Diarize, 3, Leased), Running), InitOf(Diarize, 3), VoicesSignedState(ttl));
    LastDiarizeFails(ttl);
    a := AndThen(s, a, VoicesSignedState(ttl), FailOf(Diarize, 3), PartialState(ttl));
  }

  /** The `complete` of the worker that failed it. */
  function LateVoices(): CompleteRequest { CompleteRequest(Proof(JobOf(Diarize), 3, ""), CONTENT, None) }

  lemma LateVoicesAreTaken(ttl: nat)
    requires RefsOk(PartialState(ttl))
    ensures Complete(PartialState(ttl), WORKER, LateVoices(), 5, 6).1.Done? && HasTranscript(PartialState(ttl), 1)
  {
    hide CloseJob;
    var s := PartialState(ttl);
    assert Authorize(s, WORKER, Proof(JobOf(Diarize), 3, ""), true) == Done(TriedJob(3));
    assert Complete(s, WORKER, LateVoices(), 5, 6) == CloseJob(s, UploadOf(Diarize, 3), LateVoices(), 5, 6);
    assert U.Usable(s.uploads[UploadOf(Transcribe, 1)]);
    ClosesAreTaken(s, UploadOf(Diarize, 3), LateVoices(), 5, 6);
  }

  lemma ClosesAreTaken(s: State, u: UploadId, req: CompleteRequest, transcript: Document, speakers: Document)
    requires RefsOk(s) && u in s.uploads
    ensures CloseJob(s, u, req, transcript, speakers).1.Done?
  {
  }

  lemma PartialTells(ttl: nat)
    requires RefsOk(PartialState(ttl))
    ensures var s := PartialState(ttl);
            && s.meetings.Keys == {4} && s.meetings[4].diarizationState == Failing && s.queue.versions == map[1 := Version(5, None)]
            && JobOf(Diarize) in s.queue.jobs && s.queue.jobs[JobOf(Diarize)].status == Failed && MeetingOfJob(s, JobOf(Diarize)) == 4
  {
    hide RefsOk;
  }

  lemma NextIsComplete(s: State, req: CompleteRequest)
    requires RefsOk(s)
    ensures Next(s, DoComplete(WORKER, req, 5, 6)) == Complete(s, WORKER, req, 5, 6).0
  {
    hide Complete, RefsOk;
  }

  lemma PartialIsMisreported(ttl: nat)
    requires PipelineOk(PartialState(ttl))
    ensures var (s, t) := (PartialState(ttl), Next(PartialState(ttl), DoComplete(WORKER, LateVoices(), 5, 6)));
            && 4 in s.meetings && s.meetings[4].diarizationState == Failing && t.queue == s.queue && s.queue.versions == map[1 := Version(5, None)]
            && 4 in t.meetings && t.meetings[4].diarizationState == Ready
  {
    PartialIsSound(ttl);
    hide Next, Complete, RefsOk, RunOk, PipelineOk, PartialState, HasTranscript;
    var s := PartialState(ttl);
    PartialTells(ttl);
    LateVoicesAreTaken(ttl);
    NextIsComplete(s, LateVoices());
    LateDiarizationMisreports(s, WORKER, LateVoices(), 5, 6);
  }

  lemma PartialIsSound(ttl: nat)
    requires PipelineOk(PartialState(ttl))
    ensures RefsOk(PartialState(ttl)) && RunOk(PartialState(ttl).queue, 1)
  {
    hide PartialState;
    ShapesOkIsEach(PartialState(ttl).queue, 1);
  }

  /** A system that has just started gets, cleanly, to a meeting that is said to be diarized although its transcript names nobody. */
  lemma DiarizationCanBeMisreported(ttl: nat)
    requires ttl > 0
    ensures Clean(Empty(ttl), PartialRun(ttl))
    ensures var s := After(Empty(ttl), PartialRun(ttl));
            var t := Next(s, DoComplete(WORKER, LateVoices(), 5, 6));
            && 4 in s.meetings && s.meetings[4].diarizationState == Failing && t.queue == s.queue && s.queue.versions == map[1 := Version(5, None)]
            && 4 in t.meetings && t.meetings[4].diarizationState == Ready
  {
    hide Next, ReopensFailedJob, RefsOk, PipelineOk, After, Clean, PartialRun, PartialState;
    PartialRuns(ttl);
    EverythingReachableIsOk(ttl, PartialRun(ttl));
    PartialIsMisreported(ttl);
  }

  // ---- A run that nothing finishes ---------------------------------------------------------------------------

  /** The worker has died so many times; each time its lease ran out and the sweep came by, ten milliseconds later. */
  function SweptJob(deaths: nat): Job
  {
    if deaths < 3 then Job(Queued, deaths, 3, 10 * deaths, None, None, None, None, None)
    else Job(Abandoned, 3, 3, 30, None, None, Some(7), Some("lease_expired"), None)
  }

  function DyingJob(deaths: nat): Job
  {
    Job(Leased, deaths + 1, 3, 10 * deaths, Some(TokenHash("t", JobOf(Normalize), deaths + 1, 7)), Some(10 * deaths + 9), Some(7), None, None)
  }

  function SweptState(ttl: nat, deaths: nat): State { NormalizeState(ttl, SweptJob(deaths)).(now := 10 * deaths) }

  function DyingState(ttl: nat, deaths: nat, now: int): State { NormalizeState(ttl, DyingJob(deaths)).(now := now) }

  lemma FirstIsSwept(ttl: nat)
    requires ttl > 0
    ensures Reaches(Empty(ttl), Recorded(ttl), SweptState(ttl, 0))
  {
    hide Next, ReopensFailedJob, RefsOk, After, Clean;
    RecordedRuns(ttl);
    assert SweptState(ttl, 0) == RecordedState(ttl);
  }

  lemma DyingIsClaimed(ttl: nat, deaths: nat)
    requires deaths < 3 && RefsOk(SweptState(ttl, deaths))
    ensures Moves(SweptState(ttl, deaths), ClaimOf(Normalize), DyingState(ttl, deaths, 10 * deaths))
  {
    hide RefsOk, ReopensFailedJob, Moves;
    var s := SweptState(ttl, deaths);
    assert MayClaim(s, WORKER, JobOf(Normalize));
    assert Next(s, ClaimOf(Normalize)).queue.jobs == DyingState(ttl, deaths, 10 * deaths).queue.jobs;
    MovesBy(s, ClaimOf(Normalize), DyingState(ttl, deaths, 10 * deaths));
  }

  lemma LeaseRunsOut(ttl: nat, deaths: nat)
    requires deaths < 3 && RefsOk(DyingState(ttl, deaths, 10 * deaths))
    ensures Moves(DyingState(ttl, deaths, 10 * deaths), DoTick(10), DyingState(ttl, deaths, 10 * deaths + 10))
  {
    hide RefsOk, ReopensFailedJob, Moves;
    MovesBy(DyingState(ttl, deaths, 10 * deaths), DoTick(10), DyingState(ttl, deaths, 10 * deaths + 10));
  }

  lemma DyingIsSwept(ttl: nat, deaths: nat)
    requires deaths < 3 && RefsOk(DyingState(ttl, deaths, 10 * deaths + 10))
    ensures Moves(DyingState(ttl, deaths, 10 * deaths + 10), DoSweep, SweptState(ttl, deaths + 1))
  {
    hide RefsOk, ReopensFailedJob, Moves;
    var s := DyingState(ttl, deaths, 10 * deaths + 10);
    assert Sweep(s).queue.jobs == SweptState(ttl, deaths + 1).queue.jobs;
    MovesBy(s, DoSweep, SweptState(ttl, deaths + 1));
  }

  /** Three workers die in turn at `normalize`, and each lease is swept. */
  function AbandonedRun(ttl: nat): seq<Step>
  {
    Recorded(ttl)
    + [ClaimOf(Normalize)]
    + [DoTick(10)]
    + [DoSweep]
    + [ClaimOf(Normalize)]
    + [DoTick(10)]
    + [DoSweep]
    + [ClaimOf(Normalize)]
    + [DoTick(10)]
    + [DoSweep]
  }

  lemma AbandonedRuns(ttl: nat)
    requires ttl > 0
    ensures Reaches(Empty(ttl), AbandonedRun(ttl), SweptState(ttl, 3))
  {
    hide Next, ReopensFailedJob, RefsOk, After, Clean,
         Empty, Recorded, SweptState, DyingState, ClaimOf;
    FirstIsSwept(ttl);
    var (s, a) := (Empty(ttl), Recorded(ttl));
    DyingIsClaimed(ttl, 0);
    a := AndThen(s, a, SweptState(ttl, 0), ClaimOf(Normalize), DyingState(ttl, 0, 0));
    LeaseRunsOut(ttl, 0);
    a := AndThen(s, a, DyingState(ttl, 0, 0), DoTick(10), DyingState(ttl, 0, 10));
    DyingIsSwept(ttl, 0);
    a := AndThen(s, a, DyingState(ttl, 0, 10), DoSweep, SweptState(ttl, 1));
    DyingIsClaimed(ttl, 1);
    a := AndThen(s, a, SweptState(ttl, 1), ClaimOf(Normalize), DyingState(ttl, 1, 10));
    LeaseRunsOut(ttl, 1);
    a := AndThen(s, a, DyingState(ttl, 1, 10), DoTick(10), DyingState(ttl, 1, 20));
    DyingIsSwept(ttl, 1);
    a := AndThen(s, a, DyingState(ttl, 1, 20), DoSweep, SweptState(ttl, 2));
    DyingIsClaimed(ttl, 2);
    a := AndThen(s, a, SweptState(ttl, 2), ClaimOf(Normalize), DyingState(ttl, 2, 20));
    LeaseRunsOut(ttl, 2);
    a := AndThen(s, a, DyingState(ttl, 2, 20), DoTick(10), DyingState(ttl, 2, 30));
    DyingIsSwept(ttl, 2);
    a := AndThen(s, a, DyingState(ttl, 2, 30), DoSweep, SweptState(ttl, 3));
  }

  lemma SweptIsAbandoned(ttl: nat)
    ensures NeverFinishes(SweptState(ttl, 3), JobOf(Normalize)) && Abandons(SweptState(ttl, 3).queue, JobOf(Normalize))
    ensures SweptState(ttl, 3).queue.runs[1].meeting == 4 && RunOk(SweptState(ttl, 3).queue, 1)
  {
  }

  /** A system that has just started gets, cleanly, to a run that no later history finishes, and that blocks every reprocess. */
  lemma RunsCanBeAbandoned(ttl: nat, more: seq<Step>, r: Id, diarize: Option<bool>)
    requires ttl > 0
    ensures Clean(Empty(ttl), AbandonedRun(ttl))
    ensures var t := After(Empty(ttl), AbandonedRun(ttl));
            && 1 in t.queue.runs && t.queue.runs[1].outcome.None? && StartRun(t, 4, r, diarize) == t
            && NeverFinishes(After(t, more), JobOf(Normalize))
  {
    hide Next, ReopensFailedJob, RefsOk, After, Clean, AbandonedRun, NeverFinishes, RunOk, SweptState;
    AbandonedRuns(ttl);
    SweptIsAbandoned(ttl);
    AbandonedRunsNeverFinish(SweptState(ttl, 3), more, JobOf(Normalize));
    AbandonedRunBlocksReprocess(SweptState(ttl, 3), JobOf(Normalize), r, diarize);
  }

  // ---- An honest resend that is refused -----------------------------------------------------------------------

  /** The worker completes with another content than the one that was confirmed. */
  function OtherResult(): CompleteRequest { CompleteRequest(ProofOf(Normalize, 1), U.Digested(11, "bb"), Some(PROBE)) }

  lemma OtherResultIsTaken(ttl: nat)
    requires RefsOk(ResultVerifiedState(ttl))
    ensures var s := ResultVerifiedState(ttl);
            && LeaseProven(s, WORKER, ProofOf(Normalize, 1)) && UploadOf(Normalize, 1) in s.uploads
            && s.queue.media == map[] && Replays.Recorded(s.uploads[UploadOf(Normalize, 1)]) == Some(CONTENT)
            && Complete(s, WORKER, OtherResult(), 5, 6).1.Done?
  {
    hide CloseJob;
    var s := ResultVerifiedState(ttl);
    assert Authorize(s, WORKER, ProofOf(Normalize, 1), true) == Done(HeldJob(Normalize, 1, UploadingResult));
    assert Complete(s, WORKER, OtherResult(), 5, 6) == CloseJob(s, UploadOf(Normalize, 1), OtherResult(), 5, 6);
    ClosesAreTaken(s, UploadOf(Normalize, 1), OtherResult(), 5, 6);
  }

  lemma OtherResultIsPrepared(ttl: nat, objectOk: bool)
    requires RefsOk(ResultVerifiedState(ttl))
    ensures Service.Prepared(ResultVerifiedState(ttl), WORKER, OtherResult(), objectOk, true, true) == (ResultVerifiedState(ttl), Done(true))
  {
    var s := ResultVerifiedState(ttl);
    assert Authorize(s, WORKER, ProofOf(Normalize, 1), true) == Done(HeldJob(Normalize, 1, UploadingResult));
  }

  /** A `complete` with a content nobody confirmed is let through and accepted, and the same request sent again is refused. */
  lemma HonestResendCanBeRefused(ttl: nat, objectOk: bool)
    requires ttl > 0
    ensures Clean(Empty(ttl), VerifiedRun(ttl))
    ensures var s := After(Empty(ttl), VerifiedRun(ttl));
            var (t, reply) := Complete(s, WORKER, OtherResult(), 5, 6);
            && Service.Prepared(s, WORKER, OtherResult(), objectOk, true, true) == (s, Done(true)) && reply.Done?
            && Complete(t, WORKER, OtherResult(), 5, 6).0 == t && Complete(t, WORKER, OtherResult(), 5, 6).1.Refused?
  {
    hide Next, ReopensFailedJob, RefsOk, After, Clean, VerifiedRun, ResultVerifiedState, Complete, LeaseProven;
    VerifiedRuns(ttl);
    OtherResultIsTaken(ttl);
    OtherResultIsPrepared(ttl, objectOk);
    Replays.HonestReplayIff(ResultVerifiedState(ttl), WORKER, OtherResult(), 5, 6, 5, 6);
  }

  function RejectedState(ttl: nat): State
  {
    ResultSignedState(ttl, 1).(uploads := map[UploadOf(Normalize, 1) :=
      SoundUpload(ttl).(state := U.Rejected, rejectedAt := Some(0), rejectCode := Some("object_unconfirmed"))])
  }

  lemma ResultIsRejected(ttl: nat)
    requires RefsOk(ResultSignedState(ttl, 1))
    ensures Moves(ResultSignedState(ttl, 1), DoReject(UploadOf(Normalize, 1), "object_unconfirmed"), RejectedState(ttl))
  {
    hide RefsOk, ReopensFailedJob, Moves;
    MovesBy(ResultSignedState(ttl, 1), DoReject(UploadOf(Normalize, 1), "object_unconfirmed"), RejectedState(ttl));
  }

  /** A result that was not there yet when it was confirmed. */
  function RejectedRun(ttl: nat): seq<Step>
  {
    Recorded(ttl)
    + [ClaimOf(Normalize)]
    + [InitOf(Normalize, 1)]
    + [DoReject(UploadOf(Normalize, 1), "object_unconfirmed")]
  }

  lemma RejectedRuns(ttl: nat)
    requires ttl > 0
    ensures Reaches(Empty(ttl), RejectedRun(ttl), RejectedState(ttl))
  {
    hide Next, ReopensFailedJob, RefsOk, After, Clean,
         Empty, Recorded, RecordedState, NormalizeState, TriedJob, HeldJob, ClaimOf, InitOf, ResultSignedState, RejectedState;
    NormalizeWaits(ttl);
    var (s, a) := (Empty(ttl), Recorded(ttl));
    AttemptIsClaimed(ttl, 0);
    a := AndThen(s, a, NormalizeState(ttl, TriedJob(0)), ClaimOf(Normalize), NormalizeState(ttl, HeldJob(Normalize, 1, Leased)));
    ResultIsSigned(ttl, 1);
    a := AndThen(s, a, NormalizeState(ttl, HeldJob(Normalize, 1, Leased)), InitOf(Normalize, 1), ResultSignedState(ttl, 1));
    ResultIsRejected(ttl);
    a := AndThen(s, a, ResultSignedState(ttl, 1), DoReject(UploadOf(Normalize, 1), "object_unconfirmed"), RejectedState(ttl));
  }

  /** A rejected upload passes confirmation later on, and its `complete` is let through with the row still rejected. */
  lemma RejectedResultIsLetThrough(ttl: nat)
    requires ttl > 0
    ensures Clean(Empty(ttl), RejectedRun(ttl))
    ensures var s := After(Empty(ttl), RejectedRun(ttl));
            && UploadOf(Normalize, 1) in s.uploads && s.uploads[UploadOf(Normalize, 1)].state == U.Rejected
            && Service.Prepared(s, WORKER, CompleteOf(Normalize).req, true, true, true) == (s, Done(true))
  {
    RejectedRuns(ttl);
    var s := RejectedState(ttl);
    RejectedIsPrepared(ttl);
  }

  lemma RejectedIsPrepared(ttl: nat)
    requires RefsOk(RejectedState(ttl))
    ensures Service.Prepared(RejectedState(ttl), WORKER, CompleteOf(Normalize).req, true, true, true) == (RejectedState(ttl), Done(true))
  {
    var s := RejectedState(ttl);
    assert Authorize(s, WORKER, ProofOf(Normalize, 1), true) == Done(HeldJob(Normalize, 1, UploadingResult));
    assert VerifyUpload(s, UploadOf(Normalize, 1), CONTENT).uploads == s.uploads;
  }

  // ---- A resend that is answered otherwise -------------------------------------------------------------------

  lemma NormalizeIsAnswered(ttl: nat)
    requires RefsOk(ResultVerifiedState(ttl))
    ensures Complete(ResultVerifiedState(ttl), WORKER, CompleteOf(Normalize).req, 5, 6)
            == (TranscribeState(ttl, TriedJob(0), Pending), Done(Completed(Some(JobOf(Transcribe)), false, None)))
  {
    hide CloseJob, TranscribeState, RefsOk;
    var (s, req) := (ResultVerifiedState(ttl), CompleteOf(Normalize).req);
    NormalizeIsClosed(ttl);
    CloseAnswersNormalize(s, UploadOf(Normalize, 1), req, 5, 6);
    assert Authorize(s, WORKER, ProofOf(Normalize, 1), true) == Done(HeldJob(Normalize, 1, UploadingResult));
  }

  lemma CloseAnswersNormalize(s: State, u: UploadId, req: CompleteRequest, transcript: Document, speakers: Document)
    requires RefsOk(s) && u in s.uploads && u.job in s.queue.jobs && u.job.stage == Normalize
    ensures CloseJob(s, u, req, transcript, speakers).1 == Done(Completed(Some(JobId(u.job.run, Transcribe)), false, None))
  {
    hide Close, HasTranscript, ClosedUploads;
  }

  lemma NormalizeIsAnsweredAgain(ttl: nat)
    requires RefsOk(TranscribeState(ttl, TriedJob(0), Pending))
    ensures Complete(TranscribeState(ttl, TriedJob(0), Pending), WORKER, CompleteOf(Normalize).req, 5, 6)
            == (TranscribeState(ttl, TriedJob(0), Pending), Done(Completed(Some(JobOf(Transcribe)), true, None)))
  {
    hide CloseJob, RefsOk;
    var (t, req) := (TranscribeState(ttl, TriedJob(0), Pending), CompleteOf(Normalize).req);
    assert Quantised(1.0) == 1.0;
    assert Authorize(t, WORKER, ProofOf(Normalize, 1), true) == Done(DoneJob());
    assert PayloadError(t, UploadOf(Normalize, 1), req) == None;
  }

  /** The first `complete` says that nothing was ingested; the same request sent again is told that something was. */
  lemma ResendIsToldOtherwise(ttl: nat)
    requires ttl > 0
    ensures Clean(Empty(ttl), VerifiedRun(ttl))
    ensures var (s, req) := (After(Empty(ttl), VerifiedRun(ttl)), CompleteOf(Normalize).req);
            var (t, first) := Complete(s, WORKER, req, 5, 6);
            && first == Done(Completed(Some(JobOf(Transcribe)), false, None))
            && Complete(t, WORKER, req, 5, 6) == (t, Done(Completed(Some(JobOf(Transcribe)), true, None)))
  {
    hide Next, ReopensFailedJob, RefsOk, After, Clean, VerifiedRun, ResultVerifiedState, TranscribeState, Complete;
    VerifiedRuns(ttl);
    NormalizeIsAnswered(ttl);
    NormalizeIsAnsweredAgain(ttl);
  }
}
