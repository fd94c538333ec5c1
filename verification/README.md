# Verification of the meetings pipeline and its accounting

A Dafny model of the parts of the system whose correctness depends on order, time or
arithmetic, with proofs of what they promise. `dafny verify dfyconfig.toml` checks all of it.

## What is modelled

**The meetings job pipeline.** Meetings, processing runs, jobs, uploads, derived media and
transcript versions are one value, `PipelineState.State`. Each transaction of the service is a
function on it, and so are the passing of time, the use of a signed upload URL, the expiry sweep,
cancellation and each step of a deletion; `PipelineState.Step` lists the 22 of them and any
interleaving is a run. Rows and UPDATE statements are in `JobRows` and `UploadRows`, the queue's part of each
transaction in `JobQueue`, the invariant in `QueueInvariant` and `PipelineInvariant`, what holds of one run
whatever becomes of the others in `RunInvariant`, how states
develop in `QueueProgress`, `PipelineProgress` and `PipelineTraces`, leases in `LeaseSafety` and how long
they last in `LeaseTime`, what each transaction writes and refuses on its rows in `RowEffects`, who may touch
what in `Tenants`, repeated requests in `Replays` and `LaterReplays`, the answers of a `complete` in `CompleteReplies`, outcomes in `OutcomeTruth`, deletion in `DeletionProtocol`, and whole runs
from an empty installation in which a promise fails in `FailingRuns`. `PipelineService` is the code
of the service, a class whose methods update the tables statement by statement, each proved to do
exactly the transaction of its name, or, for the preparation of a `complete`, a sequence of steps.
The remaining steps (creating a meeting, refusing a medium, a reprocess, each step of a purge, the
use of a URL, time) have no method there and are steps only. `LeaseToken` and `StorageKeys` justify reading hashes and
keys as records of their fields.

**The purge of one meeting** (`PurgeLoop`), against a store that may page as it likes, fail,
refuse deletions and be written to meanwhile.

**Turn-to-segment alignment** (`Words`, `Transcript`, `Ranking`, `Alignment`, `AlignmentLaws`,
`BlockTimes`, `BlockLabels`, `TalkShare`, `ArtifactRoundTrip`), from decoded records to labelled blocks and talk shares.

**Accounting and bounds**: the token bucket (`RateLimiter`), the ingestion cursor (`Ingestion`),
the invoice split (`BillingSplit`, `BillingLaws`), the cost dashboard (`CostDashboard`).

## Where the code falls short

Each of these is kept as the code has it; for all but the last, which is about a comment, the lemmas named give an
input and the exact condition.

1. A `complete` on a job that has failed for good is let through (`src/meetings/service.ts:664`),
   although the comment at 1034-1038 says it is refused, and the result of `markSucceeded` is
   ignored at 1123. The invariant survives every step except exactly this one, when it changes the
   queue (`PipelineInvariant.NextKeepsPipelineIff`, and `RunInvariant.NextKeepsRunIff` for one run); `FailingRuns.FailedJobCanBeReopened` is a run from
   an empty installation to that step. When it does not change the queue, the meeting's row can still
   be made to say that a diarization which gave up is ready (`OutcomeTruth.LateDiarizationMisreports`),
   and `FailingRuns.DiarizationCanBeMisreported` is a run to that.
2. The sweep abandons a job exactly when its lease expires on the last attempt
   (`OutcomeTruth.SweepAbandonsLastAttempts`), without finishing its run; nothing but a
   cancellation or a deletion ever does, and no reprocess is accepted until then
   (`OutcomeTruth.AbandonedRunsNeverFinish`, `OutcomeTruth.AbandonedRunBlocksReprocess`;
   `FailingRuns.RunsCanBeAbandoned` is a run to it).
3. An upload already verified is not compared with the request again
   (`src/meetings/service.ts:1040`), so an honest resend can be refused
   (`Replays.HonestReplayIff`, `LaterReplays.LaterReplayIff`; `FailingRuns.HonestResendCanBeRefused`
   is a run to it); and a rejected one passes confirmation without becoming verified
   (`PipelineService.PreparedVerifiesIff`; `FailingRuns.RejectedResultIsLetThrough`).
4. `result/init` on a verified upload signs a URL that the statement recording expiries skips, so
   the deletion deadline can miss it and an object can outlive its meeting
   (`DeletionProtocol.NextKeepsStoreIff`; `FailingRuns.OrphanAudioIsPossible` is a whole run).
5. A block of several words can end before it starts, by less than a millisecond per word, and one
   at the very beginning can start before zero; the segments table refuses such rows, and with them
   the whole transcript (`BlockTimes.BlocksCanEndBeforeTheyStart`, `BlockTimes.BlocksCanStartBeforeZero`).
   A segment's blocks are accepted exactly when each run of equally labelled words, as stored, runs
   forward from zero (`BlockTimes.SegmentAcceptedIff`); which words can be turned back by some turns is
   `BlockTimes.BackwardBlockPossibleIff`.
6. An execution stored by a poll that crashed before moving the cursor can be counted as an error
   by the next one (`Ingestion.BothIffCrashed`; `Ingestion.StoredAndErrored` are three polls that do it).
7. A day whose shared part is negative is dropped from the invoice split (`BillingSplit.SplitBilling`;
   `BillingSplit.NegativeLineIsLost` is such a day). `splitBilling` takes it, but the parser of the
   billing pages never reads a negative line (`BillingSplit.ReadLinesAreConserved`).
8. With a clock that goes back, a refused call refills its bucket twice, unless the bucket was full
   (`RateLimiter.RefusalInvisibleIff`; `RateLimiter.ClockGoingBackGrants` are such calls).
9. The label a block is emitted with need not be its words', when there is a gap between them
   (`AlignmentLaws.GapsCanChangeTheLabel`); it is exactly when that label is heard most over the words
   and the gaps together (`BlockLabels.BlockKeepsLabelIff`).
10. A resend of a `complete` is always answered `ingested: true` and the meeting's transcript of the day
   (`src/meetings/service.ts:1115-1120`), whatever the first answer was: the two agree exactly when the
   first one ingested and no later run has replaced its transcript (`CompleteReplies.LaterAnswerIff`;
   `FailingRuns.ResendIsToldOtherwise` is a run to two different answers).
11. The comment on `createMeeting` speaks of a `{diarize: false}` option; `uploadComplete` writes only the speaker count, so a
   first run always asks for diarization.

## Assumptions

- A transaction is atomic, and rows are the ones its repository functions read and write
  (`src/db/repositories/meetings/*.ts`); primary keys are never reused.
- A signed URL works while the clock is before its expiry and can be used by anyone holding it.
- A listing without a cursor is empty only when nothing is under the prefix.
- SHA-256 is injective; ids contain no `|`; `localeCompare` orders distinct labels strictly.
- An execution listing is newest first and no id turns up late below the cursor.
- The rate limiter's clock does not go back; its rules have a non-negative burst and a positive refill.
- Times, money and tokens per second are real numbers.

## Model

| member | source | states |
|---|---|---|
| `JobRows.StatementsKeepRowOk` | migrations/1783500000000_meetings-core.ts:520-547 | every UPDATE on a job row keeps the lease, failure and attempt CHECKs, and a fresh row meets them |
| `UploadRows.StatementsKeepRowOk` | migrations/1783800000000_meetings-result-uploads.ts:171-206 | `markVerified`, `markIngested` and `markRejected` keep the per-state columns and the order of the instants |
| `UploadRows.InitKeepsRowOk` | src/db/repositories/meetings/artifacts.ts:71-177 | `result/init` keeps them too, on a new row and on one in any state |
| `QueueInvariant.UnsettledIsOpen` | migrations/1783500000000_meetings-core.ts:391-489 | a queued or leased job is the one open stage of an unfinished run: every other job of the run has succeeded, no later stage exists, no version is written |
| `QueueInvariant.ResolveKeepsQueue` | src/meetings/service.ts:824-846 | a terminal failure keeps run shapes, outcomes, rows, media and the one-active-run index |
| `QueueInvariant.CloseKeepsQueue` | src/meetings/service.ts:1108-1220 | closing a leased job keeps them, whichever stage it is and whether or not speakers were asked for |
| `QueueInvariant.ClosingFailedKeepsIff` | src/meetings/service.ts:664-670 | closing a job that had failed for good keeps them if and only if it changes nothing at all |
| `PipelineInvariant.NextKeepsUploadRows` | src/db/repositories/meetings/artifacts.ts:71-216 | every step, ticks included, keeps every upload row well formed |
| `PipelineInvariant.CompleteKeepsQueueIff` | src/meetings/service.ts:1101-1220 | an accepted `complete` keeps the queue invariant if and only if it does not close a failed job |
| `PipelineInvariant.NextKeepsPipelineIff` | src/meetings/service.ts:338-398 | every one of the 22 steps keeps the whole invariant, except exactly the step that reopens a failed job |
| `RunInvariant.NextKeepsRunIff` | src/meetings/service.ts:664-670 | every step keeps the shape of a given run, whatever state the other runs are in, if and only if it does not reopen a failed job of that run |
| `RunInvariant.NextKeepsRows` | migrations/1783500000000_meetings-core.ts:520-547 | every step, the reopening one included, keeps the CHECKs on all job rows |
| `RunInvariant.NextKeepsOneActive` | migrations/1783500000000_meetings-core.ts:391-393 | every step, the reopening one included, keeps at most one unfinished run per meeting |
| `PipelineTraces.RunKeepsItsShape` | src/meetings/service.ts:338-398 | over any steps that do not reopen a failed job of a run, that run keeps its shape: one open stage, earlier ones succeeded, later ones absent, and a true outcome |
| `PipelineTraces.CleanIsEach` | src/meetings/service.ts:664-670 | a history is free of reopened jobs if and only if it is free of them in every run |
| `FailingRuns.FailedJobCanBeReopened` | src/meetings/service.ts:1034-1038 | from an empty installation, a meeting, its upload and three failed attempts lead to a state that meets the invariant and in which one late `complete`, carrying no token, breaks it: the comment at the cited lines says this cannot happen |
| `PipelineTraces.EverythingReachableIsOk` | src/meetings/service.ts:338-398 | from the empty system, every state reached by any interleaving without that step meets the invariant |
| `QueueProgress.CloseNext` | src/meetings/service.ts:1123-1220 | a close only grows attempts, keeps leases, outcomes and versions written before, and starts new rows at attempt 0 |
| `PipelineProgress.NextProgress` | src/meetings/service.ts:443-517 | every step does: attempts only grow, settled rows do not move, run ids are never reused, time does not go back |
| `PipelineProgress.CompleteClosesOrNothing` | src/meetings/service.ts:1101-1123 | a `complete` either changes nothing or is the closing of the attempt it names |
| `PipelineTraces.SucceedsAtMostOnce` | src/meetings/service.ts:1123-1123 | over any run of the service each job succeeds at most once, and a settled one never again |
| `PipelineTraces.IngestsAtMostOnce` | migrations/1783600000000_meetings-transcript.ts:70-70 | each processing run ingests at most one transcript version, over any run of the service |
| `PipelineTraces.HistoryIsWrittenOnce` | src/db/repositories/meetings/transcripts.ts:65-120 | a version and an outcome, once written, are never rewritten while the run exists |
| `PipelineTraces.RunsComeToRest` | src/db/repositories/meetings/jobs.ts:217-430 | over any steps at all, from any state whose job rows meet their CHECKs, the moves of a run are at most its fuel, which every move spends and which is at most thirty |
| `PipelineTraces.AtMostNineClaims` | migrations/1783500000000_meetings-core.ts:488-547 | over any steps at all a run is claimed at most nine times, less the attempts already made |
| `LeaseSafety.JobsMoveOnlyByRight` | src/meetings/service.ts:646-687 | a job's row changes only by a claim, under the current attempt's proven live lease, by its expiry or by cancellation |
| `LeaseSafety.LostForever` | src/meetings/service.ts:656-663 | a lost lease stays lost, whatever anyone does later |
| `LeaseSafety.StaleWorkersNeverWin` | src/meetings/service.ts:646-687 | after a lease is lost, in every later state its holder's heartbeat and init are refused and its `fail` changes nothing; so does its `complete` while the job has not failed, and while the run is sound a `complete` leaves the queue alone if and only if it does not reopen a failed job |
| `LeaseSafety.LeaseEndsInLost` | src/meetings/service.ts:1556-1588 | after any step a proven lease is either lost or still held with the same attempt, token and holder |
| `LeaseTime.HeartbeatRenews` | src/db/repositories/meetings/jobs.ts:281-299 | a heartbeat is accepted if and only if the lease is proven; then the row's expiry is the answered one, now plus the lease time, no other field and no other row changes, and the cancellation signal is that of the job's meeting |
| `LeaseTime.RenewedLeaseLasts` | src/meetings/service.ts:711-718 | whatever anyone does after an accepted heartbeat, before the answered expiry the holder is never refused for time, is let through as long as its attempt has not ended, and the sweep leaves the job alone; later heartbeats renew for no less |
| `LeaseTime.ClaimedLeaseLasts` | src/db/repositories/meetings/jobs.ts:251-266 | the same of the lease that a claim hands out |
| `LeaseTime.OnlyTheHolderEndsIt` | src/meetings/service.ts:646-687 | before its expiry a lease ends only by a `fail` or `complete` with its credential and token, or with its meeting cancelled or deleted |
| `Tenants.ClaimTakes` | src/db/repositories/meetings/jobs.ts:221-267 | a claim takes a job if and only if it is queued, due and has attempts left, its meeting lives, and the worker transcribes and, if bound to a tenant, to the meeting's; it writes the next attempt, the credential, a token bound to both and the expiry, and the running state |
| `Tenants.TenantTouchesOwn` | src/meetings/service.ts:653-655 | in any state, a step of a worker bound to one tenant, or of its users, changes no row, upload, URL or object of a meeting of another |
| `Tenants.TenantsAreIsolated` | src/meetings/service.ts:476-476 | so over any sequence of such steps everything of every other tenant's meetings stays as it was |
| `RowEffects.AuthorizeAnswers` | src/meetings/service.ts:625-687 | which requests on a lease get which answer: a stranger the same as for a job that does not exist, its own worker the attempt first, then the state, the token and the time |
| `RowEffects.ResultInitWrites` | src/meetings/service.ts:871-944 | accepted if and only if lease, meeting and size allow it; the URL is of this attempt's artifact, its expiry and the declared content are on the upload's row unless that was verified, and the job is uploading |
| `RowEffects.FailWritesRow` | src/db/repositories/meetings/jobs.ts:341-366 | with attempts left a failed job goes back to the queue without its holder, due at the retry time, and nothing else changes; otherwise it has failed and keeps its holder; the detail kept is the first 2000 characters |
| `RowEffects.NobodyRetriesEarly` | src/db/repositories/meetings/jobs.ts:356-358 | whatever happens after such a failure, nobody can claim the job before its retry time |
| `RowEffects.LastFailureTells` | src/meetings/service.ts:824-846 | what the last failure makes of the meeting: a failed `diarize` leaves the transcript ready if one is at hand, anything else leaves it failed, and the warning names stage and cause; without a readable transcript a `diarize` cannot give up |
| `RowEffects.SweepWrites` | src/db/repositories/meetings/jobs.ts:399-415 | the sweep changes exactly the rows whose lease has expired, field by field |
| `RowEffects.SweptIsTakable` | src/db/repositories/meetings/jobs.ts:408-412 | a job put back by the sweep can be claimed at once |
| `RowEffects.CancelWrites` | src/meetings/service.ts:1590-1627 | a cancellation settles the meeting's waiting and leased jobs and its unfinished run, and nothing of another meeting |
| `RowEffects.UploadInitWrites` | src/meetings/service.ts:184-241 | a URL is handed out if and only if tenant, client and state of the meeting allow it, and the row remembers the latest expiry of all |
| `RowEffects.UploadCommitWrites` | src/meetings/service.ts:338-398 | the meeting has its medium and an unfinished run with a first job: the active one, or a new one whose row is due at once |
| `RowEffects.AcceptedBrings` | src/meetings/normalizedAudio.ts:75-104 | an accepted `complete` of `normalize` brings 16 kHz mono 16-bit PCM, of another stage no probe |
| `RowEffects.CloseTellsMeeting` | src/meetings/service.ts:1384-1480 | what a close makes of the meeting's row: nothing while the run goes on, a ready transcript with or without speakers at its end, or a missing one |
| `RowEffects.VersionIngestsUploads` | src/meetings/service.ts:1439-1440 | with a new version exactly the verified uploads of its run become ingested |
| `LeaseToken.BindingIsInjective` | src/meetings/leaseToken.ts:57-61 | the digested text tells secret, job, attempt and credential apart, even for a secret that contains bars |
| `LeaseToken.VerifiesOnlyItsOwn` | src/meetings/leaseToken.ts:73-84 | a token verifies against a stored hash if and only if it is the minted secret with the same binding, and 1 to 512 characters long |
| `LeaseToken.DigestedText` | src/meetings/leaseToken.ts:57-61 | what is digested, from left to right |
| `Replays.QuantisedNear` | src/meetings/service.ts:1353-1356 | quantising moves a duration by at most half a millisecond |
| `Replays.QuantisedIdempotent` | src/meetings/service.ts:1353-1356 | quantising twice is quantising once |
| `Replays.CompleteReplay` | src/meetings/service.ts:1024-1033 | on a succeeded job `complete` never writes, and is accepted if and only if credential, attempt, tenant, content and probe are the recorded ones |
| `Replays.HonestReplayIff` | src/meetings/service.ts:1040-1064 | an accepted `complete` sent again changes nothing, and is accepted if and only if the content on record before it was its own |
| `Replays.ConfirmedReplayAccepted` | src/meetings/service.ts:1278-1340 | with its upload freshly confirmed for its own content the resend is always accepted |
| `LaterReplays.LaterReplayIff` | src/meetings/service.ts:1278-1356 | in any later state in which the job still exists, a resend of an accepted `complete` changes nothing and is accepted if and only if the content on record by then is its own; its probe always matches |
| `LaterReplays.LaterFailReplay` | src/meetings/service.ts:747-779 | in any later state in which the job still exists, a terminal `fail` sent again is accepted and changes nothing |
| `LaterReplays.MediaSettledLasts` | src/meetings/service.ts:1143-1160 | over any steps at all no derived medium belongs to a job that is queued or leased |
| `FailingRuns.HonestResendCanBeRefused` | src/meetings/service.ts:1040-1064 | a run from an empty installation in which a `complete` with a content nobody confirmed is let through and accepted, and refused when sent again |
| `FailingRuns.RejectedResultIsLetThrough` | src/meetings/service.ts:1040-1064 | a run from an empty installation in which a rejected upload passes confirmation and stays rejected |
| `CompleteReplies.ReplyTellsTheRun` | src/meetings/service.ts:1139-1238 | the answer to an accepted `complete` from a proven lease names a next job if and only if the step queued it: new, of the same run and its open stage; none if and only if the run is finished; `ingested` if and only if the version is new; a transcript if and only if the run has one |
| `CompleteReplies.DiarizeFollowsUnlessDeclined` | src/meetings/service.ts:1192-1211 | after `transcribe` the next job is `diarize`, unless the run's own options say no diarization |
| `CompleteReplies.ReplayTells` | src/meetings/service.ts:1108-1121 | a resend on a closed job is told the run's job of the stage right after it, if it exists, and the meeting's transcript |
| `CompleteReplies.NextStageIsSettled` | src/meetings/service.ts:1358-1367 | over any steps, whether the following stage has a job does not change once a job is closed |
| `CompleteReplies.LaterAnswerIff` | src/meetings/service.ts:1108-1121 | a resend accepted at any later time is told the same next job as the first answer; the whole answer is the first one if and only if that one ingested and the meeting's transcript is still its run's |
| `FailingRuns.ResendIsToldOtherwise` | src/meetings/service.ts:1115-1120 | a run from an empty installation to a `normalize` that ingests nothing and whose resend is told that something was |
| `Replays.FailReplay` | src/meetings/service.ts:747-779 | on a failed job `fail` never writes, and is accepted if and only if it repeats the stored code and the stored, truncated detail |
| `Replays.FailThenReplay` | src/meetings/service.ts:781-801 | a terminal failure sent again is accepted and changes nothing; one that was requeued is refused |
| `OutcomeTruth.EndingTells` | src/meetings/service.ts:1384-1473 | the transaction that ends a run leaves outcome, version, transcript and diarization state, active transcript and warnings in agreement |
| `OutcomeTruth.SuccessHoldsItsDocuments` | src/meetings/service.ts:1191-1220 | a run that succeeds holds exactly the documents of its last `complete`, and lacks speakers only if it had asked for none |
| `OutcomeTruth.OutcomesTellTheTruth` | src/meetings/service.ts:824-846 | in every state reached without reopening a failed job of the run itself: succeeded means its version exists and diarization is done or was not asked for, partial means a version without speakers and a `diarize` that failed three times, anything else means no version, and unfinished means exactly one open stage |
| `OutcomeTruth.SweepAbandonsLastAttempts` | src/db/repositories/meetings/jobs.ts:399-416 | the sweep abandons exactly the leases expired on their last attempt, and finishes no run |
| `OutcomeTruth.AbandonedRunsNeverFinish` | src/meetings/service.ts:1568-1582 | over any later steps at all, a sound run with an abandoned job is never finished except by its cancellation, never gets a transcript, or is gone with its meeting |
| `OutcomeTruth.AbandonedRunBlocksReprocess` | migrations/1783500000000_meetings-core.ts:391-393 | and until then every reprocess of that meeting is refused |
| `FailingRuns.RunsCanBeAbandoned` | src/meetings/service.ts:1568-1582 | a run from an empty installation, with three leases swept, to an unfinished run that no later steps finish and that blocks every reprocess |
| `OutcomeTruth.LateDiarizationMisreports` | src/meetings/service.ts:1211-1220 | a late `complete` of a diarization that gave up leaves the queue alone; the meeting then says that diarization is ready if and only if the run's transcript is still usable or it said so already |
| `FailingRuns.DiarizationCanBeMisreported` | src/meetings/service.ts:1211-1220 | a run from an empty installation, clean up to its last step, to a meeting whose diarization is said to be ready although its only transcript names nobody |
| `DeletionProtocol.NextKeepsStoreIff` | src/meetings/service.ts:879-926 | every step keeps a meeting's deletion invariant if and only if it does not sign an upload URL whose expiry no row keeps |
| `DeletionProtocol.NoOrphanAudio` | migrations/1784200000000_meetings-deletion.ts:15-36 | once a meeting has been deleted nothing is under its prefix, then or in any later state, and all its URLs have expired, although URLs cannot be revoked |
| `DeletionProtocol.DeletedStays` | src/db/repositories/meetings/deletion.ts:212-224 | a deleted meeting stays deleted, so the above is about every later state |
| `DeletionProtocol.ResultInitKeepsStoreIff` | src/db/repositories/meetings/artifacts.ts:80-104 | `result/init` signs an unrecorded URL exactly when its upload is already verified or ingested and the recorded expiry is earlier than the new one |
| `FailingRuns.OrphanAudioIsPossible` | src/db/repositories/meetings/artifacts.ts:80-82 | for every positive lifetime of a URL, a run of 18 steps from an empty installation that leaves an object of a deleted meeting in the store |
| `PipelineService.MeetingsService.constructor` | migrations/1783500000000_meetings-core.ts:1-30 | a new installation: the empty state, which meets the invariant |
| `PipelineService.MeetingsService.AuthorizeLease` | src/meetings/service.ts:646-687 | the refusals in the order of the code |
| `PipelineService.MeetingsService.UploadInit` | src/meetings/service.ts:184-241 | the statements do the transaction of that name; a rejected medium or checksum is refused, in that order, only when nothing else is, and changes nothing |
| `PipelineService.MeetingsService.UploadCommit` | src/meetings/service.ts:338-398 | original row, media state, run and first job; an active run is reused |
| `PipelineService.MeetingsService.Claim` | src/meetings/service.ts:443-545 | of the jobs this worker may take and that no other transaction has locked, one that has waited longest is claimed; none is if and only if there is none, and then nothing changes |
| `PipelineService.MeetingsService.Heartbeat` | src/meetings/service.ts:693-719 | accepted if and only if the lease is proven and the progress a whole percentage; then the row's expiry is the answered one and the signal that of the meeting; otherwise nothing is renewed |
| `PipelineService.MeetingsService.ResultInit` | src/meetings/service.ts:871-944 | the URL, the upload row and the uploading state |
| `PipelineService.MeetingsService.IngestRun` | src/meetings/service.ts:1384-1490 | version, artifacts, meeting row and outcome; `ingested` says whether the version is new |
| `PipelineService.MeetingsService.ResolveTerminalFailure` | src/meetings/service.ts:824-846 | the partial outcome of `diarize`, the failed one of the other stages, and the aborted transaction when the stored transcript no longer parses |
| `PipelineService.MeetingsService.Fail` | src/meetings/service.ts:726-804 | terminal replays, requeue and terminal failure |
| `PipelineService.MeetingsService.ComparePayload` | src/meetings/service.ts:1278-1344 | the field by field comparison is equality of the recorded content and the quantised probe |
| `PipelineService.MeetingsService.PrepareComplete` | src/meetings/service.ts:980-1094 | the requests' checks, confirmation and parsing before the transaction |
| `PipelineService.PreparedIsSteps` | src/meetings/service.ts:980-1094 | what the preparation does is nothing, a verdict, or a confirmation that the parser then rejects: at most two steps of the protocol |
| `PipelineService.PreparedVerifiesIff` | src/meetings/service.ts:1040-1064 | a `complete` let through has a verified upload if and only if the row was verified or freshly declared; only the latter is compared with the request |
| `PipelineService.MeetingsService.ResultComplete` | src/meetings/service.ts:1098-1232 | the closing transaction: authorised again, replayed, or closed stage by stage; `CompleteReplies` says what the answer means |
| `PipelineService.MeetingsService.RequeueExpiredLeases` | src/meetings/service.ts:1556-1588 | only an internal maintenance credential sweeps; the counts are those of the jobs requeued and abandoned |
| `PipelineService.MeetingsService.CancelMeeting` | src/meetings/service.ts:1590-1627 | every unsettled job, which the reply counts, and the active run are cancelled; the reply says whether the meeting had not been cancelled before, and a meeting out of scope is not found |
| `PipelineService.CancelIsStep` | src/meetings/service.ts:1590-1627 | the new state that `CancelMeeting` names is the step of the protocol |
| `PipelineService.MeetingsService.RequestDeletion` | src/db/repositories/meetings/deletion.ts:86-133 | the deadline is the latest of now and every recorded expiry; only one of several calls reserves |
| `PurgeLoop.Store.ListPrefix` | src/storage/privateObjectStore.ts:183-191 | the assumption on any paging store: keys under the prefix, and some of them if there is no cursor and there are any |
| `PurgeLoop.Store.DeleteMany` | src/storage/privateObjectStore.ts:193-199 | the assumption on batch deletion: refused keys come back and are counted out |
| `PurgeLoop.DeletePage` | src/meetings/deletion.ts:174-191 | a page goes in batches of at most a thousand, each key once, stopping at the first refusal |
| `PurgeLoop.EmptyPrefix` | src/meetings/deletion.ts:167-195 | the page loop ends, deletes under the prefix only, and empties a quiet, sound store unless it holds more objects than pages are allowed |
| `PurgeLoop.PurgeMeeting` | src/meetings/deletion.ts:138-231 | the row goes if and only if the final listing was empty and the row was due; found equals deleted whenever a listing was reached; no key of another meeting is deleted |
| `PurgeLoop.DueIsDeleteRow` | src/db/repositories/meetings/deletion.ts:212-224 | the row of the purge goes exactly when the protocol's step that deletes it does something |
| `PurgeLoop.NotTooEarlyIsStart` | src/meetings/deletion.ts:151-153 | a purge that is not too early is one the protocol lets start, and one that is too early is not |
| `PurgeLoop.PurgeIsSteps` | src/meetings/deletion.ts:167-205 | deleting keys of the prefix is a sequence of protocol steps after which the prefix is empty exactly when all its objects were among them |
| `StorageKeys.PrefixesAreDisjoint` | src/meetings/storageKeys.ts:104-110 | no key lies under the prefixes of two meetings |
| `StorageKeys.ArtifactKeyIsInjective` | src/meetings/storageKeys.ts:128-134 | meeting, run, attempt and role can be read back from an artifact's key |
| `StorageKeys.KeysBelongToTheirMeeting` | src/meetings/storageKeys.ts:117-150 | every key belongs to its own meeting and to no other, and the original is no artifact |
| `StorageKeys.KeysRead` | src/meetings/storageKeys.ts:104-134 | the keys of lower-case ids as they are written, and which requests for one are refused |
| `Text.DecimalIsInjective` | src/meetings/storageKeys.ts:90-95 | the attempt's decimal text determines it |
| `Text.DecimalReads` | src/meetings/storageKeys.ts:90-95 | the text reads as the number, without a leading zero |
| `Words.TokensCover` | src/meetings/artifacts.ts:459-467 | tokens hold every character that is not a space, and no space |
| `Words.TrimTakesEnds` | src/meetings/artifacts.ts:536-540 | what a word is compared by: its text without the spaces at both ends, and nothing else is lost |
| `Words.SliceKeepsWords` | src/meetings/artifacts.ts:526-559 | cutting a text from one token's start to another's end keeps exactly the words in between |
| `Words.Tokenize` | src/meetings/artifacts.ts:459-467 | the match loop computes the tokens |
| `Transcript.ParseWords` | src/meetings/artifacts.ts:168-208 | words are accepted if and only if they are well formed, inside the segment and in order to within a millisecond |
| `Transcript.ParseTranscript` | src/meetings/artifacts.ts:210-298 | accepted if and only if head, lines, dense indices and declared count are right; the code of every refusal |
| `Transcript.ParseDiarization` | src/meetings/artifacts.ts:300-355 | the same for turns |
| `Transcript.AcceptedTurnsAreOk` | src/meetings/artifacts.ts:300-355 | no accepted turn ends before it starts, whatever the collation order |
| `Transcript.AcceptedIsSound` | src/meetings/artifacts.ts:276-296 | what the alignment may rely on for an accepted transcript |
| `ArtifactRoundTrip.TranscriptComesBack` | src/meetings/artifacts.ts:210-298 | every transcript written out from segments in order is accepted and read back as it was |
| `ArtifactRoundTrip.OnlyProperIsRead` | src/meetings/artifacts.ts:210-298 | and nothing else is ever read |
| `ArtifactRoundTrip.ReadingTwiceIsReadingOnce` | src/meetings/artifacts.ts:210-298 | writing out what was read from any accepted artifact gives one that is accepted and reads the same |
| `ArtifactRoundTrip.DiarizationComesBack` | src/meetings/artifacts.ts:300-355 | the same round trip for turns, from either back end |
| `Ranking.RankLabels` | src/meetings/artifacts.ts:425-440 | the label with most overlap, ties to the smaller one, and the seconds of the second |
| `Ranking.RankIsUnique` | src/meetings/artifacts.ts:425-440 | there is one such ranking |
| `Ranking.RankIgnoresOrder` | src/meetings/artifacts.ts:425-440 | permuting the turns changes no ranking |
| `Ranking.SecondsAdd` | src/meetings/artifacts.ts:385-387 | overlaps add up over adjacent stretches |
| `Alignment.CutRuns` | src/meetings/artifacts.ts:545-559 | the loop cuts exactly the maximal runs of equal labels |
| `Alignment.SplitByWords` | src/meetings/artifacts.ts:509-560 | the split, with its reasons for leaving a segment whole |
| `Alignment.AlignSegments` | src/meetings/artifacts.ts:588-659 | the blocks of every segment in order, numbered by their place |
| `AlignmentLaws.SplitTells` | src/meetings/artifacts.ts:509-560 | a segment is cut if and only if its words are its text's and change speaker; left whole it hides a change if and only if its words change speaker but are not its text's, or it has none and a second voice is heard for 0.2 s |
| `AlignmentLaws.OverlapIsLength` | src/meetings/artifacts.ts:385-387 | over a stretch inside a turn the overlap is its length, outside it nothing |
| `AlignmentLaws.UnlabelledIs` | src/meetings/artifacts.ts:588-603 | without turns every segment is a block of its own, unnamed and unflagged |
| `Alignment.AlignmentKeepsWords` | src/meetings/artifacts.ts:526-559 | the words of the blocks, in order, are the words of the segments: nothing is lost and nothing made up |
| `AlignmentLaws.IndicesAreDense` | src/meetings/artifacts.ts:609-659 | block indices are dense from 0 for every transcript the parser accepts |
| `AlignmentLaws.AlignmentIgnoresTurnOrder` | src/meetings/artifacts.ts:588-676 | permuting the turns changes no block, label or flag |
| `AlignmentLaws.SegmentBlocksAreTimed` | src/meetings/artifacts.ts:193-204 | every block lies within a millisecond of its segment, and one of n words ends at most n - 1 milliseconds before it starts |
| `AlignmentLaws.BlocksKeepTheirWordsLabel` | src/meetings/artifacts.ts:614-614 | over words that are gapless inside each run of one label, pauses between speakers allowed, ranking every block anew gives the label its words agreed on, the absent label included |
| `AlignmentLaws.WholeKeepsItsWordsLabel` | src/meetings/artifacts.ts:526-528 | a segment left whole because its gapless words agree gets their label, when its own span is theirs |
| `AlignmentLaws.GapsCanChangeTheLabel` | src/meetings/artifacts.ts:614-614 | with a gap the two can differ: a segment whose first block is cut for its words' speaker and emitted as another's |
| `BlockLabels.BlockKeepsLabelIff` | src/meetings/artifacts.ts:614-614 | for every sound segment and all turns, a block is emitted with its words' label if and only if that label is heard most over the words and the signed gaps between them, ties going to the smaller one |
| `BlockTimes.BlocksCanEndBeforeTheyStart` | migrations/1783600000000_meetings-transcript.ts:90-100 | a transcript in whole milliseconds that the parser accepts and a turn that make a block from 1.000 to 0.999, which the table's CHECK refuses |
| `BlockTimes.BlocksCanStartBeforeZero` | migrations/1783600000000_meetings-transcript.ts:90-90 | an accepted transcript and a turn that make a block starting at -0.001, which the table's CHECK refuses |
| `BlockTimes.SegmentAcceptedIff` | migrations/1783600000000_meetings-transcript.ts:90-100 | for every sound segment and all turns, the table takes all its blocks if and only if it was left whole or each maximal run of one label, rounded to three decimals, runs forward from zero |
| `BlockTimes.ForwardWordsAreAccepted` | src/meetings/artifacts.ts:545-556 | whatever the turns, words none of which ends before an earlier one starts make blocks that the table takes |
| `BlockTimes.BackwardBlockPossibleIff` | src/meetings/artifacts.ts:193-204 | some turns make a segment emit a block that ends before it starts if and only if its words are its tokens and hold a backward stretch, not all of the segment, whose neighbours can be heard while it is silent |
| `BlockTimes.BackwardBlocksAreSilent` | src/meetings/artifacts.ts:425-440 | a block that ends before it starts has no speaker |
| `AlignmentLaws.FlagsTell` | src/meetings/artifacts.ts:609-636 | `overlap` if and only if another label covers a quarter of the block; firm if and only if three words or none and 60 % covered |
| `TalkShare.TalkShares` | src/meetings/artifacts.ts:661-674 | every speaker is in the map if the turns last any time together, and nobody otherwise; each share is the time from start to end of the speaker's turns in per cent of everyone's, to two decimals, halves up |
| `TalkShare.SharesArePercentages` | src/meetings/artifacts.ts:661-674 | every share lies in 0..100 |
| `TalkShare.SharesMakeAHundred` | src/meetings/artifacts.ts:661-674 | the shares of n speakers add up to a hundred to within 0.005 n |
| `TalkShare.SharesIgnoreOrder` | src/meetings/artifacts.ts:661-674 | permuting the turns changes no share |
| `TalkShare.SplittingChangesNothing` | src/meetings/artifacts.ts:661-674 | splitting a turn at any instant changes no share |
| `TalkShare.StretchesShare` | src/meetings/artifacts.ts:661-674 | two speakers who each cover one stretch share as its length, into however many turns it is cut |
| `TalkShare.NoSharesIff` | src/meetings/artifacts.ts:666-668 | the map is empty if and only if no turn lasts any time |
| `RateLimiter.KeyTextIsInjective` | src/meetings/rateLimit.ts:90-93 | credential and operation can be read back from the map's key |
| `RateLimiter.TokenBuckets.Check` | src/meetings/rateLimit.ts:90-117 | the method, updating buckets in place, makes the decision and leaves the map of `Checked` |
| `RateLimiter.CheckKeepsBound` | src/meetings/rateLimit.ts:96-103 | the map never holds more than `maxBuckets` buckets, or one if that is less than one |
| `RateLimiter.GrantsAreBounded` | src/meetings/rateLimit.ts:105-112 | grants plus what is left never exceed what was there, what flowed in and what evictions gave back |
| `RateLimiter.TrafficBound` | src/meetings/rateLimit.ts:90-117 | in any window of T seconds a key is granted at most `burst` times (1 + its evictions) plus `refillPerSecond` times T |
| `RateLimiter.LevelFlows` | src/meetings/rateLimit.ts:105-107 | the lazily refilled bucket is the continuously filling one |
| `RateLimiter.RefusedCallsAreInvisible` | src/meetings/rateLimit.ts:105-116 | all later decisions are as if a refused call had not been made |
| `RateLimiter.RetryAfterIsHonest` | src/meetings/rateLimit.ts:113-116 | a call at or after the returned Retry-After, with no grant in between, is always allowed |
| `RateLimiter.RetryAfterIsNeeded` | src/meetings/rateLimit.ts:113-116 | no whole second of a returned Retry-After is too much: until the last one begins an unevicted key is granted nothing |
| `RateLimiter.DefaultBursts` | src/meetings/rateLimit.ts:52-56 | by default a new key is granted exactly 6 claims, 20 heartbeats or 10 results at once, and is then told to wait 1, 1 or 2 seconds |
| `RateLimiter.ClockGoingBackGrants` | src/meetings/rateLimit.ts:105-107 | with a clock that goes back a refused call can turn a later refusal into a grant |
| `RateLimiter.RefusalInvisibleIff` | src/meetings/rateLimit.ts:105-112 | a refused call leaves every later level of its bucket as it was if and only if its clock had not gone back or the bucket was full |
| `Ingestion.Discover` | src/ingestion/ingestExecutions.ts:124-163 | the paging loop finds exactly the ids before the first one seen, fails exactly when a page it asks for fails, and counts the rows without a usable id on the pages it read |
| `Ingestion.UnseenIsComplete` | src/ingestion/ingestExecutions.ts:136-148 | on a listing newest first, stopping there misses no new id |
| `Ingestion.FetchAll` | src/ingestion/ingestExecutions.ts:164-180 | every discovered id is fetched once, in order, and counted once |
| `Ingestion.Connection.Ingest` | src/ingestion/ingestExecutions.ts:110-220 | the poll, its crash points included; the rows stored are those counted as new, so none is stored twice; the report counts the discovered ids whose fetch gave a row, an error and nothing storable, the last together with the rows without an id on the pages read |
| `Ingestion.LedgerStaysRight` | src/ingestion/ingestExecutions.ts:119-192 | over any sequence of polls every id shown above the base and up to the cursor is stored, errored or skipped, in one way only unless a crash stored it early; the cursor never goes back |
| `Ingestion.LedgerIsRightFromTheStart` | src/ingestion/ingestExecutions.ts:110-192 | from a connection never polled: failed, crashed and empty polls leave nothing on the books, the first other one opens them at the oldest id of its page, and from then on they are right |
| `Ingestion.BothIffCrashed` | src/ingestion/ingestExecutions.ts:183-192 | an id is stored and also errored or skipped if and only if a poll stored it, crashed before moving the cursor, and the later fetch gave no row |
| `Ingestion.StoredAndErrored` | src/ingestion/ingestExecutions.ts:183-192 | three fair polls of a new connection after which an execution is both stored and errored |
| `Ingestion.FirstCommitOpensLedger` | src/ingestion/ingestExecutions.ts:147-147 | the first poll opens the books at the oldest id of its page |
| `Ingestion.FirstRunLeavesHistory` | src/ingestion/ingestExecutions.ts:147-147 | ids beyond the first page of the first poll lie under the cursor and are never accounted for |
| `BillingSplit.SplitBilling` | src/analytics/billingSplit.ts:40-86 | clients plus unassigned make the total if and only if no day's shared part is negative; each exact part is the owner's own lines; each shared part is the sum of its days' shares |
| `BillingSplit.NonNegativeLinesAreConserved` | src/analytics/billingSplit.ts:55-72 | non-negative lines lose nothing |
| `BillingSplit.NegativeLineIsLost` | src/analytics/billingSplit.ts:71-71 | one unowned line of minus a dollar is in the total and nowhere else |
| `BillingSplit.ReadLinesAreConserved` | src/analytics/openaiBilling.ts:35-75 | lines with the amounts the parser reads, which skips negative ones, lose nothing |
| `BillingSplit.OwnSpendTakesNoShare` | src/analytics/billingSplit.ts:73-74 | a client with positive exact spend on a day takes no shared part that day |
| `BillingSplit.DaysAddUp` | src/analytics/billingSplit.ts:57-66 | day by day or all at once, the lines are the same |
| `BillingLaws.ProjectsAreLastAssigned` | src/analytics/billingSplit.ts:46-46 | a project is the business's of its last assignment, and nobody's without one |
| `BillingLaws.DaysKeepTheirLast` | src/analytics/billingSplit.ts:47-47 | the tokens of a day are those of its last entry |
| `BillingLaws.SplitTells` | src/analytics/billingSplit.ts:40-86 | every business pays the lines of its projects and, for each day, the part of the unowned lines that its positive tokens are among those of businesses without a positive line of their own; the total is all lines, and what is missing from it are the days with more credit than cost |
| `CostDashboard.AddUsage` | src/analytics/aiCostModel.ts:117-130 | adding a row is combining totals, unknown money included |
| `CostDashboard.GroupingAgrees` | src/analytics/aiCostModel.ts:166-213 | any grouping put back together is the total of the rows whose key it has |
| `CostDashboard.BuildDashboard` | src/analytics/aiCostModel.ts:137-254 | clients, workflows and models each add up to the totals, days too when the period has every row's day; every figure counts its rows' calls and tokens, and its dollars are, model by model, the input tokens at the input price and the output tokens at the output price, unknown if and only if no row has a price; each model with tokens and no price is listed once, and the total is partial if and only if there is one |
| `CostDashboard.AMillionTokensCost` | src/analytics/llmPricing.ts:49-54 | a million more input tokens on a priced row raise the total by the input price, a million more output tokens by the output price |
| `CostDashboard.UnpricedModels` | src/analytics/aiCostModel.ts:246-254 | the list names exactly the models with tokens and no price |

## Left out

- PipelineService.MeetingsService.Claim: does not order jobs that wait equally long by their creation, and takes the default priority for granted, which nothing in the service changes; which rows are locked is a parameter.
- PipelineService.MeetingsService.UploadInit: takes the verdict on file name, type, size and checksum format as parameters.
- PipelineService.MeetingsService.Heartbeat: does not store the progress it checks.
- BlockTimes.BackwardBlockPossibleIff: covers words that last no time or at least a millisecond, as times rounded to milliseconds do; the condition for given turns, `SegmentAcceptedIff`, has no such limit.
- `uploadInit`, `resultInit` and `heartbeat` are single steps; in the code their check, signature and writes are separate statements.
- An upload that is in flight when its URL expires; the store is taken to refuse it.
- Meetings created before `original_put_expires_at` existed: their deadline is computed as in the code, but no URL signed before the column is in the model.
- The purge lease and its budget of five attempts, and the sweep over several meetings.
- The rate limiter is not called from the service methods; a refused call changes nothing there.
- The event log, signed read URLs, workers' inputs, titles, languages and other descriptive columns.
- The `analyze` stage, which the code refuses.
- Checksums are texts compared for equality; their letter case is not normalised.
- The delay before a failed job is tried again is a parameter.
- Ingestion.LedgerStaysRight: does not account for an id that only failed or crashed polls listed and no later listing shows again; nothing in the database remembers it.
- BillingSplit.SplitBilling: does not model the sorting of the days, which changes no sum over real numbers.
- Alignment works on labels by their place in the collation order; two labels that `localeCompare` calls equal are one label here.
- Floating-point rounding, beyond the roundings the code writes out.
- `conversations`, appointments, coverage, ratios and sorting of the cost dashboard, and its comparison between periods.
- Decompression, line splitting and JSON parsing of artifacts.
- HTTP routes, configuration, scheduling, payments and the remaining SQL.
