/**
 One row of `meeting_processing_jobs` and the UPDATE statements that move it.

 A row's identity is its (run, stage) pair: `jobs_stage_key UNIQUE (run_id, stage)`
 makes that pair a key of the table.
 */
module JobRows {
  import opened Common

  datatype Stage = Normalize | Transcribe | Diarize

  datatype Status = Queued | Leased | UploadingResult | Succeeded | Failed | Cancelled | Abandoned

  datatype JobId = JobId(run: Id, stage: Stage)

  /** What a lease hash commits to; LeaseToken.BindingIsInjective justifies reading it back. */
  datatype TokenHash = TokenHash(secret: string, job: JobId, attempt: nat, credential: Id)

  datatype Job = Job(
    status: Status,
    attempts: nat,
    maxAttempts: nat,
    nextAttemptAt: int,
    tokenHash: Option<TokenHash>,
    leaseExpiresAt: Option<int>,
    credential: Option<Id>,
    failureCode: Option<string>,
    failureDetail: Option<string>)

  const DEFAULT_MAX_ATTEMPTS: nat := 3

  predicate HoldsLease(j: Job) { j.status == Leased || j.status == UploadingResult }

  /** Still able to move on its own: queued or under a lease. */
  predicate Unsettled(j: Job) { j.status == Queued || HoldsLease(j) }

  /** `jobs_lease_invariants`, `jobs_failure_coherent` and `jobs_attempts_bounded`. */
  predicate RowOk(j: Job)
  {
    && (j.status == Queued ==> j.tokenHash.None? && j.leaseExpiresAt.None? && j.credential.None?)
    && (HoldsLease(j) ==> j.tokenHash.Some? && j.leaseExpiresAt.Some? && j.credential.Some?)
    && (!Unsettled(j) ==> j.tokenHash.None? && j.leaseExpiresAt.None?)
    && (j.status == Failed ==> j.failureCode.Some?)
    && j.attempts <= j.maxAttempts == DEFAULT_MAX_ATTEMPTS
    && (j.status == Succeeded || HoldsLease(j) ==> 1 <= j.attempts)
    && (j.status == Failed || j.status == Abandoned ==> j.attempts == j.maxAttempts)
    && (j.status == Queued ==> j.attempts < j.maxAttempts)
  }

  function Fresh(now: int): Job
  {
    Job(Queued, 0, DEFAULT_MAX_ATTEMPTS, now, None, None, None, None, None)
  }

  predicate Claimable(j: Job, now: int)
  {
    j.status == Queued && j.nextAttemptAt <= now && j.attempts < j.maxAttempts
  }

  function Claimed(j: Job, id: JobId, credential: Id, secret: string, expiresAt: int): Job
  {
    j.(status := Leased, attempts := j.attempts + 1,
       tokenHash := Some(TokenHash(secret, id, j.attempts + 1, credential)),
       leaseExpiresAt := Some(expiresAt), credential := Some(credential))
  }

  function Renewed(j: Job, expiresAt: int): Job
  {
    if HoldsLease(j) then j.(leaseExpiresAt := Some(expiresAt)) else j
  }

  function MarkedUploading(j: Job): Job
  {
    if HoldsLease(j) then j.(status := UploadingResult) else j
  }

  function MarkedSucceeded(j: Job): Job
  {
    if HoldsLease(j) then j.(status := Succeeded, tokenHash := None, leaseExpiresAt := None) else j
  }

  /** A failure goes back to the queue while attempts are left and is terminal otherwise. */
  function MarkedFailed(j: Job, code: string, detail: Option<string>, retryAt: int): Job
  {
    if !HoldsLease(j) then j
    else
      var again := j.attempts < j.maxAttempts;
      j.(status := if again then Queued else Failed,
         failureCode := Some(code), failureDetail := detail,
         tokenHash := None, leaseExpiresAt := None,
         credential := if again then None else j.credential,
         nextAttemptAt := retryAt)
  }

  function MarkedCancelled(j: Job): Job
  {
    if Unsettled(j) then j.(status := Cancelled, tokenHash := None, leaseExpiresAt := None) else j
  }

  predicate Expired(j: Job, now: int)
  {
    HoldsLease(j) && j.leaseExpiresAt.Some? && j.leaseExpiresAt.value < now
  }

  function Swept(j: Job, now: int): Job
  {
    if !Expired(j, now) then j
    else
      var again := j.attempts < j.maxAttempts;
      j.(status := if again then Queued else Abandoned,
         tokenHash := None, leaseExpiresAt := None,
         credential := if again then None else j.credential,
         failureCode := if again then j.failureCode else Some("lease_expired"),
         nextAttemptAt := now)
  }

  /**
   How much work a row may still cost. A settled row costs nothing; each attempt left costs
   three units, and the attempt under way one to three, so every move of the row costs some.
   */
  function Fuel(j: Job): int
  {
    if !Unsettled(j) then 0
    else
      3 * (j.maxAttempts - j.attempts)
      + if j.status == Leased then 3 else if j.status == UploadingResult then 2 else 1
  }

  /** Every statement keeps the table's CHECKs. */
  lemma StatementsKeepRowOk(j: Job, id: JobId, credential: Id, secret: string, t: int, now: int,
                            code: string, detail: Option<string>)
    requires RowOk(j)
    ensures Claimable(j, now) ==> RowOk(Claimed(j, id, credential, secret, t))
    ensures RowOk(Renewed(j, t)) && RowOk(MarkedUploading(j)) && RowOk(MarkedSucceeded(j))
    ensures RowOk(MarkedFailed(j, code, detail, t)) && RowOk(MarkedCancelled(j)) && RowOk(Swept(j, now))
    ensures RowOk(Fresh(now))
  {
  }
}
