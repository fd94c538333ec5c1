/**
 One row of `meeting_result_uploads` and the UPDATE statements that move it. A row is
 named by its (job, attempt) pair; the artifact kind is fixed by the job's stage, so
 `ru_attempt_key UNIQUE (job_id, attempt, kind)` makes that pair a key.
 */
module UploadRows {
  import opened Common
  import opened JobRows

  datatype UploadId = UploadId(job: JobId, attempt: nat)

  datatype UploadState = AwaitingUpload | Uploaded | Verified | Ingested | Rejected

  /** A measured or declared object: size and SHA-256 go together (`ru_observed_pair`). */
  datatype Digested = Digested(bytes: nat, checksum: string)

  datatype Upload = Upload(
    state: UploadState,
    putExpiresAt: int,
    declared: Option<Digested>,
    observed: Option<Digested>,
    uploadedAt: Option<int>,
    verifiedAt: Option<int>,
    ingestedAt: Option<int>,
    rejectedAt: Option<int>,
    rejectCode: Option<string>)

  /** `ru_state_invariants`, one case per state. */
  predicate StateOk(u: Upload)
  {
    match u.state
    case AwaitingUpload =>
      u.uploadedAt.None? && u.verifiedAt.None? && u.ingestedAt.None? && u.rejectedAt.None?
    case Uploaded =>
      u.uploadedAt.Some? && u.verifiedAt.None? && u.ingestedAt.None? && u.rejectedAt.None?
    case Verified =>
      u.uploadedAt.Some? && u.verifiedAt.Some? && u.observed.Some? && u.ingestedAt.None? && u.rejectedAt.None?
    case Ingested =>
      u.uploadedAt.Some? && u.verifiedAt.Some? && u.ingestedAt.Some? && u.observed.Some? && u.rejectedAt.None?
    case Rejected =>
      u.rejectedAt.Some? && u.rejectCode.Some? && u.ingestedAt.None?
  }

  predicate NotAfter(a: Option<int>, b: Option<int>) { a.Some? && b.Some? ==> a.value <= b.value }

  /** `ru_time_order`, plus: no instant lies in the future. */
  predicate TimeOk(u: Upload, now: int)
  {
    && NotAfter(u.uploadedAt, u.verifiedAt) && NotAfter(u.verifiedAt, u.ingestedAt)
    && NotAfter(u.uploadedAt, Some(now)) && NotAfter(u.verifiedAt, Some(now))
    && NotAfter(u.ingestedAt, Some(now)) && NotAfter(u.rejectedAt, Some(now))
  }

  predicate RowOk(u: Upload, now: int) { StateOk(u) && TimeOk(u, now) }

  /** States in which a repeated `result/init` still rewrites the row. */
  predicate Reopenable(u: Upload) { u.state == AwaitingUpload || u.state == Uploaded || u.state == Rejected }

  /** Artifacts `findVerifiedForRun` returns. */
  predicate Usable(u: Upload) { u.state == Verified || u.state == Ingested }

  function Opened(expiresAt: int): Upload
  {
    Upload(AwaitingUpload, expiresAt, None, None, None, None, None, None, None)
  }

  /** `initResultUpload` on a row that exists: only the URL's expiry, and only while reopenable. */
  function Reopened(u: Upload, expiresAt: int): Upload
  {
    if Reopenable(u) then u.(putExpiresAt := expiresAt) else u
  }

  function MarkedUploaded(u: Upload, declared: Digested, now: int): Upload
  {
    if Reopenable(u) then
      u.(state := Uploaded, uploadedAt := Some(now), declared := Some(declared), observed := None,
         verifiedAt := None, rejectedAt := None, rejectCode := None)
    else u
  }

  function MarkedVerified(u: Upload, observed: Digested, now: int): Upload
  {
    if u.state == Uploaded || u.state == Verified then
      u.(state := Verified, observed := Some(observed),
         verifiedAt := if u.verifiedAt.Some? then u.verifiedAt else Some(now),
         uploadedAt := if u.uploadedAt.Some? then u.uploadedAt else Some(now))
    else u
  }

  function MarkedIngested(u: Upload, now: int): Upload
  {
    if u.state == Verified then
      u.(state := Ingested, ingestedAt := if u.ingestedAt.Some? then u.ingestedAt else Some(now))
    else u
  }

  function MarkedRejected(u: Upload, code: string, now: int): Upload
  {
    if u.state != Ingested then u.(state := Rejected, rejectedAt := Some(now), rejectCode := Some(code)) else u
  }

  /** The row `result/init` leaves: a new or reopened one, declared as uploaded. */
  function Initiated(row: Option<Upload>, expiresAt: int, declared: Digested, now: int): Upload
  {
    MarkedUploaded(if row.Some? then Reopened(row.value, expiresAt) else Opened(expiresAt), declared, now)
  }

  /** Every statement keeps the table's CHECKs. */
  lemma StatementsKeepRowOk(u: Upload, d: Digested, code: string, now: int)
    requires RowOk(u, now)
    ensures RowOk(MarkedVerified(u, d, now), now)
    ensures RowOk(MarkedIngested(u, now), now) && RowOk(MarkedRejected(u, code, now), now)
  {
  }

  lemma InitKeepsRowOk(row: Option<Upload>, expiresAt: int, declared: Digested, now: int)
    requires row.Some? ==> RowOk(row.value, now)
    ensures RowOk(Initiated(row, expiresAt, declared, now), now)
  {
  }
}
