/** The upload-job document and the guarded updates made to it by the worker (for its two stages)
    and by the backend. Both stages share one lease slot. */
module UploadJob {
  import opened Options
  import opened Import

  const JOB_LEASE_MS: nat := 120_000

  datatype Stage = Csv | Images

  // Idle is the photo stage's `none`.
  datatype Status = Idle | Pending | Processing | Completed | CompletedWithErrors | Failed

  datatype Progress = Progress(status: Status, attempts: nat)

  datatype Report = Report(attached: nat, matched: nat, unmatched: seq<string>)

  const NO_REPORT := Report(0, 0, [])

  datatype Job = Job(csv: Progress, images: Progress, owner: Option<nat>, expires: Option<nat>, total: nat,
      counts: Counts, zip: bool, report: Report)

  // What an update returns: the document after it, and whether its filter matched.
  datatype Write = Write(job: Job, matched: bool)

  const NEW_JOB := Job(Progress(Pending, 0), Progress(Idle, 0), None, None, 0, NOTHING_PROCESSED, false, NO_REPORT)

  function At(j: Job, st: Stage): Progress {
    match st
    case Csv => j.csv
    case Images => j.images
  }

  function Put(j: Job, st: Stage, p: Progress): Job {
    match st
    case Csv => j.(csv := p)
    case Images => j.(images := p)
  }

  function Move(j: Job, st: Stage, status: Status): Job {
    Put(j, st, At(j, st).(status := status))
  }

  function Unlease(j: Job): Job {
    j.(owner := None, expires := None)
  }

  predicate Expired(j: Job, st: Stage, now: nat) {
    At(j, st).status.Processing? && j.expires.Some? && j.expires.value < now
  }

  predicate Claimable(j: Job, st: Stage, now: nat) {
    At(j, st).status.Pending? || Expired(j, st, now)
  }

  predicate HeldBy(j: Job, st: Stage, owner: nat) {
    At(j, st).status.Processing? && j.owner == Some(owner)
  }

  predicate Done(s: Status) {
    s.Completed? || s.CompletedWithErrors?
  }

  /* ----- Worker updates ----- */

  function Claim(j: Job, st: Stage, now: nat, owner: nat): Write {
    if Claimable(j, st, now)
    then Write(Put(j, st, Progress(Processing, At(j, st).attempts + 1)).(owner := Some(owner),
      expires := Some(now + JOB_LEASE_MS)), true)
    else Write(j, false)
  }

  function Renew(j: Job, st: Stage, now: nat, owner: nat): Write {
    if HeldBy(j, st, owner) then Write(j.(expires := Some(now + JOB_LEASE_MS)), true) else Write(j, false)
  }

  function Checkpoint(j: Job, now: nat, owner: nat, counts: Counts): Write {
    if HeldBy(j, Csv, owner)
    then Write(j.(total := counts.processed, counts := counts, expires := Some(now + JOB_LEASE_MS)), true)
    else Write(j, false)
  }

  function CompleteCsv(j: Job, owner: nat, counts: Counts): Write {
    if HeldBy(j, Csv, owner)
    then Write(Unlease(Move(j, Csv, if counts.rejected > 0 || counts.duplicate > 0 then CompletedWithErrors
      else Completed)).(total := counts.processed, counts := counts), true)
    else Write(j, false)
  }

  function CompleteImages(j: Job, owner: nat, report: Report): Write {
    if HeldBy(j, Images, owner)
    then Write(Unlease(Move(j, Images, if |report.unmatched| > 0 then CompletedWithErrors
      else Completed)).(report := report), true)
    else Write(j, false)
  }

  function FailOwned(j: Job, st: Stage, owner: nat): Write {
    if HeldBy(j, st, owner) then Write(Unlease(Move(j, st, Failed)), true) else Write(j, false)
  }

  // The reaper's failure names no owner.
  function FailUnowned(j: Job, st: Stage): Write {
    if At(j, st).status.Pending? || At(j, st).status.Processing? then Write(Unlease(Move(j, st, Failed)), true)
      else Write(j, false)
  }

  function HandBack(j: Job, st: Stage, owner: nat): Write {
    if HeldBy(j, st, owner) then Write(Unlease(Move(j, st, Pending)), true) else Write(j, false)
  }

  /* ----- Backend updates ----- */

  function AttachZip(j: Job): Write {
    if Done(j.csv.status) && !j.images.status.Pending? && !j.images.status.Processing?
    then Write(j.(images := Progress(Pending, 0), zip := true, report := NO_REPORT), true)
    else Write(j, false)
  }

  function RetryCsv(j: Job): Write {
    if j.csv.status.Failed? then Write(Unlease(j).(csv := Progress(Pending, 0)), true) else Write(j, false)
  }

  function RetryImages(j: Job): Write {
    if j.images.status.Failed? && j.zip then Write(Unlease(j).(images := Progress(Pending, 0)), true)
      else Write(j, false)
  }

  function Retry(j: Job, st: Stage): Write {
    if st.Csv? then RetryCsv(j) else RetryImages(j)
  }

  /** The stored document, updated in place; every method is one conditional update. */
  class UploadJobDocument {
    var csv: Progress
    var images: Progress
    var leaseOwner: Option<nat>
    var leaseExpiresAt: Option<nat>
    var totalRecords: nat
    var counts: Counts
    var hasZip: bool
    var report: Report

    constructor ()
      ensures Value() == NEW_JOB
    {
      csv, images := Progress(Pending, 0), Progress(Idle, 0);
      leaseOwner, leaseExpiresAt := None, None;
      totalRecords, counts, hasZip, report := 0, NOTHING_PROCESSED, false, NO_REPORT;
    }

    function Value(): Job
      reads this
    {
      Job(csv, images, leaseOwner, leaseExpiresAt, totalRecords, counts, hasZip, report)
    }

    // claimPendingUploadJob and claimPendingImageProcessing.
    method ClaimPending(st: Stage, now: nat, owner: nat) returns (claimed: bool)
      modifies this
      ensures Write(Value(), claimed) == Claim(old(Value()), st, now, owner)
    {
      var p := if st.Csv? then csv else images;
      claimed := p.status.Pending? || (p.status.Processing? && leaseExpiresAt.Some? && leaseExpiresAt.value < now);
      if claimed {
        SetStage(st, Progress(Processing, p.attempts + 1));
        leaseOwner, leaseExpiresAt := Some(owner), Some(now + JOB_LEASE_MS);
      }
    }

    method SetStage(st: Stage, p: Progress)
      modifies this`csv, this`images
      ensures Value() == Put(old(Value()), st, p)
    {
      if st.Csv? { csv := p; } else { images := p; }
    }

    // Ends the lease and moves the stage on.
    method Release(st: Stage, status: Status)
      modifies this`csv, this`images, this`leaseOwner, this`leaseExpiresAt
      ensures Value() == Unlease(Move(old(Value()), st, status))
    {
      SetStage(st, (if st.Csv? then csv else images).(status := status));
      leaseOwner, leaseExpiresAt := None, None;
    }

    // renewUploadLease and renewImageLease.
    method RenewLease(st: Stage, now: nat, owner: nat) returns (held: bool)
      modifies this`leaseExpiresAt
      ensures Write(Value(), held) == Renew(old(Value()), st, now, owner)
    {
      held := (if st.Csv? then csv else images).status.Processing? && leaseOwner == Some(owner);
      if held { leaseExpiresAt := Some(now + JOB_LEASE_MS); }
    }

    // updateUploadProgress.
    method UpdateProgress(now: nat, owner: nat, c: Counts) returns (held: bool)
      modifies this
      ensures Write(Value(), held) == Checkpoint(old(Value()), now, owner, c)
    {
      held := csv.status.Processing? && leaseOwner == Some(owner);
      if held { totalRecords, counts, leaseExpiresAt := c.processed, c, Some(now + JOB_LEASE_MS); }
    }

    // completeUploadJob.
    method CompleteUpload(owner: nat, c: Counts) returns (held: bool)
      modifies this
      ensures Write(Value(), held) == CompleteCsv(old(Value()), owner, c)
    {
      held := csv.status.Processing? && leaseOwner == Some(owner);
      if held {
        Release(Csv, if c.rejected > 0 || c.duplicate > 0 then CompletedWithErrors else Completed);
        totalRecords, counts := c.processed, c;
      }
    }

    // completeImageProcessing.
    method CompletePhotos(owner: nat, r: Report) returns (held: bool)
      modifies this
      ensures Write(Value(), held) == CompleteImages(old(Value()), owner, r)
    {
      held := images.status.Processing? && leaseOwner == Some(owner);
      if held {
        Release(Images, if |r.unmatched| > 0 then CompletedWithErrors else Completed);
        report := r;
      }
    }

    // failUploadJob and failImageProcessing; the reaper gives no owner.
    method Fail(st: Stage, owner: Option<nat>) returns (matched: bool)
      modifies this
      ensures Write(Value(), matched) == match owner case Some(o) => FailOwned(old(Value()), st, o) case None =>
        FailUnowned(old(Value()), st)
    {
      var status := (if st.Csv? then csv else images).status;
      matched := if owner.Some? then status.Processing? && leaseOwner == owner
        else status.Pending? || status.Processing?;
      if matched { Release(st, Failed); }
    }

    // retryUploadJob and retryImageProcessing.
    method HandBackAsPending(st: Stage, owner: nat) returns (held: bool)
      modifies this
      ensures Write(Value(), held) == HandBack(old(Value()), st, owner)
    {
      held := (if st.Csv? then csv else images).status.Processing? && leaseOwner == Some(owner);
      if held { Release(st, Pending); }
    }

    // markImageProcessingPending.
    method MarkImagesPending() returns (matched: bool)
      modifies this
      ensures Write(Value(), matched) == AttachZip(old(Value()))
    {
      matched := Done(csv.status) && !images.status.Pending? && !images.status.Processing?;
      if matched { images, hasZip, report := Progress(Pending, 0), true, NO_REPORT; }
    }

    // resetFailedUploadJob and resetFailedImageProcessing.
    method ResetFailed(st: Stage) returns (matched: bool)
      modifies this
      ensures Write(Value(), matched) == Retry(old(Value()), st)
    {
      matched := if st.Csv? then csv.status.Failed? else images.status.Failed? && hasZip;
      if matched {
        SetStage(st, Progress(Pending, 0));
        leaseOwner, leaseExpiresAt := None, None;
      }
    }
  }
}
