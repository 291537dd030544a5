# MotorX listing pipeline: a Dafny model

MotorX lets vehicle dealers put stock online: a dealer uploads a CSV file, a worker imports it in
batches under a lease, a photos zip is attached to the imported listings, and listings then live
through drafts, publication, sale and archiving. This project models the parts of that system in
which crashes, retries, overlapping workers and bulk writes meet, and proves what they keep.

`dafny verify dfyconfig.toml` checks everything.

## The CSV import

`Import` states a reference importer that takes one row at a time: a row is accepted if and only if
it is valid, no open listing holds its plate and the dealer is below the limit. Beside it stands the
real thing as values: batches of any size, one lookup per batch, an in-memory set of seen plates, a
capacity cut, an ordered insert that stops anywhere, rejected rows of which any subset lands, a
checkpoint, and a new attempt that resumes from it. `ImportRefinement` proves that every history of
attempts leaves exactly the reference importer's listings. `Importer` is the imperative form: classes
for the stores and the attempt, with the source's loops, proved equal to the values. `ListingStore`
is the shared collection with its two unique indexes.

`UploadJob` has every guarded update of the job document for both stages (claim, renew, checkpoint,
complete, fail, hand back, attach a zip, retry). `JobProtocol` lets any number of worker attempts
(healthy, slow, stale, crashed), the queue, the reaper and the dealer take these steps in any order.
An attempt lives on after it has lost or handed back its lease, until its process is gone or its last
writes are over. `JobImport` joins the protocol to the import: attempts with their lookups, single
writes and checkpoints in any order. No interleaving loses a row, and `ImportOverlap` proves of all of
them that the listings are the reference importer's: a completed job has all of them, however many
attempts overlapped and however old their lookups were. While nothing is claimed before the attempts of
the job are over, the rejected rows and the counters are exact as well. `JobPhotos` does the same for
the photo stage of one zip, and `FolderRace` takes a folder's uploads, append and cleanup apart.
`LeaseTiming` is the renewal timer, `Reaper` the reconciliation cycle, `QueueRace` several processes
making sure of one queue message at the same time, `EmbeddingPool` the eight concurrent loops that
share one index.

Time is counted in milliseconds. Owner tokens are drawn fresh. The validity of a row and its
normalized plate are given with the row.

## Photos

`ListingPhotos` is the stored photo list under the dealer's add, reorder and delete and the worker's
append. `ZipArchive` reads an archive within its limits and groups the photos by folder; `ZipPhotos`
attaches them, with attempts that may die after any object or any append. `Migration` moves photos
between storage prefixes, as the list of steps a run takes, each of which may be its last;
`MigrationScript` is the script that takes them, with its summary. Image conversion is a given
function of the bytes, and the storage key of a zip photo is taken as injective in the upload, the
listing, the path and the content hash.

## Smaller pieces

`EditDistance` proves the one-row table against edit scripts and shows which word the fuzzy match
returns. `CsvTemplate` prints a template and reads it back by section 2 of RFC 4180 with LF line
ends. `ListingLifecycle` is the collection under status requests that read first and write later,
bulk actions, imports, edits, deletes and admin archives. `EmailOutbox` is the notification outbox
under overlapping claims and crashes.

## Where the code does less than its comments say

- `ensureQueued` and `addUnderFixedId` look, remove and add in three steps. Each call returns only
  after a moment since its look at which a live message existed (`QueueRace.ReturnsAfterLive`), but
  calls that run together can take a live message away on the way there. They can if and only if two
  of them start on an existing message, or three on none (`QueueRace.LiveMessageRemovedIff`).
- Handing a job back does not end the attempt: at the shutdown deadline running attempts go on for up to
  two seconds, and after an error the other writes of the batch may still be on their way. Such an
  attempt can overlap the next one without any lease having run out. Its writes to the job are void
  (`JobProtocol.LostForGood`), no row gets lost (`JobImport.NoRowIsLost`), and the listings are still the
  reference importer's (`ImportOverlap.OverlappingJobImportsAll`). But a row can end up in both stores and
  be counted as a duplicate (`ImportOverlap.OverlapMiscounts`); it cannot if nothing is claimed while an
  attempt lives (`JobImport.SeparateAttemptsAreExact`, `JobImport.InTimeJobIsExact`).
- A reaper cycle decides to queue a job and does so later; each such requeue that a claim can find still
  pending allows a message's deliveries more than the attempt limit (`JobProtocol.ClaimsBounded`), and
  they can all be used (`JobProtocol.BoundIsReached`).
- Every error of a message's removal is taken for a message that came alive, so a dead one can stay
  (`Reaper.Reconciler.EnsureQueued`, `QueueRace.RemovalFails`).
- The reaper's failure update looks at the status only, so a decision taken on an expired lease can
  end the lease of an attempt that claimed meanwhile (`JobProtocol.StaleDecisionEvictsHealthyOwner`).
  Nothing else can take the job from an owner that writes in time
  (`JobProtocol.OnlyEarlierDecisionsEvict`).
- The renewal timer survives one failed renewal at a time if and only if the lease set by the claim
  lasts until the first renewal lands (`LeaseTiming.OneFailureIsTolerated`), which a slow claim can
  prevent (`LeaseTiming.SlowClaimCanLapse`). It survives two failures in a row if and only if the third
  renewal is no later after its tick than the last one before them was
  (`LeaseTiming.TwoFailuresIff`, and `LeaseTiming.NeverRunsOutIff` for every pattern).
- A photo delete keeps the displayed order of the remaining photos if and only if they are stored in
  that order; after a failed delete they may not be (`ListingPhotos.DeleteKeepsDisplayIff`,
  `ListingPhotos.FailedDeleteThenDeleteSwaps`).
- A zip entry can be repeated (same path, same bytes). A key is attached twice if and only if the
  entries chosen repeat one (`ZipPhotos.FinalIsSound`), and a retry reports other numbers than a clean
  run if and only if an entry left out for lack of room repeats one that was attached
  (`ZipPhotos.ReportsAgreeIff`); `ZipPhotos.RepeatedEntryAttachedTwice` and
  `ZipPhotos.RepeatedEntryCountedTwice` are such inputs. A listing that holds a key twice can never be
  reordered (`ListingPhotos.OnlyDistinctReorder`), and a failed delete of that key loses the other copy
  (`ListingPhotos.FailedDeleteShowsTheSame`).
- A dry run of the migration predicts the summary if and only if no photo with work left is listed
  twice (`MigrationScript.DryRunPredictsIff`).
- The printed CSV template reads back if and only if every cell with a carriage return also has a
  quote, a comma or a line feed, because a carriage return alone is not quoted
  (`CsvTemplate.TemplateGivesExampleRows`).
- How overlapping attempts leave a row both imported and rejected: of a row another attempt imports
  meanwhile: it is left alone if it was there at the lookup of imported rows, rejected if it came
  between that lookup and the one of held plates, and if it came later, rejected if and only if no room
  is left at the count, or its plate was held or used up anyway (`ImportRefinement.ImportedRowRejectedIff`;
  `ImportRefinement.OverlapRejectsImportedRow` and `ImportRefinement.OverlapRejectsForTheLimit` are such
  inputs).
- Attempts that overlap can leave attached photos without their objects
  (`ZipPhotos.OverlapLeavesDanglingPhotos`). A listed photo can lose its object without being deleted if
  and only if an attempt at the folder read the listing before the photo was in it, or a deletion of an
  earlier photo with its key is not over (`FolderRace.LosesObjectIff`); `FolderRace.CanDangleIff` says it
  of any photo, `ZipPhotos.DanglesIff` of a folder taken as one step. Attempts that come to a folder one
  after the other, and not during a deletion, never leave one so (`FolderRace.AloneNeverDangles`), and the photos themselves are
  those of one clean run under any overlap (`JobPhotos.OverlapAttachesAll`). The lease makes overlap
  rare, it does not fence inserts or objects.
- An email claim that runs out under a slow worker lets a late failure turn "sent" into "failed"
  (`EmailOutbox.LateAttemptUndoesSent`); a closed email can still change its status if and only if a
  certain attempt is in progress (`EmailOutbox.ClosedStatusChangesIff`). Each crash can cost one more
  mail than five (`EmailOutbox.BoundIsReached`).

## Model

| member | source | states |
|---|---|---|
| ListingStore.InsertKeepsIndexes | apps/worker/src/repositories/listing.repository.ts:19-46 | an ordered bulk insert, stopped anywhere, never breaks either unique index and keeps what was stored |
| ListingStore.Listings.FindActivelyListed | apps/worker/src/repositories/listing.repository.ts:24-28 | of the asked plates, exactly those held by a draft or active listing |
| ListingStore.Listings.CountOpen | apps/worker/src/repositories/listing.repository.ts:31-33 | the dealer's drafts and active listings |
| ListingStore.Listings.FindImported | apps/worker/src/repositories/listing.repository.ts:36-40 | of the asked row numbers, exactly those this upload imported |
| ListingStore.Listings.InsertMany | apps/worker/src/repositories/listing.repository.ts:43-46 | stops at the first document an index refuses; true exactly when all went in |
| Import.SplitCountsEveryRecord | apps/worker/src/services/uploadJob.service.ts:38-53 | every row of a batch is counted once, at most as many are inserted as there is room, and rows are over the limit only when the room is used up |
| ImportRefinement.VerdictAgrees | apps/worker/src/pipeline/detectDuplicates.ts:12-18 | row by row, the batch inserts or resumes exactly the rows the reference importer accepts |
| ImportRefinement.BatchAgrees | apps/worker/src/services/uploadJob.service.ts:32-55 | a batch cut anywhere has inserted, resumed and rejected exactly what the reference importer accepts and refuses, wherever an earlier attempt stopped |
| ImportRefinement.BlockedStays | apps/worker/src/pipeline/detectDuplicates.ts:16 | a plate that cannot be accepted any more stays so, so a repeat is never imported |
| ImportRefinement.NoClash | apps/worker/src/repositories/listing.repository.ts:19 | what the reference importer inserts next clashes with no index |
| ImportRefinement.InsertFollows | apps/worker/src/pipeline/persist.ts:22 | any prefix of a batch's ordered insert is a moment of the reference importer's run |
| ImportRefinement.AttemptKeepsProgress | apps/worker/src/services/uploadJob.service.ts:74-86 | an attempt, however it dies, keeps the stores between two such moments; one that does not die completes the job |
| ImportRefinement.OneStorePerRow | apps/worker/src/services/uploadJob.service.ts:29-31 | every row the checkpoint covers is in exactly one of listings and rejected rows |
| ImportRefinement.CrashResumeRefinement | apps/worker/src/services/uploadJob.service.ts:32-55 | after any attempts with any batch sizes and crash points: one store per row, counters add up, and a completed job has the reference importer's listings, exactly the other rows rejected, and counters that say so |
| ImportRefinement.OverlapRejectsImportedRow | apps/worker/src/services/uploadJob.service.ts:38-41 | an attempt that overlaps another between its first two lookups rejects a row the other imported |
| ImportRefinement.RowRejectedIff | apps/worker/src/services/uploadJob.service.ts:38-45 | a batch rejects a valid row if and only if the lookup did not show it as imported and its plate is held or used up by an earlier row, or no room is left at its turn |
| ImportRefinement.ImportedRowRejectedIff | apps/worker/src/services/uploadJob.service.ts:38-45 | with the three lookups at three moments of a growing stock: exactly when a row imported meanwhile is rejected |
| ImportRefinement.OverlapRejectsForTheLimit | apps/worker/src/services/uploadJob.service.ts:44-47 | so does one that looks for both before the import and counts after it, when the import took the dealer's last place |
| ImportRefinement.HistoriesAgree | apps/worker/src/services/uploadJob.service.ts:57 | two histories of the same upload end with the same listings, rejected rows and valid count |
| Importer.PassesAgree | apps/worker/src/services/uploadJob.service.ts:38-45 | the passes over a batch (resumed, duplicates, capacity cut) make the row-by-row decisions |
| Importer.PrepareInventoryBatch | apps/worker/src/pipeline/transform.ts:11-19 | every row goes to exactly one list with its number in the file |
| Importer.DetectExactDuplicates | apps/worker/src/pipeline/detectDuplicates.ts:12-18 | unique and duplicate rows by one lookup and the seen set, which grows by the unique plates |
| Importer.RejectedRecords.Insert | apps/worker/src/repositories/rejectedRecord.repository.ts:16-21 | insert-once per upload and row, any subset landing |
| Importer.ImportAttempt.Classify | apps/worker/src/services/uploadJob.service.ts:36-50 | the lists a batch computes are the row-by-row decisions |
| Importer.ImportAttempt.ProcessInventoryBatch | apps/worker/src/services/uploadJob.service.ts:32-55 | stores, counters and seen plates after a batch, or where it died |
| Importer.ImportAttempt.Run | apps/worker/src/pipeline/extract.ts:9-20 | an attempt with the reading loop (skip, batch, cumulative count) leaves the stores the value model says |
| UploadJob.UploadJobDocument.ClaimPending | apps/worker/src/repositories/uploadJob.repository.ts:41-48 | takes pending work or work whose lease ran out, counts the attempt, sets owner and lease |
| UploadJob.UploadJobDocument.RenewLease | apps/worker/src/repositories/uploadJob.repository.ts:51-54 | extends the lease for its owner only |
| UploadJob.UploadJobDocument.UpdateProgress | apps/worker/src/repositories/uploadJob.repository.ts:57-60 | the checkpoint, for the owner only |
| UploadJob.UploadJobDocument.CompleteUpload | apps/worker/src/repositories/uploadJob.repository.ts:63-70 | completes for the owner only, with or without errors |
| UploadJob.UploadJobDocument.CompletePhotos | apps/worker/src/repositories/uploadJob.repository.ts:109-116 | the same for the photo stage |
| UploadJob.UploadJobDocument.Fail | apps/worker/src/repositories/uploadJob.repository.ts:74-78 | fails for the owner, or from any open status for the reaper |
| UploadJob.UploadJobDocument.HandBackAsPending | apps/worker/src/repositories/uploadJob.repository.ts:81-87 | hands the job back for the owner only |
| UploadJob.UploadJobDocument.MarkImagesPending | apps/backend/src/modules/inventory/inventory.repository.ts:19-25 | only after the CSV is done and not while photos are queued or running |
| UploadJob.UploadJobDocument.ResetFailed | apps/backend/src/modules/inventory/inventory.repository.ts:29-44 | a failed stage goes back to pending with a fresh budget |
| JobProtocol.RunKeepsInv | apps/worker/src/repositories/uploadJob.repository.ts:35-38 | the invariants below hold in every reachable state of every interleaving |
| JobProtocol.SharedLeaseSlot | apps/backend/src/modules/inventory/inventory.repository.ts:19-44 | photos only after the CSV is done, never both stages at work, lease fields set exactly while one is |
| JobProtocol.CountersConserved | apps/worker/src/services/uploadJob.service.ts:52-54 | with the stored processed count taken from the reader and the others from the lengths of the lists, valid + rejected + duplicate = processed = total in every state of every interleaving, and a completed job has counted every record of the file |
| JobProtocol.CountersNeverGoDown | apps/worker/src/repositories/uploadJob.repository.ts:57-60 | no counter ever decreases over a run |
| JobProtocol.LostForGood | apps/worker/src/repositories/uploadJob.repository.ts:51-130 | an attempt that lost the lease, by takeover, failure or hand-back, never holds it again and none of its later writes changes the job |
| JobProtocol.OwnerEpoch | apps/worker/src/repositories/uploadJob.repository.ts:51-130 | the states in which an owner holds the lease are consecutive and only its own steps change the job there |
| JobProtocol.ClaimsBounded | apps/worker/src/jobs/reaper.job.ts:33-54 | attempts stay at most MAX + D - 1 between dealer requests when no claim comes between a reaper's decision to queue and its doing so, and D more for each such requeue that a claim finds pending |
| JobProtocol.BoundIsReached | apps/worker/src/jobs/reaper.job.ts:33-54 | for every number of pending requeues some run reaches that bound |
| JobProtocol.AttemptsCountClaims | apps/worker/src/repositories/uploadJob.repository.ts:45 | the attempt counter moves exactly with the claims |
| JobProtocol.ExhaustedDrains | apps/worker/src/jobs/reaper.job.ts:44 | after MAX attempts each claim uses up a delivery that is left or that a pending requeue brings; with none left the stage is never worked on again |
| JobProtocol.ExhaustedEnds | apps/worker/src/services/uploadJob.service.ts:94-98 | what a stage with used-up attempts can still do: complete, fail, or be handed back by a shutdown; no reaper decides to queue it again |
| JobProtocol.LeaseFollowsWrites | apps/worker/src/repositories/uploadJob.repository.ts:30-31 | a renewal or checkpoint of the holder moves the end of the lease to JOB_LEASE_MS from then, and nothing else moves it |
| JobProtocol.LeaseEndsAfterLastWrite | apps/worker/src/repositories/uploadJob.repository.ts:30-31 | in every state of every run the lease ends JOB_LEASE_MS after its holder's last claim, renewal or checkpoint |
| JobProtocol.RenewedLeaseIsKept | apps/worker/src/services/jobLease.ts:16-31 | an owner whose last write is never more than JOB_LEASE_MS old, and against whose stage no reaper had decided before, keeps the lease until its own step gives it up, and the lease ends JOB_LEASE_MS after that write |
| JobProtocol.HealthyOwnerKept | apps/worker/src/repositories/uploadJob.repository.ts:41-48 | a step of somebody else takes the lease from an owner whose lease has not run out if and only if it is a reaper's failure of that stage; no claim matches and no reaper comes to that decision then |
| JobProtocol.OnlyEarlierDecisionsEvict | apps/worker/src/repositories/uploadJob.repository.ts:74-78 | the only thing that takes the job from such an owner is a reaper's decision that was there before the owner's stretch |
| JobProtocol.SilentOwnerIsReplaced | apps/worker/src/repositories/uploadJob.repository.ts:44 | once the lease ran out the next delivery takes the job over with the stored counters |
| JobProtocol.StaleDecisionEvictsHealthyOwner | apps/worker/src/repositories/uploadJob.repository.ts:75 | a run in which a reaper that had read an expired lease fails the job under the fresh lease of another attempt |
| JobImport.RunsTheProtocol | apps/worker/src/services/uploadJob.service.ts:32-100 | the job's part of every such run is a run of the job protocol |
| JobImport.NoRowIsLost | apps/worker/src/services/uploadJob.service.ts:32-55 | in every interleaving of any attempts, stale, handed back or failed ones with writes still landing, every row behind the checkpoint is a listing or a rejected row, as long as no listing of the upload is deleted |
| JobImport.SeparateAttemptsAreExact | apps/worker/src/services/uploadJob.service.ts:32-100 | in every run in which nothing is claimed while an attempt of the job lives, with lookups, writes and checkpoints as single steps: one attempt at a time, one store per row behind the checkpoint, and a completed job has rejected exactly the rows the reference importer refuses and counts exactly those it accepts |
| JobImport.InTimeJobIsExact | apps/worker/src/services/uploadJob.service.ts:60-100 | for the completed job it is enough that a living holder's last write is never more than JOB_LEASE_MS old, that nothing is claimed while a reaper's decision to fail that stage is pending, and that attempts which gave the job up themselves are over before the next claim |
| ImportOverlap.OldViewCutsOff | apps/worker/src/services/uploadJob.service.ts:36-45 | a batch decided on lookups made at different times inserts what it would have inserted with all of them made at the second one's time, up to the dealer's limit |
| ImportOverlap.InsertOrClash | apps/worker/src/pipeline/persist.ts:22 | each insert of such a batch is the reference importer's next listing, or an index refuses it |
| ImportOverlap.OverlappingJobImportsAll | apps/worker/src/services/uploadJob.service.ts:32-100 | in every interleaving of any attempts, stale, handed back or failed ones with lookups as old as they like and writes still landing: the listings are the reference importer's at the checkpoint or later, no more rows are counted as valid than it accepts, and a completed job has all of its listings and has rejected every row it refuses |
| ImportOverlap.OverlapMiscounts | apps/worker/src/services/uploadJob.service.ts:38-54 | a run in which a handed-back attempt makes a completed job reject and count as a duplicate the row that is imported |
| JobPhotos.CompletedStageEqualsOneCleanRun | apps/worker/src/services/imageProcessing.service.ts:136-200 | while nothing is claimed before the job's attempts are over, a completed photo stage has left the photos and objects of one clean run, and its report but for photos a repeated entry made it count again |
| JobPhotos.OverlapAttachesAll | apps/worker/src/services/imageProcessing.service.ts:136-200 | however attempts overlap, each listing has its old photos or those of one clean run at every moment, and a completed stage has left the latter and reports the clean run's folders |
| LeaseTiming.OneFailureIsTolerated | apps/worker/src/services/jobLease.ts:18-25 | with write delay under a tick, renewals that fail one at a time never let the lease run out if and only if the lease the claim set lasts until the first one lands |
| LeaseTiming.NeverRunsOutIff | apps/worker/src/services/jobLease.ts:18-25 | for every pattern of failures, never run out if and only if each renewal lands before the lease set by the landing before it is over and the last covers the next tick |
| LeaseTiming.TwoFailuresIff | apps/worker/src/services/jobLease.ts:18-25 | with at most two failures in a row the lease never runs out if and only if the claim's lease lasts until the first landing and each renewal after two failures is no later after its tick than the last before them was |
| LeaseTiming.QuickClaimIsEnough | apps/worker/src/services/jobLease.ts:18-25 | it is enough that the time the claim took and the delay of the first landing together stay within one tick |
| LeaseTiming.TwoFailuresAreNot | apps/worker/src/services/jobLease.ts:18-25 | two failures before any landing are too many when the third renewal takes two milliseconds or more after its tick |
| LeaseTiming.SlowClaimCanLapse | apps/worker/src/services/jobLease.ts:18-25 | a slow claim followed by one failure can |
| LeaseTiming.HeldLease.AssertHeld | apps/worker/src/services/jobLease.ts:26-29 | lost exactly when some renewal found another owner; database errors do not count |
| Reaper.Reconciler.EnsureQueued | apps/worker/src/jobs/reaper.job.ts:16-24 | a live message afterwards or a dead one whose removal failed, a live one left alone, no other message touched |
| Reaper.Reconciler.FindExpired | apps/worker/src/repositories/uploadJob.repository.ts:138-143 | exactly the jobs whose lease ran out, each once |
| Reaper.Reconciler.FindStale | apps/worker/src/repositories/uploadJob.repository.ts:148-154 | only stale pending jobs, and all of them unless 200 are returned |
| Reaper.Reconciler.Reconcile | apps/worker/src/jobs/reaper.job.ts:42-53 | every selected job is failed at its limit or has a live message, or a dead one whose removal failed; no other job or live message changes |
| Reaper.Reconciler.RunLeaseReaper | apps/worker/src/jobs/reaper.job.ts:33-54 | a whole cycle of both stages: all expired jobs and the stale ones up to the query's limit are selected, every selected job is failed or has a live message, no other job changes, no live message changes and no message is added for another job |
| QueueRace.AllReturnedMeansLive | apps/backend/src/modules/inventory/inventory.queue.ts:11-18 | if removals fail for active messages only, then however processes and workers interleave, once all processes returned there is a live message, or one has run to its end meanwhile |
| QueueRace.ReturnsAfterLive | apps/worker/src/jobs/reaper.job.ts:16-24 | a process returns only after a moment, at or after its look, when the message was live, or after its removal failed for another reason |
| QueueRace.LiveMessageRemovedIff | apps/worker/src/jobs/reaper.job.ts:16-24 | some schedule takes a live message away if and only if two processes start on an existing message or three on none |
| QueueRace.AloneNeverRemovesLive | apps/worker/src/jobs/reaper.job.ts:16-24 | a single process never takes a live message away, at whatever point of its steps it starts |
| QueueRace.TwoCanReplaceLive | apps/backend/src/modules/inventory/inventory.queue.ts:12-17 | two processes can |
| EmbeddingPool.EnrichRows | apps/worker/src/pipeline/persist.ts:9-23 | under every schedule and any failures the pool ends, each row is embedded once and all rows come out in order, each with its own embedding or none |
| EditDistance.LevIsDistance | apps/backend/src/modules/search/search.queryAnalyzer.ts:17-28 | the table's value is the least number of insertions, deletions and substitutions |
| EditDistance.NoShorterScript | apps/backend/src/modules/search/search.queryAnalyzer.ts:17-28 | no edit script is shorter |
| EditDistance.DistanceIsAMetric | apps/backend/src/modules/search/search.queryAnalyzer.ts:17-28 | zero exactly for equal strings, symmetric, triangle inequality |
| EditDistance.ComputeEditDistance | apps/backend/src/modules/search/search.queryAnalyzer.ts:17-28 | the one row overwritten in place ends with that distance |
| EditDistance.NextRow | apps/backend/src/modules/search/search.queryAnalyzer.ts:20-25 | one pass turns a row of the table into the next |
| EditDistance.FuzzyMatchIsEarliestNearest | apps/backend/src/modules/search/search.queryAnalyzer.ts:30-34 | a word is returned if and only if it is the earliest nearest one, the token has four characters and the distance is within the threshold |
| ListingPhotos.OrderIsPlace | apps/backend/src/modules/marketplace/listing.service.ts:37 | the orders are a permutation of 0 to n - 1: the photo shown at place i is the one with order i |
| ListingPhotos.AppendShowsAtEnd | apps/worker/src/repositories/listing.repository.ts:55-61 | appended photos are shown behind all others, which stay in place; afterwards no key is listed twice if and only if the batch repeats none |
| ListingPhotos.ReorderShowsKeys | apps/backend/src/modules/marketplace/listingImage.service.ts:71-82 | a reorder shows exactly the given keys in the given order |
| ListingPhotos.OnlyDistinctReorder | apps/backend/src/modules/marketplace/listingImage.service.ts:71-78 | a list that has a key twice is never reordered, whatever keys are given |
| ListingPhotos.ReorderKeepsPhotos | apps/backend/src/modules/marketplace/listingImage.service.ts:15-17 | each photo keeps its link, small copy and text |
| ListingPhotos.FailedDeleteShowsTheSame | apps/backend/src/modules/marketplace/listingImage.service.ts:61-64 | a delete whose storage call fails leaves the displayed list unchanged if and only if no other photo has the key |
| ListingPhotos.DeleteShowsStoredOrder | apps/backend/src/modules/marketplace/listingImage.service.ts:65-67 | a successful delete shows the other photos as they were stored |
| ListingPhotos.DeleteKeepsDisplayIff | apps/backend/src/modules/marketplace/listingImage.service.ts:65-67 | it keeps their displayed order if and only if they were stored in it |
| ListingPhotos.FailedDeleteThenDeleteSwaps | apps/backend/src/modules/marketplace/listingImage.service.ts:56-68 | a failed delete and then another delete swap the two photos left |
| ListingPhotos.HistoryIsSound | apps/backend/src/modules/marketplace/listingImage.service.ts:20-82 | a history keeps the orders a permutation, the keys distinct and the limit at every moment if and only if no appended batch repeats a key; then the stored order is the displayed one while no storage call failed |
| ListingPhotos.StepKeepsOrdered | apps/backend/src/modules/marketplace/listingImage.service.ts:56-68 | whatever the keys, every operation keeps the orders 0 to n - 1, but for a failed delete where a key is listed twice |
| ListingPhotos.Album.AddImage | apps/backend/src/modules/marketplace/listing.repository.ts:83-89 | added below the limit with the next order, refused at it |
| ListingPhotos.Album.AppendImages | apps/worker/src/repositories/listing.repository.ts:55-61 | all photos or none, by the guard; a batch that repeats a key goes in |
| ListingPhotos.Album.ReorderImages | apps/backend/src/modules/marketplace/listingImage.service.ts:71-82 | done exactly for a complete key set |
| ListingPhotos.Album.DeleteImage | apps/backend/src/modules/marketplace/listingImage.service.ts:56-68 | not found, deleted and renumbered, or put back |
| ListingLifecycle.BulkIsPointwise | apps/backend/src/modules/marketplace/listing.repository.ts:119-124 | a bulk action changes exactly the listings in scope that it applies to |
| ListingLifecycle.BulkKeepsUnique | apps/backend/src/modules/marketplace/listing.service.ts:109-119 | publishing any set of drafts changes neither which listings are open nor their plates, so uniqueness holds without a check; the other actions open none |
| ListingLifecycle.ListingCollection.CreateListing | apps/backend/src/modules/marketplace/listing.service.ts:68-83 | refused at the dealer's limit first, then if another open listing holds the plate, otherwise created |
| ListingLifecycle.ListingCollection.TransitionStatus | apps/backend/src/modules/marketplace/listing.repository.ts:78-80 | applied exactly if the status is still the one read and the index allows it |
| ListingLifecycle.ListingCollection.ApplyBulkAction | apps/backend/src/modules/marketplace/listing.service.ts:109-119 | publish, mark-sold and archive: the whole scope, one document at a time, and how many changed |
| ListingLifecycle.RunKeepsInv | apps/backend/src/modules/marketplace/listing.model.ts:95-111 | in every interleaving with imports at most one open listing per plate and one listing per CSV row, active and sold listings have a publication date and drafts none |
| ListingLifecycle.StepFollowsTable | apps/backend/src/modules/marketplace/listing.service.ts:198-200 | every write, also admin and bulk ones, moves a status along the table or leaves it |
| ListingLifecycle.HistoryOfOneListing | apps/backend/src/modules/marketplace/listing.service.ts:203-225 | between any two moments of any history: archived is never left, the first publication date is kept, nothing becomes a draft again |
| ListingLifecycle.DraftLeavesOnce | apps/backend/src/modules/marketplace/listing.service.ts:203-219 | of the requests that read a listing as a draft at most one takes effect, and a draft's request always does if it comes first |
| ListingLifecycle.TakenPlateStaysTaken | apps/backend/src/modules/marketplace/listing.model.ts:108-111 | a request to activate succeeds exactly if no other open listing holds the plate when it writes |
| EmailOutbox.RunKeepsInv | apps/worker/src/jobs/emailOutbox.job.ts:15-42 | in every run sent means accepted, failed means no recipient or five attempts, and mails accepted never exceed attempts |
| EmailOutbox.RetryWaits | apps/worker/src/jobs/emailOutbox.job.ts:6-9 | after a failed attempt the email is due again exactly when its delay is over, and the delays grow from a minute to two hours |
| EmailOutbox.SentAtMostFiveTimes | apps/worker/src/jobs/emailOutbox.job.ts:6-14 | while no claim runs out under a living worker a mail is sent at most five times and once more per crash |
| EmailOutbox.BoundIsReached | apps/worker/src/jobs/emailOutbox.job.ts:6-14 | for every number of crashes some such run sends the mail five times and once more per crash |
| EmailOutbox.FinalStaysFinal | apps/worker/src/repositories/notification.repository.ts:70-80 | then a sent or failed email never changes again |
| EmailOutbox.LateAttemptUndoesSent | apps/worker/src/repositories/notification.repository.ts:78-80 | a claim that runs out can turn sent into failed |
| EmailOutbox.ClosedStatusChangesIff | apps/worker/src/repositories/notification.repository.ts:70-80 | a sent or failed email can change its status again if and only if an attempt is in progress that has not had its answer, is the fifth or later (sent), or can still deliver (failed) |
| EmailOutbox.Outbox.RunEmailOutbox | apps/worker/src/jobs/emailOutbox.job.ts:15-42 | the counters are the changes made, a short cycle means nothing is due, and no email is tried twice in under a minute |
| CsvTemplate.ReadEscaped | packages/shared-contracts/src/vehicle/csvTemplates.ts:100 | a printed value reads back as itself, whatever quotes, commas and line feeds it has |
| CsvTemplate.ReadRecords | packages/shared-contracts/src/vehicle/csvTemplates.ts:101-102 | printed records read back as those records |
| CsvTemplate.TemplateRoundTrip | packages/shared-contracts/src/vehicle/csvTemplates.ts:98-103 | the template reads back as its keys and cells if and only if every cell with a carriage return has a reason to be quoted |
| CsvTemplate.LabelledCells | packages/shared-contracts/src/vehicle/csvTemplates.ts:101 | under the header a record is the example row again, missing cells as empty |
| CsvTemplate.TemplateGivesExampleRows | packages/shared-contracts/src/vehicle/csvTemplates.ts:98-103 | reading the file under its header gives the example rows if and only if every cell with a carriage return has a reason to be quoted, and nothing otherwise |
| ZipArchive.ReadEntryWithinLimit | apps/worker/src/services/imageProcessing.service.ts:46-66 | the whole entry if it is within the limit, nothing otherwise |
| ZipArchive.ExtractImageEntries | apps/worker/src/services/imageProcessing.service.ts:73-116 | accepted if and only if the limits hold and there is a photo in a folder; then every usable photo is in its folder's list once and in order |
| ZipArchive.GroupIsWellFormed | apps/worker/src/services/imageProcessing.service.ts:107-110 | photos that differ in path or content give folders that can be attached again safely |
| ZipPhotos.FreshAfter | apps/worker/src/services/imageProcessing.service.ts:168-171 | after the first k unattached photos are attached, the unattached ones are those of the others that repeat none of them, which is all of the others if and only if none repeats one |
| ZipPhotos.SecondTime | apps/worker/src/services/imageProcessing.service.ts:166-173 | a folder attached before attaches nothing more, whatever its entries, and counts the same photos if and only if no left-out entry repeats an attached one |
| ZipPhotos.FirstTime | apps/worker/src/repositories/listing.repository.ts:57-60 | a folder not attached before passes the append's guard |
| ZipPhotos.FinalIsSound | apps/worker/src/services/imageProcessing.service.ts:165-174 | no key is attached twice if and only if the chosen entries are distinct; new photos go behind the old ones, the limit is kept and a photo is left out only when the listing is full |
| ZipPhotos.RetriesEqualOneCleanRun | apps/worker/src/services/imageProcessing.service.ts:156-182 | after any crashes an attempt that gets through leaves the photos and objects of one clean run and matches the same folders; it reports no fewer photos, and the same when no left-out entry repeats an attached one, as photos that differ in path or content never do |
| ZipPhotos.ReportsAgreeIff | apps/worker/src/services/imageProcessing.service.ts:166-182 | the report is the clean run's after every history of crashes if and only if no left-out entry repeats an attached one |
| ZipPhotos.AlbumsStaySound | apps/worker/src/services/imageProcessing.service.ts:137-140 | between attempts each listing has its old or its final photos, within the limit, and a key twice only if the folder's chosen entries repeat one |
| ZipPhotos.NoDanglingPhoto | apps/worker/src/services/imageProcessing.service.ts:174-178 | every photo attached from the archive has its objects |
| ZipPhotos.RefusedAppendCleansUp | apps/worker/src/services/imageProcessing.service.ts:177-178 | a refused append leaves none of its objects and changes nothing else |
| ZipPhotos.OverlapLeavesDanglingPhotos | apps/worker/src/services/imageProcessing.service.ts:174-178 | of two overlapping attempts the second removes the objects of every photo the first attached |
| ZipPhotos.DanglesIff | apps/worker/src/services/imageProcessing.service.ts:174-178 | a folder leaves a photo of its listing without its object if and only if a key it was about to attach has been attached since the listings were read, its uploads, append and cleanup taken as one step |
| FolderRace.LosesObjectIff | apps/worker/src/services/imageProcessing.service.ts:174-178 | with uploads, append and cleanup apart and the dealer's changes in between, a listed photo can lose its object without being deleted if and only if an attempt at the folder read the listing before it was there or an earlier deletion of its key is not over |
| FolderRace.CanDangleIff | apps/worker/src/services/imageProcessing.service.ts:165-178 | attempts that have read the listing can make a photo dangle if and only if it is listed and one of them chose it, or one can still list it and another chose it too or has removed its object |
| FolderRace.AloneNeverDangles | apps/worker/src/services/imageProcessing.service.ts:165-178 | attempts that come to the folder one after the other, and not while a deletion is going on, never leave a listed photo without its object, wherever they die and whatever the dealer does after that |
| ZipPhotos.FoldersAddUp | apps/worker/src/services/imageProcessing.service.ts:160-164 | matched plus unmatched is the number of folders, and unmatched are those without a listing |
| ZipPhotos.PhotoStage.ProcessInventoryImages | apps/worker/src/services/imageProcessing.service.ts:152-182 | the loop over the folders does what the value model says and reports a clean run's numbers |
| Migration.NoPhotoIsLost | apps/backend/src/scripts/listingImageMigration.ts:58-73 | at every crash point each photo still has its old object untouched or the new one made from it |
| Migration.RestartEqualsOneRun | apps/backend/src/scripts/listingImageMigration.ts:30-35 | crashes and a rerun give the new objects, small copies and addresses of one clean run |
| Migration.RunSettlesEverything | apps/backend/src/scripts/listingImageMigration.ts:35-95 | every listed photo that can be converted has its new object, every small copy that can be made is there, and the addresses are the wanted ones |
| Migration.SecondRunDoesNothing | apps/backend/src/scripts/listingImageMigration.ts:31-32 | a further run writes, removes and updates nothing |
| Migration.DryRunDoesNothing | apps/backend/src/scripts/listingImageMigration.ts:69-92 | a dry run changes nothing |
| Migration.NewThumbUrlsAre | apps/backend/src/scripts/listingImageMigration.ts:86 | a key is recorded for its small copy if and only if some photo with that key has another address than the wanted one, and with the address wanted for all of them |
| MigrationScript.ListingImageMigration.MigrateImage | apps/backend/src/scripts/listingImageMigration.ts:40-87 | one photo, branch by branch |
| MigrationScript.ListingImageMigration.MigrateListingImages | apps/backend/src/scripts/listingImageMigration.ts:35-95 | the script leaves the modelled run's store and that run's summary, dry or not |
| MigrationScript.DryRunPredictsIff | apps/backend/src/scripts/listingImageMigration.ts:35-95 | a run's summary is the one a dry run gives if and only if no photo with work left is listed twice |

## Left out

- ImportRefinement.CrashResumeRefinement: is about attempts that do not overlap and a stock nobody else changes, because listing inserts are not fenced by the lease; `ImportOverlap` says what holds under overlap.
- ImportOverlap.OverlappingJobImportsAll: needs a stock that only this upload changes, because another upload's or the dealer's changes move the reference importer as well.
- JobImport.SeparateAttemptsAreExact: needs also that nothing is claimed while an attempt of the job still lives; the code does not prevent that after a hand-back, and `ImportOverlap.OverlapMiscounts` shows what comes of it.
- JobImport: an attempt whose error has been handled is taken to be able to go on like any other until it is gone, which allows more than the code does.
- JobPhotos: a run is that of one zip; a folder's append and its cleanup are one step there, `FolderRace` has them apart.
- FolderRace: a dealer's delete whose storage call fails is in `ListingPhotos` only.
- After a resume a later repeat of an over-limit plate may be recorded as "validation" instead of "duplicate"; which rows are rejected is the same, so reasons are not compared.
- JobProtocol: each enqueue is one step, its finer interleavings are in `QueueRace`; notifications sent after a job ends are not part of this model.
- Migration.RestartEqualsOneRun: does not compare old objects at the bucket root, because the script never removes one once the new object exists; addresses of photos that could not be moved are rewritten too.
- Migration: a key that a listing holds more than once has the same folder each time unless a public URL is given, because one append is all that can put a key in twice, and it gives its photos their addresses from one base; a failing storage or database call ends a run like a crash.
- ZipPhotos.RetriesEqualOneCleanRun: needs attempts that do not overlap and listings nobody else changes, because a failed append removes objects by key; folders have distinct plates, as `ZipArchive.GroupHasDistinctPlates` shows of every archive, and at most one listing of an upload per plate is assumed.
- ZipPhotos.DanglesIff: takes a folder's uploads, append and cleanup as one step; `FolderRace` states it with them apart.
- ListingPhotos: each operation is one step; interleavings of the separate reads and writes of one operation are not modelled.
- ListingLifecycle.ListingCollection.ApplyBulkAction: confirm-available and reduce-price are left out, because they change only the last confirmation and the price, which are not part of this model; deleting archived listings is in it, without their photos.
- ListingLifecycle: texts and attributes are not part of this model; in the interleaved world the check of a plate or of the dealer's limit before a write is only a request that may be dropped, as neither check holds until the write.
- EmailOutbox: mail text, recipients' addresses and the order of two emails in different workers.
- Importer: the class of the attempt and its stores are separate from UploadJob's document; the checkpoint there is the counters only, and the document's guards are in UploadJob and JobProtocol.
- EditDistance: strings are sequences of Dafny characters, not UTF-16 code units; `analyzeSearchQuery` with its regular expressions is left out.
- CSV parsing of uploads (trimming, byte order mark, quoting rules of the parser), row validation and text cleaning: a row arrives judged.
- Image decoding and re-encoding, hashing, random keys, object storage, the mail server, the queue's internals and the database's own behaviour are abstract.
- Embedding vectors, search scoring, serializers, pagination, authentication, rate limits, React pages: easy members or none.
