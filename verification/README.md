# File lifecycle model

A Dafny model of the core of a multi-tenant file service: upload sessions and their completion, content
deduplication, reference counting and garbage collection, the transactional outbox, the job lock, idempotent
access tickets, admin pagination, tenant policies and the migration collector. `dafny verify dfyconfig.toml` checks
all of it.

## How it is organised

- `Sessions`, `Hashes`: the session object (a class with the source's methods, each proved against a function on
  its value), the columns it is stored in, and the choice of the content hash.
- `Database`: the tables, and every database transaction as one function from tables to tables.
- `Store`: the same transactions as they run, statement by statement on a class with one field per table, with
  rollback; every method is proved equal to its function in `Database`.
- `Lifecycle`: the whole service as a labelled transition system. An interleaving is a sequence of actions:
  handlers are split wherever they leave a transaction (a completion is begin, prepare, commit or fail; abort and
  mark-uploading are a read and a later save), cleanups may delete some objects and then roll their rows back, and
  a completion may stop anywhere.
- `Invariant`, `SessionSteps`, `AssetSteps`, `GarbageSteps`, `Safety`: one inductive invariant, kept by every action.
- `Effects`: what each action does to the tables in every reachable state, field by field, and exactly when.
- `Theorems`, `History`, `Outcomes`, `Contents`: what follows for every reachable state and every run, about single
  sessions, about outcome events, and about what the objects hold.
- `LateSaves`, `Witnesses`: what fails without the assumption on saves, and short runs that reach each exception.
- `Parts`, `Backoff`, `Outbox`, `Locks`, `Tickets`, `Pages`, `Policy`, `Migrations`: the smaller cores.
  `Base` and `Occurrences` hold shared vocabulary.

## Assumptions

- One clock, which never goes backwards, past Go's zero time.
- A generated blob id is new (a commit with a used one does nothing in the model); event, file and audit ids may
  collide, and then the insert fails and the transaction rolls back.
- The object key is determined by tenant and session id.
- A session belongs to a tenant whose usage row exists, as policy and usage rows are created with the tenant.
- Each transaction is atomic, and a job batch is any selection of the rows its query matches.
- A mark-uploading save is harmless: the session it overwrites has no file yet. `Save` does not check this. Without
  it a session can get a second file, and an ACTIVE file can lose its object (`Witnesses.HarmlessSavesAreNeeded`).

Three results ask for more, each for exactly what it needs:

- One outcome event per session: a mark-uploading save meets a session with no announced outcome. This guard is exact
  (`Outcomes.OneOutcomeExactly`), and harmless saves are not enough (`Witnesses.HarmlessIsNotEnough`).
- The order of the statuses of one session: the saves of that session are timely, that is, they meet an INITIATED or
  UPLOADING row. This is exact for each save (`History.TimelyExactly`); a handler that reads and saves in one step is
  always timely (`History.AtomicMarkIsTimely`).
- The content of an object: writes to it are clean, that is, no file and no verified upload of its session says
  otherwise. This is exact for each write (`Contents.PutExactly`). Storage reports the digest of what an object holds.

## Where the code differs from what one would expect

- `Save` has no status guard. A late abort can overwrite COMPLETED with ABORTED; the file, its event and its
  reference count survive, and the session still never yields a second file. A late mark-uploading save can reopen
  a FAILED session, which may then be completed after its failure was announced.
- The inline handler writes the object before it checks the status, so a refused upload to a COMPLETED session still
  replaces the content of its ACTIVE file, whose recorded hash is then wrong.
- Completing a COMPLETED session returns its file without comparing the hash the command declares.
- `uq_blob_objects_hash` also covers deleted blobs, and the dedup lookup skips them: once the last file of some
  content is deleted and no hit on it is in flight, that content can never be uploaded to that tenant and bucket again.
- `ApplyDelta` does not count files, so `used_file_count` is only a lower bound until usage is reconciled.
- Multipart cleanup clears the upload id that `Validate` requires, so the cleaned rows can no longer be loaded.
- The page cursor is the lookahead row, which the next page then skips: every (limit+1)-th row is never listed.
- A ticket record expires later than its ticket by the time between issuing and storing; in between, a retry is
  answered with the expired ticket.
- The lock owner is host name and process id, so exclusion rests on no two processes sharing both.
- With an odd maximum backoff the delay jumps to the maximum one step early.

## Model

| member | source | states |
|---|---|---|
| `Theorems.ActiveObjectsSurvive` | internal/services/job/infra/postgres/repositories.go:140-278 | in every reachable state no ACTIVE file's own object has been physically deleted, whatever dedup hits were stale and whatever cleanups rolled back |
| `Theorems.OneFilePerSession` | internal/services/upload/app/commands/complete_upload_session.go:305-450 | in every interleaving a session yields at most one file |
| `Theorems.CompletionsAgree` | internal/services/upload/app/commands/complete_upload_session.go:131-211 | all successful completions of a session, under any token, returned the same existing file |
| `Theorems.ReferenceCountsAreExact` | internal/services/upload/infra/postgres/repositories.go:432-516 | the reference count is the number of ACTIVE files on the blob; GREATEST never clamps; NOT EXISTS is equivalent to a zero count |
| `Theorems.UsageIsExact` | internal/services/job/infra/postgres/repositories.go:355-410 | used bytes are always the sum over ACTIVE files; the file count never exceeds their number; reconciling changes only the count and makes it exact |
| `Theorems.DedupKeepsContentApart` | internal/services/upload/infra/postgres/repositories.go:432-551 | files sharing a blob agree with it on tenant, bucket and hash, and with the hash their session declared |
| `Theorems.FileKeepsDeclaredHash` | internal/services/upload/app/commands/complete_upload_session.go:524-574 | in every reachable state the file a request made is stored under the hash that request declared |
| `Theorems.MakerIsRecorded` | internal/services/upload/app/commands/complete_upload_session.go:305-450 | the request whose commit makes a file is answered with that file and keeps its declared hash |
| `Theorems.DoneIgnoresDeclared` | internal/services/upload/app/commands/complete_upload_session.go:174-180 | a completion of a COMPLETED session changes nothing and is answered with its file, whatever hash it declares |
| `Theorems.MaterializesExactly` | internal/services/upload/app/commands/complete_upload_session.go:213-303 | the exact condition under which an upload materializes, the part count it records, and that it is a dedup hit exactly if a live blob of that content has an ACTIVE file |
| `Theorems.RowsLoadExactly` | internal/services/upload/infra/postgres/repositories.go:664-777 | in every reachable state a stored session saves and loads back unchanged, except exactly the multipart rows whose upload id cleanup removed |
| `Theorems.RepairAlwaysFails` | internal/services/job/infra/postgres/repositories.go:98-138 | a COMPLETING row has no file id, so repair fails it and never completes it |
| `Theorems.CompletedEventsMatchFiles` | internal/services/upload/app/commands/complete_upload_session.go:407-437 | a completed event exists if and only if that file was made, and only once per session |
| `Theorems.DeleteEventsMatchFacts` | internal/services/admin/app/commands/delete_file.go:68-111 | exactly one delete event and one delete audit entry for a DELETED file, none otherwise |
| `Theorems.MissCommitsOnlyNewContent` | migrations/file/000101_create_blob_objects.up.sql:28-29 | the commit of a dedup miss succeeds if and only if no blob row, live or deleted, has that content |
| `Theorems.DeletedContentNeverReturns` | internal/services/upload/infra/postgres/repositories.go:518-551 | after the last file of some content is gone, no later state of any run has an ACTIVE file with that content |
| `Theorems.DeadForever` | internal/services/upload/infra/postgres/repositories.go:432-551 | an unreferenced blob that no request holds a hit on stays unreferenced, with the same identity, in every run |
| `Safety.StepKeepsInv` | internal/services/upload/infra/postgres/repositories.go:844-861 | every action whose save is harmless keeps the invariant of sessions, copies, requests, files, blobs, counts, usage, storage and events |
| `Safety.RunKeepsInv` | internal/services/upload/infra/postgres/repositories.go:844-861 | so does every run of such actions |
| `AssetSteps.CommitOutcome` | internal/services/upload/app/commands/complete_upload_session.go:314-437 | a commit changes nothing or completes the COMPLETING session whose token it holds, with a new file on that session's own object and a blob of the same content |
| `GarbageSteps.UnreferencedObjectIsDead` | internal/services/job/infra/postgres/repositories.go:140-278 | the object of a blob with reference count zero belongs to no ACTIVE file |
| `GarbageSteps.FailOutcome` | internal/services/upload/app/commands/complete_upload_session.go:462-508 | a terminal failure changes nothing or fails exactly the COMPLETING session whose token it holds |
| `Effects.BeginOnOpenSession` | internal/services/upload/domain/session.go:246-260 | an INITIATED or UPLOADING session becomes COMPLETING under the caller's token, started now, and the caller goes on with that row |
| `Effects.BeginOnCompletingSession` | internal/services/upload/app/commands/complete_upload_session.go:164-186 | on a COMPLETING session the tables stay; the owner of the token goes on with the row, anybody else is answered that a completion is in progress |
| `Effects.BeginRefused` | internal/services/upload/app/commands/complete_upload_session.go:144-164 | an ended, unreadable or unknown session, or a missing token, is refused with that reason and nothing changes |
| `Effects.PrepareRecordsStorage` | internal/services/upload/app/commands/complete_upload_session.go:213-303 | a completion goes on with the size storage reports and the number of parts it lists, or is refused, and the tables stay |
| `Effects.RefusesExactly` | internal/services/upload/app/commands/complete_upload_session.go:213-303 | which reason an upload is refused for, and that it materializes if there is none |
| `Effects.HitsExactly` | internal/services/upload/infra/postgres/repositories.go:518-551 | the lookup hits exactly when a live blob of the tenant, bucket and hash has an ACTIVE file |
| `Effects.CommitsExactly` | internal/services/upload/app/commands/complete_upload_session.go:305-450 | the owner of a COMPLETING session files its upload exactly when the parts fit, the ids are new and no other blob is in the way: file and blob get the reported size, or else the declared one, and the tenant's bytes grow by it; otherwise nothing changes |
| `Effects.CommitRefusedExactly` | internal/services/upload/app/commands/complete_upload_session.go:314-323 | under another token, or once the session has ended, a commit is an error and changes nothing |
| `Effects.CommitOfCompleted` | internal/services/upload/app/commands/complete_upload_session.go:321-327 | under the token of a session that is COMPLETED by now, a commit is answered with its file and changes nothing |
| `Effects.FailsExactly` | internal/services/upload/app/commands/complete_upload_session.go:452-510 | a refused completion fails its session exactly for the five terminal reasons and under the token of a COMPLETING row; row and event are given |
| `Effects.CodesAreDistinct` | internal/services/upload/app/commands/complete_upload_session.go:476-481 | the stored failure code tells the terminal reasons and the repair apart |
| `Effects.DeletesExactly` | internal/services/admin/infra/postgres/repositories.go:437-499 | deleting an ACTIVE file takes one reference and its size, neither ever clamped, lowers a positive file count by one, and leaves other tenants alone |
| `Effects.DeleteKeepsCountExact` | internal/services/admin/infra/postgres/repositories.go:484-493 | an exact file count stays exact when a file is deleted |
| `Effects.DeleteRefused` | internal/services/admin/app/commands/delete_file.go:68-111 | deleting an unknown or DELETED file, or under a used id, changes nothing |
| `Effects.ExpiresExactly` | internal/services/job/infra/postgres/repositories.go:73-96 | a row changes exactly if it is in the batch, unfinished and past its expiry; it is then EXPIRED without token and start time, and otherwise what it was |
| `Effects.RepairsExactly` | internal/services/job/infra/postgres/repositories.go:98-138 | a row changes exactly if it is in the batch, COMPLETING and untouched since the cutoff; it is then completed or failed by its file id, in every reachable state failed |
| `Effects.CleansExactly` | internal/services/job/infra/postgres/repositories.go:302-343 | a row changes exactly if it is in the batch, ended, stale and still has an upload id, which it then loses |
| `Effects.FinalizesExactly` | internal/services/job/infra/postgres/repositories.go:140-207 | the job acts exactly on unreferenced uncollected blobs of a file deleted before the cutoff; which objects go and which rows are marked |
| `Effects.CollectsOrphansExactly` | internal/services/job/infra/postgres/repositories.go:209-278 | likewise for unreferenced uncollected blobs untouched since the cutoff; the NOT EXISTS clause adds nothing |
| `Effects.MarksExactly` | internal/services/upload/app/queries/list_uploaded_parts.go:52-94 | exactly when a session is marked as uploading, and that its part count only grows |
| `Effects.AbortsExactly` | internal/services/upload/app/commands/abort_upload_session.go:53-63 | exactly what aborting reads and changes for each status |
| `Effects.SavesExactly` | internal/services/upload/infra/postgres/repositories.go:153-228 | saving rewrites the whole row exactly if the table accepts its part count |
| `Effects.CreatesExactly` | internal/services/upload/domain/session.go:73-112 | a session is created exactly when it is new and valid, with TotalParts filled in |
| `Effects.FailAnswers` | internal/services/upload/app/commands/complete_upload_session.go:462-508 | what the failure transaction answers: an error exactly if the owner is not confirmed, the message is missing or the event id is taken |
| `Effects.ConfirmsExactly` | internal/services/upload/infra/postgres/repositories.go:347-366 | the owner is confirmed exactly under the non-blank token of a row that can be read |
| `Effects.ReadAnswers` | internal/services/upload/app/commands/abort_upload_session.go:53-63 | with which error aborting and marking as uploading refuse |
| `Effects.DeleteAnswers` | internal/services/admin/infra/postgres/repositories.go:437-499 | what a delete answers, and that its decrements stop at zero whatever the tables hold |
| `Effects.CleanupMarks` | internal/services/job/infra/postgres/repositories.go:187-196 | the update of a cleanup marks a row only if it is unreferenced, and keeps an earlier mark |
| `Effects.MissingRows` | internal/services/upload/infra/postgres/repositories.go:601-617 | a tenant without a usage row gets none; a commit records at least one part |
| `Store.ReconciledAllMeans` | internal/services/job/infra/postgres/repositories.go:379-407 | each selected tenant gets the sum and the number of its ACTIVE files, and nothing else changes |
| `Policy.EarlierValuesStay` | internal/services/admin/domain/tenant_policy.go:199-222 | values are kept in the order of their first occurrence |
| `Sessions.ValidateReports` | internal/services/upload/domain/session.go:114-230 | which error validation reports, hash errors before those that come later |
| `Sessions.ClosedTransitions` | internal/services/upload/domain/session.go:232-325 | transitions that are refused or have happened already leave the session alone, with the error of each |
| `History.RankNeverFalls` | internal/services/upload/domain/session.go:232-325 | over every run a session whose own saves are timely never falls in rank, is never completed after it has ended, and keeps its first token while COMPLETING, whatever happens to other sessions |
| `History.TerminalIsFinal` | internal/services/upload/domain/session.go:310-325 | its terminal status never changes if its own aborts are saved in time |
| `History.EndedIsNeverCompleted` | internal/services/job/infra/postgres/repositories.go:73-138 | after an abort, expiry, repair or failure every commit of that session is refused without effect, forever, if its own saves are timely |
| `Outcomes.OneOutcomePerSession` | internal/services/upload/app/commands/complete_upload_session.go:407-508 | over every run in which no save overwrites a session with an announced outcome, at most one outcome, completed or failed, is announced for a session |
| `Outcomes.LateSaveAnnouncesFailure` | internal/services/upload/app/commands/complete_upload_session.go:462-508 | from every pending save, in any mode, four steps announce a failure of its session |
| `Outcomes.OneOutcomeExactly` | internal/services/upload/infra/postgres/repositories.go:153-228 | after those steps the session has one announced outcome if and only if none was announced when the save came |
| `History.OnlyTheOwnerCommits` | internal/services/upload/infra/postgres/repositories.go:347-366 | a commit changes a session only if it is COMPLETING under the request's token |
| `History.OnlyTheOwnerFails` | internal/services/upload/infra/postgres/repositories.go:347-366 | so does a failure |
| `History.AtomicMarkIsTimely` | internal/services/upload/app/commands/upload_inline_content.go:59-86 | mark-uploading in one step is always timely |
| `History.TimelyIsHarmless` | internal/services/upload/app/queries/list_uploaded_parts.go:52-94 | a timely save never overwrites a session that has a file |
| `History.HarmlessExactly` | internal/services/upload/infra/postgres/repositories.go:153-228 | a mark-uploading save reopens a session that has a file if and only if it is not harmless |
| `History.AtomicAbortIsInTime` | internal/services/upload/app/commands/abort_upload_session.go:53-64 | abort in one step is always in time |
| `History.AbortInTimeExactly` | internal/services/upload/app/commands/abort_upload_session.go:53-64 | saving an abort keeps a terminal status if and only if it comes in time |
| `History.TimelyExactly` | internal/services/upload/app/queries/list_uploaded_parts.go:52-94 | saving a mark-uploading copy keeps the rank order if and only if it is timely |
| `LateSaves.LateSaveMakesSecondFile` | internal/services/upload/infra/postgres/repositories.go:153-228 | from every state with a pending save of an inline session that has a file on a live, hashed blob in use, four steps make a second file of that session, ACTIVE |
| `LateSaves.LateSaveLosesAnObject` | internal/services/job/app/jobs/finalize_file_delete.go:53-56 | if that file is the only ACTIVE one on its blob, then for every retention of the finalize job a run ends with an ACTIVE file whose object is deleted |
| `Witnesses.HarmlessSavesAreNeeded` | internal/services/upload/app/commands/upload_inline_content.go:59-86 | such a state is reachable, so for every retention some run loses an ACTIVE file's object |
| `Witnesses.HarmlessIsNotEnough` | internal/services/upload/app/commands/upload_inline_content.go:59-86 | a reachable harmless save over a session whose failure was announced, after which the session has a failed and a completed event |
| `Witnesses.LateAbortOverwritesCompleted` | internal/services/upload/app/commands/abort_upload_session.go:53-64 | a reachable state in which saving an abort turns COMPLETED into ABORTED and leaves the file |
| `Witnesses.DeclaredHashIsNotChecked` | internal/services/upload/app/commands/complete_upload_session.go:174-180 | a reachable completion answered with a file of another hash than it declared |
| `Witnesses.DeadContentIsRefused` | migrations/file/000101_create_blob_objects.up.sql:28-29 | a reachable dead blob, and a reachable new upload of its content whose commit is refused |
| `Witnesses.RefusedWriteIsReachable` | internal/services/upload/app/commands/upload_inline_content.go:79-84 | a reachable COMPLETED inline session whose refused upload replaces the content of its ACTIVE file |
| `Witnesses.CleanedRowDoesNotLoad` | internal/services/job/infra/postgres/repositories.go:338-343 | a reachable multipart row that no longer loads after cleanup |
| `Contents.CleanWritesKeepContent` | internal/services/upload/app/commands/complete_upload_session.go:255-273 | over every run with an honest storage and clean writes, every file's recorded hash is the digest of its object at all times |
| `Contents.PutExactly` | internal/services/upload/app/commands/upload_inline_content.go:79-81 | a write keeps every file and every verified upload true to its object if and only if it is clean |
| `Contents.CheckedWritesKeepContent` | internal/services/upload/app/commands/upload_inline_content.go:79-88 | if every write met an INITIATED or UPLOADING session and saves were timely, every recorded hash would stay true |
| `Contents.DirtyUploadShows` | internal/services/upload/app/commands/complete_upload_session.go:305-450 | the file a verified upload becomes is true to its object if and only if the upload still was when it was committed |
| `Contents.RefusedWriteOverwrites` | internal/services/upload/app/commands/upload_inline_content.go:79-84 | the handler refuses a session that has a file, and its hash stays true if and only if the same content was written |
| `Sessions.Session.CheckValid` | internal/services/upload/domain/session.go:114-230 | the result and the TotalParts it fills in are those of the validation function |
| `Sessions.Session.Upload` | internal/services/upload/domain/session.go:232-244 | allowed only before completion; CompletedParts only grows |
| `Sessions.Session.Acquire` | internal/services/upload/domain/session.go:246-272 | the new state, error and ownership for every status and token |
| `Sessions.Session.Complete` | internal/services/upload/domain/session.go:274-291 | the new state and error; idempotent for the same file, a conflict for another |
| `Sessions.Session.Fail` | internal/services/upload/domain/session.go:293-308 | the new state and error |
| `Sessions.Session.Cancel` | internal/services/upload/domain/session.go:310-325 | the new state and error |
| `Sessions.ValidateAcceptsExactly` | internal/services/upload/domain/session.go:114-230 | validation accepts exactly the well-shaped sessions, in whatever order it checks |
| `Sessions.SaveLoadRoundTrip` | internal/services/upload/infra/postgres/repositories.go:664-827 | saving and loading returns the session if and only if it is valid and has no zero timestamps |
| `Hashes.FiledUnderTheVerifiedHash` | internal/services/upload/app/commands/complete_upload_session.go:524-574 | resolution succeeds if and only if every declared hash is sound, equal and the verified checksum; the result is that hash; every refusal is terminal |
| `Store.Tables.Query` | internal/services/upload/infra/postgres/repositories.go:664-777 | the stored row if it validates, else the error |
| `Store.Tables.AcquireCompletion` | internal/services/upload/infra/postgres/repositories.go:311-345 | read, acquire and save equal the acquire transaction |
| `Store.Tables.ConfirmCompletionOwner` | internal/services/upload/infra/postgres/repositories.go:347-366 | finds the row only under its own token |
| `Store.Tables.Commit` | internal/services/upload/app/commands/complete_upload_session.go:305-450 | the statements with rollback are all or nothing and equal the commit transaction |
| `Store.Tables.FinalizeFailure` | internal/services/upload/app/commands/complete_upload_session.go:462-508 | likewise for the failure transaction |
| `Store.Tables.ReadForAbort` | internal/services/upload/app/commands/abort_upload_session.go:53-63 | the row the abort handler will save |
| `Store.Tables.ReadForUpload` | internal/services/upload/app/queries/list_uploaded_parts.go:52-93 | the row a mark-uploading handler will save |
| `Store.Tables.DeleteFile` | internal/services/admin/app/commands/delete_file.go:67-111 | file, audit entry and event, all or nothing |
| `Store.Tables.CollectBlobs` | internal/services/job/infra/postgres/repositories.go:177-207 | the objects before the first refused call are gone; the rows are marked only if all calls and the COMMIT succeed |
| `Store.Tables.Cleanup` | internal/services/job/infra/postgres/repositories.go:140-278 | of the scanned blobs exactly those that the finalize or the orphan query matches are collected, all or nothing but for the objects |
| `Store.FinalizeIsAnAction` | internal/services/job/infra/postgres/repositories.go:140-207 | what the finalize job does to the tables is one action of the transition system |
| `Store.OrphansAreAnAction` | internal/services/job/infra/postgres/repositories.go:209-278 | likewise for the orphan job |
| `Store.Tables.CleanMultipart` | internal/services/job/infra/postgres/repositories.go:280-353 | clears the upload ids of the whole batch or of none |
| `Store.Tables.ReconcileUsage` | internal/services/job/infra/postgres/repositories.go:355-410 | the usage of every selected tenant becomes the sum and the number of its ACTIVE files |
| `Parts.SortParts` | internal/services/upload/app/commands/complete_upload_session.go:605-609 | the in-place insertion sort yields a sorted permutation |
| `Parts.NormalizeUploadedParts` | internal/services/upload/app/commands/complete_upload_session.go:576-612 | fails if and only if a part number is below 1 or repeated, else returns a strictly ascending permutation |
| `Parts.AcceptedExactly` | internal/services/upload/app/commands/complete_upload_session.go:576-612 | part lists the transition system accepts are exactly those with every number at least 1 and none repeated |
| `Parts.ValidatePresign` | internal/services/upload/app/commands/presign_multipart_parts.go:98-170 | accepts exactly non-empty lists of distinct numbers within 1..TotalParts and returns them in ascending order |
| `Parts.CountCheckMeansComplete` | internal/services/upload/app/commands/complete_upload_session.go:236-245 | if all parts came through presigned numbers, passing the count check means having exactly the parts 1..TotalParts |
| `Backoff.RetryDelay` | internal/services/job/app/outbox/consumer.go:165-178 | the loop equals the closed form and never overflows 64 bits |
| `Backoff.DelayIsMonotone` | internal/services/job/app/outbox/consumer.go:165-178 | delays never shrink as retries grow |
| `Backoff.DelayIsCappedPower` | internal/services/job/app/outbox/consumer.go:165-178 | the delay is min(base·2^n, max) except exactly when an odd maximum is one above the power |
| `Backoff.DelayReachesMaximum` | internal/services/job/app/outbox/consumer.go:165-178 | the maximum is reached |
| `Outbox.NoEventHeldTwice` | internal/services/job/infra/postgres/repositories.go:412-498 | with timely marks no event is held by two runs within their leases |
| `Outbox.PublishedIsFinal` | internal/services/job/infra/postgres/repositories.go:500-521 | with timely marks PUBLISHED is never left |
| `Outbox.SecondClaimExactly` | internal/services/job/infra/postgres/repositories.go:412-458 | a second run can claim an event from its last claimant if and only if that claimant's lease has ended |
| `Outbox.LateMarkUndoesPublished` | internal/services/job/infra/postgres/repositories.go:511-521 | a holder whose event is claimable again can turn PUBLISHED back into FAILED |
| `Outbox.PublishedIsUndone` | internal/services/job/infra/postgres/repositories.go:500-521 | from the start: a run oversleeps its lease, another publishes, and the late mark turns PUBLISHED into FAILED |
| `Outbox.RetryCountIsFailures` | internal/services/job/infra/postgres/repositories.go:511-521 | in every run the retry count of an event is the number of failed marks it has received |
| `Outbox.BackoffFollowsFailures` | internal/services/job/app/outbox/consumer.go:116-130 | with timely marks, the next failure after n failures puts the next attempt at the start of the failing run plus the delay for n retries |
| `Outbox.ClaimsExactly` | internal/services/job/infra/postgres/repositories.go:412-458 | a claim takes its batch exactly when every event is unpublished, handled and due, and postpones each by five minutes |
| `Outbox.MarksExactly` | internal/services/job/infra/postgres/repositories.go:500-521 | marks take effect exactly on held events; the row each leaves |
| `Outbox.UnpublishedComesBack` | internal/services/job/infra/postgres/repositories.go:412-498 | in every run an unpublished event of a handled type is claimable again within max(lease, maximum backoff) of its last touch |
| `Outbox.Reader.RunOnce` | internal/services/job/app/outbox/consumer.go:89-163 | an error-free run marks each claimed event exactly once and Claimed = Published + Failed; a failed mark ends it, the rest only claimed; a failed claim changes nothing |
| `Outbox.RunOnceIsARun` | internal/services/job/app/outbox/consumer.go:89-163 | the rows a run leaves are those of the transition system after its claim and its marks |
| `Locks.LiveRunsExclude` | internal/services/job/infra/runner/runner.go:113-135 | in every run, however late other runs are, two runs of a job within their own deadlines are the same run and own the entry, as long as no live process starts a job it has not finished; processes may crash at any time |
| `Locks.MutualExclusion` | internal/services/job/app/scheduler/scheduler.go:69-124 | if every holder renews in time, at most one run of a job executes across all processes |
| `Locks.TimelyHolderKeepsLock` | internal/services/job/infra/runner/redis_locker.go:102-133 | the renewals and the release of a timely holder succeed |
| `Locks.ExclusionFailsExactly` | internal/services/job/infra/runner/redis_locker.go:64-86 | a second run can start beside an executing one if and only if the entry is no longer visible |
| `Locks.OthersNeverTouchAnEntry` | internal/services/job/infra/runner/redis_locker.go:22-34 | in every run, timely or not, an unexpired entry is changed only by steps of its own owner |
| `Locks.ReleaseHitsSameOwnerExactly` | internal/services/job/infra/runner/redis_locker.go:120-133 | a release takes away the entry behind another executing run if and only if both have the same owner |
| `Locks.SharedOwnerBreaksExclusion` | internal/services/job/infra/runner/redis_locker.go:53-62 | if two processes had the same host name and process id, two runs within their deadlines could execute at once |
| `Locks.StartsExactly` | internal/services/job/app/scheduler/scheduler.go:69-84 | a run starts exactly when no entry is visible, and holds the lock for one TTL |
| `Locks.RenewsAndReleasesExactly` | internal/services/job/infra/runner/redis_locker.go:22-34 | renewing and releasing act exactly on the caller's own visible entry |
| `Locks.Redis.Acquire` | internal/services/job/infra/runner/redis_locker.go:64-86 | sets the entry if and only if none is visible |
| `Locks.Redis.Renew` | internal/services/job/infra/runner/redis_locker.go:102-118 | extends only the caller's own visible entry |
| `Locks.Redis.Release` | internal/services/job/infra/runner/redis_locker.go:120-133 | deletes only the caller's own visible entry |
| `Tickets.OneTicketPerKey` | internal/services/access/app/commands/create_access_ticket.go:86-181 | in every interleaving at most one distinct unexpired ticket has been returned under a key, for one fingerprint |
| `Tickets.SuccessMatchesLiveRecord` | internal/services/access/app/commands/create_access_ticket.go:192-204 | a success whose record lives has that record's fingerprint and ticket |
| `Tickets.RecordNeverExpiresFirst` | internal/services/access/infra/idempotency/store.go:54-68 | no record expires before its ticket |
| `Tickets.ExpiredTicketIsReturnedExactly` | internal/services/access/app/commands/create_access_ticket.go:105-113 | a lookup answers with an expired ticket exactly between the expiry of the ticket and that of its record |
| `Tickets.ExpiredTicketIsReturned` | internal/services/access/app/commands/create_access_ticket.go:105-181 | for every lifetime and every delay between issuing and storing, a run from the start returns an expired ticket |
| `Tickets.LooksExactly` | internal/services/access/app/commands/create_access_ticket.go:105-113 | a request is answered from an unexpired record of its key: its ticket for the same fingerprint, a conflict for another |
| `Tickets.PutsExactly` | internal/services/access/app/commands/create_access_ticket.go:157-170 | an issued ticket is stored and granted exactly when no unexpired record has the key |
| `Tickets.ReloadsExactly` | internal/services/access/app/commands/create_access_ticket.go:172-181 | a request that was beaten gets the stored ticket for the same fingerprint, a conflict for another, an error if the record is gone |
| `Tickets.MemoryStore.CleanupExpired` | internal/services/access/infra/idempotency/store.go:70-77 | exactly the unexpired records are left |
| `Tickets.MemoryStore.Get` | internal/services/access/infra/idempotency/store.go:40-52 | finds exactly an unexpired record |
| `Tickets.MemoryStore.PutIfAbsent` | internal/services/access/infra/idempotency/store.go:54-68 | stores if and only if no unexpired record is there |
| `Pages.List` | internal/services/admin/infra/postgres/repositories.go:377-435 | the page after the cursor, at most limit rows, with the lookahead row as the next cursor |
| `Pages.PageMeans` | internal/services/admin/infra/postgres/repositories.go:813-847 | a page ends at the limit and its cursor is the row after it, if there is one |
| `Pages.Walk` | internal/services/admin/infra/postgres/repositories.go:813-847 | following cursors terminates and returns, strictly descending, exactly the rows whose index i has i mod (limit+1) != limit |
| `Pages.WalkIsComplete` | internal/services/admin/infra/postgres/repositories.go:813-847 | a walk returns every row if and only if the table fits on one page |
| `Policy.NormalizeList` | internal/services/admin/domain/tenant_policy.go:199-222 | nil stays nil; otherwise exactly the non-blank values, each once, in order of first occurrence |
| `Policy.StringSetTightens` | internal/services/admin/domain/tenant_policy.go:150-163 | the loop computes the list test |
| `Policy.TightensIsNarrower` | internal/services/admin/domain/tenant_policy.go:150-163 | on lists without repeats the test is strict inclusion, the empty list meaning everything |
| `Policy.TightensIsNarrowerExactly` | internal/services/admin/domain/tenant_policy.go:150-163 | for any lists, the exact condition under which the test is strict inclusion |
| `Policy.RepeatedEntryMisleads` | internal/services/admin/domain/tenant_policy.go:150-163 | it is not for a list with a repeated entry |
| `Policy.LimitTightensIsNarrower` | internal/services/admin/domain/tenant_policy.go:137-148 | the limit test is strict inclusion, nil meaning no limit |
| `Policy.GuardAsksForReasonExactly` | internal/services/admin/app/guard.go:35-48 | a patch without a reason passes if and only if no judged limit, list or flag strictly shrinks |
| `Policy.PatchLandsInItsField` | internal/services/admin/domain/tenant_policy.go:110-135 | each field of a patch replaces the field of the same name, and an unset one leaves it alone |
| `Policy.ColumnsAreReadInPlace` | internal/services/admin/infra/postgres/repositories.go:691-728 | each column is read into the field of the same name, lists normalized |
| `Policy.StoredPolicyIsTheJudgedOne` | internal/services/admin/infra/postgres/repositories.go:290-324 | the policy the SQL update stores and scans back means the same as the one the guard judged |
| `Migrations.Collect` | internal/platform/migrations/runner.go:38-151 | succeeds if and only if every version has one schema, one name, one up and one down file; the result is ascending and holds exactly those pairs |
| `Migrations.AcceptedHasBoth` | internal/platform/migrations/runner.go:131-147 | every version with an accepted file has an up and a down file of one name and schema |
| `Migrations.OrderDoesNotMatter` | internal/platform/migrations/runner.go:44-150 | the result does not depend on the order in which files are listed |

## Left out

- HTTP, JSON, authentication, authorization, metrics, tracing, configuration parsing and service start-up.
- Session reuse, the stored part rows and the column widths of the schema.
- Signatures and encodings: ticket signing, cursor encoding, redirect URLs; a ticket is an opaque value with an expiry.
- Storage adapters: storage is the set of deleted objects, the digest of each object and injected answers.
- SQL isolation levels, SKIP LOCKED and batch limits: a transaction is one atomic step, a batch any selection of rows.
- Trimming and case folding of strings, and parsing migration file names, including versions beyond 64 bits.
- Integer widths, except in `Backoff`.
- `ClaimHash`, which the completion path does not call.
- Liveness, such as every unreferenced blob being collected in the end.
- The Redis variant of the ticket store, lock lifetimes below one millisecond, and ticket requests without a key.
- A second patch of the same policy between the guard's read and the update.
- LateSaves.LateSaveLosesAnObject: covers inline sessions only; a second multipart completion would list the parts of an
  upload that storage has already completed, which is not modelled.
- LateSaves.LateSaveMakesSecondFile: covers inline sessions only, for the same reason.
