/** The tables, and every database transaction as one function from tables to tables. */
module Database {
  import opened Base
  import opened Sessions

  /** file.blob_objects */
  datatype Blob = Blob(
    tenant: Id,
    location: ObjectRef,
    hash: Option<ContentHash>,
    size: int,
    refCount: int,
    updatedAt: Time,
    deletedAt: Option<Time>)

  datatype FileStatus = Active | Deleted

  /** file.file_assets; the hash column holds the value only. */
  datatype FileAsset = FileAsset(
    tenant: Id,
    blob: Id,
    size: int,
    status: FileStatus,
    location: ObjectRef,
    hash: Option<Digest>,
    deletedAt: Option<Time>)

  /** tenant.tenant_usage */
  datatype Usage = Usage(bytes: int, count: int)

  /** infra.outbox_events, reduced to what an event says. */
  datatype Event =
    | SessionCompleted(session: Id, file: Id)
    | SessionFailed(session: Id, code: ErrorCode)
    | DeleteRequested(file: Id)

  type SessionTable = map<Id, SessionState>
  type BlobTable = map<Id, Blob>
  type FileTable = map<Id, FileAsset>
  type UsageTable = map<Id, Usage>
  type EventTable = map<Id, Event>
  type AuditTable = map<Id, Id>    // delete audit entries: audit id to file id

  datatype Db = Db(
    now: Time,
    sessions: SessionTable,
    blobs: BlobTable,
    files: FileTable,
    usage: UsageTable,
    outbox: EventTable,
    audits: AuditTable,
    gone: set<ObjectRef>)    // objects physically deleted from storage

  datatype Tx<+T> = Tx(db: Db, result: Result<T>)

  // ---------------------------------------------------------------------------
  // Sessions

  /** CHECK ck_upload_sessions_completed_parts */
  predicate RowAccepted(x: SessionState) {
    0 <= x.completedParts <= x.totalParts
  }

  /** Save rewrites the whole row, whatever its status has become. */
  function SaveSession(db: Db, x: SessionState): Tx<()> {
    if x.id !in db.sessions then Tx(db, Err(SessionNotFound))
    else if !RowAccepted(x) then Tx(db, Err(ServiceUnavailable))
    else Tx(db.(sessions := db.sessions[x.id := x]), Ok(()))
  }

  /** GetByID, and the row-locking reads. */
  function ReadSession(db: Db, sid: Id): Result<SessionState> {
    if sid !in db.sessions then Err(SessionNotFound)
    else if !Loadable(db.sessions[sid]) then Err(ServiceUnavailable)
    else Ok(Validate(db.sessions[sid]).state)
  }

  datatype Acquisition = Acquisition(session: SessionState, ownership: Ownership)

  function AcquireTx(db: Db, sid: Id, token: Text): Tx<Acquisition> {
    var read := ReadSession(db, sid);
    if read.Err? then Tx(db, Err(read.code))
    else
      var (after, ownership) := AcquireCompletion(read.value, token, db.now);
      if after.error.Some? then Tx(db, Err(after.error.value))
      else if ownership.Acquired? then
        var saved := SaveSession(db, after.state);
        if saved.result.Err? then Tx(db, Err(saved.result.code))
        else Tx(saved.db, Ok(Acquisition(after.state, ownership)))
      else Tx(db, Ok(Acquisition(after.state, ownership)))
  }

  /** The row is found only under the token that owns its completion. */
  function ConfirmOwner(db: Db, sid: Id, token: Text): Result<SessionState> {
    if sid !in db.sessions || token.Blank? || db.sessions[sid].completionToken != token then Err(SessionNotFound)
    else ReadSession(db, sid)
  }

  // ---------------------------------------------------------------------------
  // Completion

  datatype Materialized = Materialized(size: int, parts: nat, hash: Option<ContentHash>, hit: Option<Id>)

  predicate SameLocator(a: Blob, b: Blob) {
    a.tenant == b.tenant && a.location == b.location
  }

  predicate SameContent(tenant: Id, bucket: Id, hash: ContentHash, b: Blob) {
    b.tenant == tenant && b.location.bucket == bucket && b.hash == Some(hash)
  }

  /** Violates uq_blob_objects_object_locator or uq_blob_objects_hash. */
  predicate Conflicts(a: Blob, b: Blob) {
    SameLocator(a, b) || (a.hash.Some? && SameContent(a.tenant, a.location.bucket, a.hash.value, b))
  }

  /** BlobRepository.Upsert's row: a new blob, or the old one moved to the given object. */
  function UpsertedBlob(blobs: BlobTable, id: Id, tenant: Id, location: ObjectRef,
                        hash: Option<ContentHash>, size: int, now: Time): Blob
  {
    if id in blobs then blobs[id].(location := location, hash := hash, size := size, updatedAt := now)
    else Blob(tenant, location, hash, size, 0, now, None)
  }

  predicate UpsertRejected(blobs: BlobTable, id: Id, row: Blob) {
    exists other :: other in blobs && other != id && Conflicts(row, blobs[other])
  }

  function DigestOf(hash: Option<ContentHash>): Option<Digest> {
    if hash.None? then None else Some(hash.value.digest)
  }

  /** ApplyDelta: nothing happens when the tenant has no usage row; the file count is not touched. */
  function AddBytes(usage: UsageTable, tenant: Id, delta: int): UsageTable {
    if tenant in usage then usage[tenant := usage[tenant].(bytes := usage[tenant].bytes + delta)] else usage
  }

  function EffectiveSize(metadata: int, fallback: int): int {
    if metadata > 0 then metadata else fallback
  }

  /** CompletedParts as commit sets it before MarkCompleted. */
  function PartsAtCommit(x: SessionState, parts: nat): int {
    var n := if parts > 0 then parts else x.totalParts;
    if n <= 0 then 1 else n
  }

  /** CompleteUploadSessionHandler.commit; any error rolls the whole transaction back. */
  function CommitTx(db: Db, sid: Id, token: Text, mat: Materialized, blobId: Id, fileId: Id, eventId: Id): Tx<Id> {
    var owned := ConfirmOwner(db, sid, token);
    if owned.Err? then Tx(db, Err(owned.code))
    else if owned.value.status.Completed? then
      Tx(db, if owned.value.fileId.Blank? then Err(SessionInvalid) else Ok(owned.value.fileId.n))
    else
      var x := owned.value;
      var b := if mat.hit.Some? then mat.hit.value else blobId;
      var size := EffectiveSize(mat.size, x.sizeBytes);
      var row := UpsertedBlob(db.blobs, b, x.tenant, x.location, mat.hash, size, db.now);
      var done := MarkCompleted(x.(completedParts := PartsAtCommit(x, mat.parts)), Text(fileId), db.now);
      if UpsertRejected(db.blobs, b, row) then Tx(db, Err(ServiceUnavailable))
      else if fileId in db.files then Tx(db, Err(ServiceUnavailable))
      else if done.error.Some? then Tx(db, Err(done.error.value))
      else if eventId in db.outbox then Tx(db, Err(ServiceUnavailable))
      else
        Tx(db.(sessions := db.sessions[sid := done.state],
               blobs := db.blobs[b := row.(refCount := row.refCount + 1)],
               files := db.files[fileId := FileAsset(x.tenant, b, size, Active, x.location, DigestOf(mat.hash), None)],
               usage := AddBytes(db.usage, x.tenant, size),
               outbox := db.outbox[eventId := SessionCompleted(sid, fileId)]),
           Ok(fileId))
  }

  /** The failure code column as finalizeFailure fills it; never blank. */
  function CodeText(code: ErrorCode): Text {
    match code
    case HashMismatch => Text(1)
    case HashUnsupported => Text(2)
    case HashInvalid => Text(3)
    case MultipartNotFound => Text(4)
    case MultipartConflict => Text(5)
    case _ => Text(6)
  }

  /** JOB_REPAIR_STUCK_COMPLETING and its message. */
  const REPAIR_TEXT: Text := Text(0)

  /** finalizeFailure's transaction, entered only for terminal codes. */
  function FailTx(db: Db, sid: Id, token: Text, code: ErrorCode, text: Text, eventId: Id): Tx<()> {
    var owned := ConfirmOwner(db, sid, token);
    if owned.Err? then Tx(db, Err(owned.code))
    else if !owned.value.status.Completing? then Tx(db, Ok(()))
    else
      var failed := MarkFailed(owned.value, CodeText(code), text, db.now);
      if failed.error.Some? then Tx(db, Err(failed.error.value))
      else if eventId in db.outbox then Tx(db, Err(ServiceUnavailable))
      else
        Tx(db.(sessions := db.sessions[sid := failed.state],
               outbox := db.outbox[eventId := SessionFailed(sid, code)]), Ok(()))
  }

  // ---------------------------------------------------------------------------
  // Administration

  function ReleaseBlob(blobs: BlobTable, b: Id, now: Time): BlobTable {
    if b in blobs then blobs[b := blobs[b].(refCount := MaxInt(blobs[b].refCount - 1, 0), updatedAt := now)] else blobs
  }

  function ReleaseUsage(usage: UsageTable, tenant: Id, size: int): UsageTable {
    if tenant in usage
    then usage[tenant := Usage(MaxInt(usage[tenant].bytes - size, 0), MaxInt(usage[tenant].count - 1, 0))]
    else usage
  }

  /** DeleteFileHandler's transaction: MarkDeleted, audit entry, outbox event. */
  function DeleteTx(db: Db, fid: Id, auditId: Id, eventId: Id): Tx<bool> {
    if fid !in db.files then Tx(db, Err(InvalidArgument))
    else if db.files[fid].status.Deleted? then Tx(db, Ok(false))
    else if auditId in db.audits || eventId in db.outbox then Tx(db, Err(ServiceUnavailable))
    else
      var f := db.files[fid];
      Tx(db.(files := db.files[fid := f.(status := Deleted, deletedAt := Some(db.now))],
             blobs := ReleaseBlob(db.blobs, f.blob, db.now),
             usage := ReleaseUsage(db.usage, f.tenant, f.size),
             audits := db.audits[auditId := fid],
             outbox := db.outbox[eventId := DeleteRequested(fid)]),
         Ok(true))
  }

  // ---------------------------------------------------------------------------
  // Background jobs; a batch is any set of the rows that the job's query selects.

  predicate ExpireCandidate(x: SessionState, before: Time) {
    !Terminal(x.status) && x.expiresAt <= before
  }

  function ExpiredRow(x: SessionState, now: Time): SessionState {
    x.(status := Expired, updatedAt := now, completionToken := Blank, completionStartedAt := None)
  }

  function ExpireTx(db: Db, batch: set<Id>, before: Time): Db {
    db.(sessions := map sid | sid in db.sessions ::
          if sid in batch && ExpireCandidate(db.sessions[sid], before)
          then ExpiredRow(db.sessions[sid], db.now) else db.sessions[sid])
  }

  predicate RepairCandidate(x: SessionState, before: Time) {
    x.status.Completing? && x.updatedAt <= before
  }

  function RepairedRow(x: SessionState, now: Time): SessionState {
    if !x.fileId.Blank? then
      x.(status := Completed, completedAt := if x.completedAt.Some? then x.completedAt else Some(now),
         failureCode := Blank, failureMessage := Blank, updatedAt := now)
    else
      x.(status := Failed, failedAt := Some(now), failureCode := REPAIR_TEXT, failureMessage := REPAIR_TEXT,
         updatedAt := now)
  }

  function RepairTx(db: Db, batch: set<Id>, before: Time): Db {
    db.(sessions := map sid | sid in db.sessions ::
          if sid in batch && RepairCandidate(db.sessions[sid], before)
          then RepairedRow(db.sessions[sid], db.now) else db.sessions[sid])
  }

  predicate MultipartCandidate(x: SessionState, before: Time) {
    && !x.providerUploadId.Blank?
    && x.updatedAt <= before
    && (x.status.Aborted? || x.status.Expired? || x.status.Failed?)
  }

  function CleanedRows(sessions: SessionTable, batch: set<Id>, before: Time, now: Time): SessionTable {
    map sid | sid in sessions ::
      if sid in batch && MultipartCandidate(sessions[sid], before)
      then sessions[sid].(providerUploadId := Blank, updatedAt := now) else sessions[sid]
  }

  function MultipartTx(db: Db, batch: set<Id>, before: Time): Db {
    db.(sessions := CleanedRows(db.sessions, batch, before, db.now))
  }

  predicate FinalizeCandidate(db: Db, b: Id, before: Time) {
    && b in db.blobs
    && db.blobs[b].refCount == 0
    && db.blobs[b].deletedAt.None?
    && exists f :: f in db.files && db.files[f].blob == b && db.files[f].status.Deleted?
                   && db.files[f].deletedAt.Some? && db.files[f].deletedAt.value <= before
  }

  predicate OrphanCandidate(db: Db, b: Id, before: Time) {
    && b in db.blobs
    && db.blobs[b].refCount == 0
    && db.blobs[b].deletedAt.None?
    && db.blobs[b].updatedAt <= before
    && forall f :: f in db.files && db.files[f].blob == b ==> !db.files[f].status.Active?
  }

  function CollectedBlob(b: Blob, now: Time): Blob {
    if b.refCount == 0
    then b.(deletedAt := if b.deletedAt.Some? then b.deletedAt else Some(now), updatedAt := now) else b
  }

  function CollectedBlobs(blobs: BlobTable, batch: seq<Id>, now: Time): BlobTable {
    map b | b in blobs :: if b in batch then CollectedBlob(blobs[b], now) else blobs[b]
  }

  /** The first `done` objects of the batch are deleted; the row updates survive only if the tx commits. */
  function CollectTx(db: Db, batch: seq<Id>, done: nat, committed: bool): Db
    requires done <= |batch|
    requires forall i :: 0 <= i < |batch| ==> batch[i] in db.blobs
  {
    db.(gone := db.gone + set i | 0 <= i < done :: db.blobs[batch[i]].location,
        blobs := if committed then CollectedBlobs(db.blobs, batch[..done], db.now) else db.blobs)
  }

  // ---------------------------------------------------------------------------
  // Counting and summing the ACTIVE files

  function ActiveOn(files: FileTable, b: Id): set<Id> {
    set f | f in files && files[f].status.Active? && files[f].blob == b
  }

  function ActiveOf(files: FileTable, tenant: Id): set<Id> {
    set f | f in files && files[f].status.Active? && files[f].tenant == tenant
  }

  ghost function SumSizes(files: FileTable, ids: set<Id>): int
    requires ids <= files.Keys
  {
    if ids == {} then 0 else
      var f :| f in ids;
      files[f].size + SumSizes(files, ids - {f})
  }

  ghost function ReconcileTx(db: Db, tenant: Id): Db {
    if tenant !in db.usage then db
    else
      var active := ActiveOf(db.files, tenant);
      db.(usage := db.usage[tenant := Usage(SumSizes(db.files, active), |active|)])
  }

  // ---------------------------------------------------------------------------
  // Dedup lookup

  predicate LookupMatches(db: Db, tenant: Id, bucket: Id, hash: ContentHash, b: Id) {
    && b in db.blobs
    && SameContent(tenant, bucket, hash, db.blobs[b])
    && db.blobs[b].deletedAt.None?
    && ActiveOn(db.files, b) != {}
  }

  ghost function LookupByHash(db: Db, tenant: Id, bucket: Id, hash: ContentHash): (r: Option<Id>)
    ensures r.Some? ==> LookupMatches(db, tenant, bucket, hash, r.value)
    ensures r.None? ==> forall b :: !LookupMatches(db, tenant, bucket, hash, b)
  {
    if b :| LookupMatches(db, tenant, bucket, hash, b) then Some(b) else None
  }
}
