/** What holds in every reachable state. */
module Invariant {
  import opened Base
  import opened Sessions
  import opened Database
  import opened Lifecycle

  // ---------------------------------------------------------------------------
  // Sessions

  /** The columns no step ever changes. */
  predicate SameIdentity(a: SessionState, b: SessionState) {
    && a.id == b.id && a.tenant == b.tenant && a.mode == b.mode && a.sizeBytes == b.sizeBytes
    && a.totalParts == b.totalParts && a.location == b.location && a.hash == b.hash
    && a.createdAt == b.createdAt && a.expiresAt == b.expiresAt && a.details == b.details
  }

  predicate RowOk(sid: Id, x: SessionState, now: Time) {
    && x.id == sid
    && x.location.key == ObjectKey(x.tenant, sid)
    && WellShaped(x) && NoZeroTimes(x)
    && x.createdAt <= now
    && (x.mode.Direct? || x.providerUploadId.Blank?)
    && (x.mode.Direct? && x.providerUploadId.Blank? ==> x.status.Aborted? || x.status.Expired? || x.status.Failed?)
    && (!x.status.Completed? ==> x.fileId.Blank?)
    && (x.status.Initiated? || x.status.Uploading? ==> x.completionToken.Blank? && x.completionStartedAt.None?)
  }

  predicate Rows(db: Db) {
    && db.now > 0
    && forall sid :: sid in db.sessions ==>
         RowOk(sid, db.sessions[sid], db.now) && db.sessions[sid].tenant in db.usage
  }

  predicate Identified(db: Db, x: SessionState) {
    x.id in db.sessions && SameIdentity(x, db.sessions[x.id])
  }

  /** A copy of a row that some handler still holds. */
  predicate CopyOk(db: Db, x: SessionState) {
    && Identified(db, x)
    && 0 < x.createdAt <= x.updatedAt
    && 0 <= x.completedParts
    && NoZeroTimes(x)
    && UploadIdMatchesMode(x)
  }

  predicate AbortOk(db: Db, x: SessionState) {
    && CopyOk(db, x)
    && (x.status.Aborted? || x.status.Expired? || x.status.Failed?)
    && WellShaped(x)
    && x.fileId.Blank?
  }

  predicate UploadOk(db: Db, x: SessionState) {
    && CopyOk(db, x)
    && x.status.Uploading?
    && x.fileId.Blank? && x.completionToken.Blank? && x.completionStartedAt.None?
  }

  predicate Copies(s: State) {
    && (forall t :: t in s.aborts ==> AbortOk(s.db, s.aborts[t]))
    && (forall t :: t in s.uploads ==> UploadOk(s.db, s.uploads[t]))
  }

  // ---------------------------------------------------------------------------
  // Requests

  predicate HitOk(blobs: BlobTable, x: SessionState, mat: Materialized) {
    mat.hit.Some? ==>
      && mat.hash.Some?
      && mat.hit.value in blobs
      && SameContent(x.tenant, x.location.bucket, mat.hash.value, blobs[mat.hit.value])
  }

  predicate RequestOk(db: Db, q: Request) {
    match q
    case Owned(x, _, _) => Identified(db, x)
    case Prepared(x, _, declared, mat) =>
      && Identified(db, x)
      && HitOk(db.blobs, x, mat)
      && (x.hash.Some? ==> mat.hash == x.hash)
      && (declared.Some? ==> mat.hash == declared)
    case Refused(x, _, _) => Identified(db, x)
    case Finished(sid, result, filedAs) =>
      result.Ok? ==>
        && result.value in db.files
        && db.files[result.value].location.key.session == sid
        && (filedAs.Some? ==> db.files[result.value].hash == DigestOf(filedAs))
  }

  predicate Requests(s: State) {
    forall r :: r in s.requests ==> RequestOk(s.db, s.requests[r])
  }

  // ---------------------------------------------------------------------------
  // Files, blobs and storage

  predicate AgreesWithBlob(f: FileAsset, b: Blob) {
    && f.tenant == b.tenant
    && f.location.bucket == b.location.bucket
    && f.hash == DigestOf(b.hash)
  }

  predicate AgreesWithSession(f: FileAsset, x: SessionState) {
    && f.tenant == x.tenant
    && f.location == x.location
    && (x.hash.Some? ==> f.hash == DigestOf(x.hash))
  }

  predicate FileOk(sessions: SessionTable, blobs: BlobTable, f: FileAsset) {
    && f.blob in blobs
    && AgreesWithBlob(f, blobs[f.blob])
    && f.location.key.session in sessions
    && AgreesWithSession(f, sessions[f.location.key.session])
    && Terminal(sessions[f.location.key.session].status)
    && f.size > 0
    && (f.status.Deleted? <==> f.deletedAt.Some?)
  }

  predicate Files(sessions: SessionTable, blobs: BlobTable, files: FileTable) {
    && (forall f :: f in files ==> FileOk(sessions, blobs, files[f]))
    && (forall sid :: sid in sessions && sessions[sid].status.Completed? ==> CompletedFile(files, sessions[sid]))
  }

  /** A COMPLETED row names the file made from its own object. */
  predicate CompletedFile(files: FileTable, x: SessionState) {
    x.fileId.Text? && x.fileId.n in files && files[x.fileId.n].location == x.location
  }

  predicate OneFilePerObject(files: FileTable) {
    forall f, g :: f in files && g in files && files[f].location == files[g].location ==> f == g
  }

  predicate HasFile(files: FileTable, o: ObjectRef) {
    exists f :: f in files && files[f].location == o
  }

  /** The object a blob row points to is the own object of one of the blob's files. */
  predicate Anchored(files: FileTable, b: Id, o: ObjectRef) {
    exists f :: f in files && files[f].blob == b && files[f].location == o
  }

  predicate Blobs(files: FileTable, blobs: BlobTable) {
    && (forall b :: b in blobs ==> Anchored(files, b, blobs[b].location))
    && (forall b, c :: b in blobs && c in blobs && b != c ==> !Conflicts(blobs[b], blobs[c]))
  }

  predicate RefCounts(files: FileTable, blobs: BlobTable) {
    forall b :: b in blobs ==> blobs[b].refCount == |ActiveOn(files, b)|
  }

  ghost predicate Usages(files: FileTable, usage: UsageTable) {
    forall t :: t in usage ==>
      && usage[t].bytes == SumSizes(files, ActiveOf(files, t))
      && 0 <= usage[t].count <= |ActiveOf(files, t)|
  }

  predicate StorageSafe(files: FileTable, gone: set<ObjectRef>) {
    && (forall o :: o in gone ==> HasFile(files, o))
    && (forall f :: f in files && files[f].status.Active? ==> files[f].location !in gone)
  }

  // ---------------------------------------------------------------------------
  // Events

  predicate AboutSession(e: Event, sid: Id) {
    (e.SessionCompleted? || e.SessionFailed?) && e.session == sid
  }

  /** Two events on the outcome of one session. */
  predicate SameSubject(d: Event, e: Event) {
    (d.SessionCompleted? || d.SessionFailed?) && AboutSession(e, d.session)
  }

  predicate EventOk(files: FileTable, e: Event) {
    match e
    case SessionCompleted(sid, f) => f in files && files[f].location.key.session == sid
    case SessionFailed(_, _) => true
    case DeleteRequested(f) => f in files && files[f].status.Deleted?
  }

  predicate Announced(outbox: EventTable, e: Event) {
    exists id :: id in outbox && outbox[id] == e
  }

  predicate Audited(audits: AuditTable, f: Id) {
    exists id :: id in audits && audits[id] == f
  }

  predicate Events(files: FileTable, outbox: EventTable) {
    && (forall e :: e in outbox ==> EventOk(files, outbox[e]))
    && (forall f :: f in files ==> Announced(outbox, SessionCompleted(files[f].location.key.session, f)))
    && (forall d, e | d in outbox && e in outbox && outbox[d].SessionCompleted? :: outbox[d] == outbox[e] ==> d == e)
  }

  /** At most one outcome per session, completed or failed; it takes timely saves to keep this. */
  predicate Outcomes(sessions: SessionTable, outbox: EventTable) {
    && (forall e :: e in outbox && outbox[e].SessionFailed? ==>
          outbox[e].session in sessions && Terminal(sessions[outbox[e].session].status))
    && (forall d, e :: d in outbox && e in outbox && SameSubject(outbox[d], outbox[e]) ==> d == e)
  }

  predicate Deletions(files: FileTable, outbox: EventTable, audits: AuditTable) {
    && (forall f :: f in files && files[f].status.Deleted? ==>
          Announced(outbox, DeleteRequested(f)) && Audited(audits, f))
    && (forall d, e | d in outbox && e in outbox && outbox[d].DeleteRequested? :: outbox[d] == outbox[e] ==> d == e)
    && (forall a :: a in audits ==> audits[a] in files && files[audits[a]].status.Deleted?)
    && (forall a, c :: a in audits && c in audits && audits[a] == audits[c] ==> a == c)
  }

  // ---------------------------------------------------------------------------

  /** Everything about files, blobs, usage, storage and announcements. */
  ghost predicate Assets(db: Db) {
    && Files(db.sessions, db.blobs, db.files)
    && OneFilePerObject(db.files)
    && Blobs(db.files, db.blobs)
    && RefCounts(db.files, db.blobs)
    && Usages(db.files, db.usage)
    && StorageSafe(db.files, db.gone)
    && Events(db.files, db.outbox)
    && Deletions(db.files, db.outbox, db.audits)
  }

  ghost predicate Inv(s: State) {
    Rows(s.db) && Copies(s) && Requests(s) && Assets(s.db)
  }
}
