/** The file lifecycle as a labelled transition system: every interleaving is a sequence of actions. */
module Lifecycle {
  import opened Base
  import opened Sessions
  import opened Hashes
  import opened Database

  /**
    * A completion request between the steps of CompleteUploadSessionHandler.Handle. Once finished it keeps the hash
    * it declared if its own commit made the file.
    */
  datatype Request =
    | Owned(snapshot: SessionState, token: Text, declared: Option<ContentHash>)
    | Prepared(snapshot: SessionState, token: Text, declared: Option<ContentHash>, mat: Materialized)
    | Refused(snapshot: SessionState, token: Text, code: ErrorCode)
    | Finished(session: Id, result: Result<Id>, filedAs: Option<ContentHash>)

  datatype State = State(
    db: Db,
    requests: map<Id, Request>,
    aborts: map<Id, SessionState>,     // rows read and changed by Abort, not saved yet
    uploads: map<Id, SessionState>)    // rows read and changed by MarkUploading, not saved yet

  /** What storage answers during materialize. */
  datatype Checksumming = Unsupported | ChecksumFails | Computed(digest: Digest)

  datatype Storage = Storage(
    clientParts: seq<int>,
    listError: Option<ErrorCode>,
    providerParts: seq<int>,
    replaceFails: bool,
    completeError: Option<ErrorCode>,
    headFails: bool,
    size: int,
    checksum: Digest,
    checksumming: Checksumming,
    lookupFails: bool)

  /** The part numbers normalizeUploadedParts accepts. */
  predicate PartsAccepted(parts: seq<int>) {
    && (forall i :: 0 <= i < |parts| ==> parts[i] >= 1)
    && (forall i, j :: 0 <= i < j < |parts| ==> parts[i] != parts[j])
  }

  /** The multipart half of materialize: the number of provider parts, 0 for the other modes. */
  function GatherParts(x: SessionState, env: Storage): Result<nat> {
    if !x.mode.Direct? then Ok(0)
    else if !PartsAccepted(env.clientParts) then Err(InvalidArgument)
    else if |env.clientParts| == 0 then Err(PartsMissing)
    else if env.listError.Some? then Err(env.listError.value)
    else if !PartsAccepted(env.providerParts) then Err(ServiceUnavailable)
    else if x.totalParts > 0 && |env.providerParts| < x.totalParts then Err(PartsMissing)
    else if env.replaceFails then Err(ServiceUnavailable)
    else if env.completeError.Some? then Err(env.completeError.value)
    else Ok(|env.providerParts|)
  }

  function VerifiedChecksum(expected: Option<ContentHash>, env: Storage): Result<Digest> {
    if env.headFails then Err(ServiceUnavailable)
    else if env.checksum.NoDigest? && expected.Some? then
      match env.checksumming
      case Unsupported => Ok(NoDigest)
      case ChecksumFails => Err(ServiceUnavailable)
      case Computed(d) => Ok(d)
    else Ok(env.checksum)
  }

  /** materialize: the dedup lookup sees the tables of this step, the commit those of a later one. */
  ghost function Materialize(db: Db, x: SessionState, declared: Option<ContentHash>, env: Storage)
    : Result<Materialized>
  {
    var expected := ResolveExpected(x.hash, declared);
    if expected.Err? then Err(expected.code) else
      var parts := GatherParts(x, env);
      if parts.Err? then Err(parts.code) else
        var checksum := VerifiedChecksum(expected.value, env);
        if checksum.Err? then Err(checksum.code) else
          var canonical := ResolveCanonical(expected.value, checksum.value);
          if canonical.Err? then Err(canonical.code)
          else if canonical.value.Some? && env.lookupFails then Err(ServiceUnavailable) else
            var hit := if canonical.value.None? then None
                       else LookupByHash(db, x.tenant, x.location.bucket, canonical.value.value);
            Ok(Materialized(env.size, parts.value, canonical.value, hit))
  }

  datatype Action =
    | Tick(elapsed: nat)
    | CreateTenant(tenant: Id)
    | CreateSession(session: SessionState)
    | ReadUploading(task: Id, sid: Id, parts: nat)
    | SaveUploading(task: Id)
    | ReadAbort(task: Id, sid: Id)
    | SaveAbort(task: Id)
    | BeginCompletion(req: Id, sid: Id, token: Text, declared: Option<ContentHash>)
    | Prepare(req: Id, env: Storage)
    | Commit(req: Id, blobId: Id, fileId: Id, eventId: Id)
    | Fail(req: Id, text: Text, eventId: Id)
    | Drop(req: Id)
    | DeleteFile(fid: Id, auditId: Id, eventId: Id)
    | Expire(batch: set<Id>, before: Time)
    | Repair(batch: set<Id>, before: Time)
    | CleanMultipart(batch: set<Id>, before: Time)
    | FinalizeDeletes(doomed: seq<Id>, before: Time, done: nat, committed: bool)
    | CollectOrphans(doomed: seq<Id>, before: Time, done: nat, committed: bool)
    | Reconcile(tenant: Id)

  /** The session CreateUploadSessionHandler inserts: fresh, INITIATED, its key planned from its id. */
  predicate Creatable(db: Db, x: SessionState) {
    && x.id !in db.sessions
    && x.tenant in db.usage
    && x.location.key == ObjectKey(x.tenant, x.id)
    && x.status.Initiated?
    && x.createdAt == x.updatedAt == db.now
    && x.completedParts == 0
    && x.fileId.Blank? && x.completionToken.Blank? && x.completionStartedAt.None?
    && x.completedAt.None? && x.abortedAt.None? && x.failedAt.None?
    && x.failureCode.Blank? && x.failureMessage.Blank?
    && Loadable(x)
  }

  /** list_uploaded_parts marks multipart sessions with parts, upload_inline_content inline ones. */
  function UploadingRow(db: Db, sid: Id, parts: nat): Result<SessionState> {
    var read := ReadSession(db, sid);
    if read.Err? then read
    else if !(read.value.mode.Direct? && parts > 0) && !(read.value.mode.Inline? && parts == 1) then
      Err(InvalidArgument)
    else
      var marked := MarkUploading(read.value, parts);
      if marked.error.Some? then Err(marked.error.value) else Ok(marked.state.(updatedAt := db.now))
  }

  function AbortRow(db: Db, sid: Id): Result<SessionState> {
    var read := ReadSession(db, sid);
    if read.Err? then read
    else
      var aborted := Abort(read.value, db.now);
      if aborted.error.Some? then Err(aborted.error.value) else Ok(aborted.state)
  }

  function AfterAcquire(t: Tx<Acquisition>, sid: Id, token: Text, declared: Option<ContentHash>): Request {
    if t.result.Err? then Finished(sid, Err(t.result.code), None)
    else
      var x := t.result.value.session;
      match t.result.value.ownership
      case AlreadyDone => Finished(sid, if x.fileId.Blank? then Err(SessionInvalid) else Ok(x.fileId.n), None)
      case HeldByAnother => Finished(sid, Err(CompleteInProgress), None)
      case _ => Owned(x, token, declared)
  }

  function SaveIfPresent(db: Db, tasks: map<Id, SessionState>, task: Id): Db {
    if task in tasks then SaveSession(db, tasks[task]).db else db
  }

  function Collect(s: State, doomed: seq<Id>, done: nat, committed: bool): State
    requires forall i :: 0 <= i < |doomed| ==> doomed[i] in s.db.blobs
  {
    if done > |doomed| || (committed && done != |doomed|) then s
    else s.(db := CollectTx(s.db, doomed, done, committed))
  }

  /** The next state; an action whose guard fails changes nothing. */
  ghost function Apply(s: State, a: Action): State {
    match a
    case Tick(elapsed) => s.(db := s.db.(now := s.db.now + elapsed))
    case CreateTenant(t) =>
      if t in s.db.usage then s else s.(db := s.db.(usage := s.db.usage[t := Usage(0, 0)]))
    case CreateSession(x) =>
      var y := Validate(x).state;
      if Creatable(s.db, x) then s.(db := s.db.(sessions := s.db.sessions[x.id := y])) else s
    case ReadUploading(task, sid, parts) =>
      var row := UploadingRow(s.db, sid, parts);
      if row.Ok? then s.(uploads := s.uploads[task := row.value]) else s
    case SaveUploading(task) =>
      s.(db := SaveIfPresent(s.db, s.uploads, task), uploads := s.uploads - {task})
    case ReadAbort(task, sid) =>
      var row := AbortRow(s.db, sid);
      if row.Ok? then s.(aborts := s.aborts[task := row.value]) else s
    case SaveAbort(task) =>
      s.(db := SaveIfPresent(s.db, s.aborts, task), aborts := s.aborts - {task})
    case BeginCompletion(req, sid, token, declared) =>
      if req in s.requests then s else
        var t := AcquireTx(s.db, sid, token);
        s.(db := t.db, requests := s.requests[req := AfterAcquire(t, sid, token, declared)])
    case Prepare(req, env) =>
      if req !in s.requests || !s.requests[req].Owned? then s else
        var q := s.requests[req];
        var m := Materialize(s.db, q.snapshot, q.declared, env);
        s.(requests := s.requests[req := if m.Ok? then Prepared(q.snapshot, q.token, q.declared, m.value)
                                         else Refused(q.snapshot, q.token, m.code)])
    case Commit(req, blobId, fileId, eventId) =>
      if req !in s.requests || !s.requests[req].Prepared? || blobId in s.db.blobs then s else
        var q := s.requests[req];
        var t := CommitTx(s.db, q.snapshot.id, q.token, q.mat, blobId, fileId, eventId);
        var filedAs := if t.db.files == s.db.files then None else q.declared;
        s.(db := t.db, requests := s.requests[req := Finished(q.snapshot.id, t.result, filedAs)])
    case Fail(req, text, eventId) =>
      if req !in s.requests || !s.requests[req].Refused? then s else
        var q := s.requests[req];
        var db := if IsTerminalFailure(q.code)
                  then FailTx(s.db, q.snapshot.id, q.token, q.code, text, eventId).db else s.db;
        s.(db := db, requests := s.requests[req := Finished(q.snapshot.id, Err(q.code), None)])
    case Drop(req) =>
      if req in s.requests && s.requests[req].Finished? then s else s.(requests := s.requests - {req})
    case DeleteFile(fid, auditId, eventId) => s.(db := DeleteTx(s.db, fid, auditId, eventId).db)
    case Expire(batch, before) => s.(db := ExpireTx(s.db, batch, before))
    case Repair(batch, before) => s.(db := RepairTx(s.db, batch, before))
    case CleanMultipart(batch, before) => s.(db := MultipartTx(s.db, batch, before))
    case FinalizeDeletes(doomed, before, done, committed) =>
      if forall i :: 0 <= i < |doomed| ==> FinalizeCandidate(s.db, doomed[i], before)
      then Collect(s, doomed, done, committed) else s
    case CollectOrphans(doomed, before, done, committed) =>
      if forall i :: 0 <= i < |doomed| ==> OrphanCandidate(s.db, doomed[i], before)
      then Collect(s, doomed, done, committed) else s
    case Reconcile(t) => s.(db := ReconcileTx(s.db, t))
  }

  ghost function Exec(s: State, actions: seq<Action>): State
    decreases |actions|
  {
    if actions == [] then s else Exec(Apply(s, actions[0]), actions[1..])
  }

  /** An empty deployment; the clock is past Go's zero time. */
  predicate Initial(s: State) {
    && s.db.now > 0
    && s.db.sessions == map[] && s.db.blobs == map[] && s.db.files == map[] && s.db.usage == map[]
    && s.db.outbox == map[] && s.db.audits == map[] && s.db.gone == {}
    && s.requests == map[] && s.aborts == map[] && s.uploads == map[]
  }

  /** Some file was made from this session. */
  predicate Filed(files: FileTable, sid: Id) {
    exists f :: f in files && files[f].location.key.session == sid
  }

  /**
    * Save has no status guard, so a row read before MarkUploading may overwrite a later status.
    * A save is harmless as long as the session it overwrites has no file.
    */
  predicate Harmless(s: State, a: Action) {
    a.SaveUploading? && a.task in s.uploads ==> !Filed(s.db.files, s.uploads[a.task].id)
  }

  ghost predicate HarmlessRun(s: State, actions: seq<Action>)
    decreases |actions|
  {
    actions == [] || (Harmless(s, actions[0]) && HarmlessRun(Apply(s, actions[0]), actions[1..]))
  }

  /** A save is timely while the row it overwrites is still INITIATED or UPLOADING. */
  predicate Timely(s: State, a: Action) {
    a.SaveUploading? && a.task in s.uploads && s.uploads[a.task].id in s.db.sessions ==>
      var status := s.db.sessions[s.uploads[a.task].id].status;
      status.Initiated? || status.Uploading?
  }
}
