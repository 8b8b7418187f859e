/** What a mark-uploading save does when it comes too late: Save has no status guard. */
module LateSaves {
  import opened Base
  import opened Sessions
  import opened Database
  import opened Lifecycle
  import opened Invariant

  /** Storage answering for an inline object whose checksum is `d`. */
  function Answers(d: nat): Storage {
    Storage([], None, [], false, None, false, 1, Hex64(d), Unsupported, false)
  }

  /** The save of an older read of a row is still pending, and the table will accept it. */
  predicate Pending(s: State, task: Id) {
    task in s.uploads && RowAccepted(s.uploads[task])
  }

  /** It is pending for an inline session from which file `f` has been made meanwhile. */
  predicate Stale(s: State, task: Id, f: Id) {
    && Pending(s, task) && s.uploads[task].mode.Inline?
    && f in s.db.files && s.db.files[f].location.key.session == s.uploads[task].id
  }

  /** The blob of the file is hashed, not collected, and has some ACTIVE file, maybe another one. */
  predicate LiveBlob(db: Db, f: Id, d: nat) {
    && f in db.files && db.files[f].blob in db.blobs
    && var b := db.blobs[db.files[f].blob];
    && ActiveOn(db.files, db.files[f].blob) != {}
    && b.deletedAt.None? && b.hash == Some(ContentHash(Sha256, Hex64(d)))
  }

  /** The file itself is the only ACTIVE one, and its blob still is at its object. */
  predicate SoleFile(db: Db, f: Id, d: nat) {
    && LiveBlob(db, f, d)
    && ActiveOn(db.files, db.files[f].blob) == {f}
    && db.blobs[db.files[f].blob].location == db.files[f].location
  }

  function Reacquired(x: SessionState, now: Time): SessionState {
    x.(status := Completing, completionToken := Text(0), completionStartedAt := Some(now), updatedAt := now)
  }

  lemma PendingRowLoads(s: State, task: Id)
    requires Rows(s.db) && Copies(s) && Pending(s, task)
    ensures var x := s.uploads[task];
            && WellShaped(x) && UploadIdMatchesMode(x) && x.status.Uploading? && x.createdAt <= s.db.now
            && WellShaped(Reacquired(x, s.db.now)) && UploadIdMatchesMode(Reacquired(x, s.db.now))
  {
    assert UploadOk(s.db, s.uploads[task]);
    assert RowOk(s.uploads[task].id, s.db.sessions[s.uploads[task].id], s.db.now);
  }

  /** The late save and the acquisition that follows it. */
  function Reopened(s: State, task: Id, r: Id, declared: Option<ContentHash>): State
    requires task in s.uploads
  {
    var y := Reacquired(s.uploads[task], s.db.now);
    s.(db := s.db.(sessions := s.db.sessions[y.id := y]), uploads := s.uploads - {task},
       requests := s.requests[r := Owned(y, Text(0), declared)])
  }

  function Overwritten(s: State, task: Id): State
    requires task in s.uploads
  {
    var x := s.uploads[task];
    s.(db := s.db.(sessions := s.db.sessions[x.id := x]), uploads := s.uploads - {task})
  }

  lemma SaveOverwrites(s: State, task: Id)
    requires Copies(s) && Pending(s, task)
    ensures Apply(s, SaveUploading(task)) == Overwritten(s, task)
  {
    assert UploadOk(s.db, s.uploads[task]);
  }

  lemma AcquireAgain(s: State, task: Id, r: Id, declared: Option<ContentHash>)
    requires task in s.uploads && r !in s.requests && s.db.now > 0
    requires var x := s.uploads[task]; WellShaped(x) && UploadIdMatchesMode(x) && x.status.Uploading?
    ensures Apply(Overwritten(s, task), BeginCompletion(r, s.uploads[task].id, Text(0), declared))
         == Reopened(s, task, r, declared)
  {
    var x := s.uploads[task];
    ValidateAcceptsExactly(x);
    var db := Overwritten(s, task).db;
    assert ReadSession(db, x.id) == Ok(x);
    assert AcquireTx(db, x.id, Text(0))
        == Tx(Reopened(s, task, r, declared).db, Ok(Acquisition(Reacquired(x, db.now), Acquired)));
  }

  lemma SaveThenAcquire(s: State, task: Id, r: Id, declared: Option<ContentHash>, run: seq<Action>)
    requires Rows(s.db) && Copies(s) && Pending(s, task) && r !in s.requests
    requires |run| >= 2 && run[0] == SaveUploading(task)
    requires run[1] == BeginCompletion(r, s.uploads[task].id, Text(0), declared)
    ensures Exec(s, run) == Exec(Reopened(s, task, r, declared), run[2..])
  {
    PendingRowLoads(s, task);
    SaveOverwrites(s, task);
    AcquireAgain(s, task, r, declared);
    ExecFrom(Overwritten(s, task), run, 1);
  }

  function HitOn(c: Id, d: nat): Materialized {
    Materialized(1, 0, Some(ContentHash(Sha256, Hex64(d))), Some(c))
  }

  lemma LookupFinds(db: Db, tenant: Id, bucket: Id, c: Id, hash: ContentHash)
    requires Blobs(db.files, db.blobs) && LookupMatches(db, tenant, bucket, hash, c)
    ensures LookupByHash(db, tenant, bucket, hash) == Some(c)
  {
    var hit := LookupByHash(db, tenant, bucket, hash);
    if hit != Some(c) { assert Conflicts(db.blobs[c], db.blobs[hit.value]); }
  }

  lemma MaterializeHits(db: Db, y: SessionState, f: Id, d: nat)
    requires Blobs(db.files, db.blobs) && LiveBlob(db, f, d) && y.mode.Inline?
    requires AgreesWithBlob(db.files[f], db.blobs[db.files[f].blob]) && AgreesWithSession(db.files[f], y)
    requires y.hash.Some? ==> y.hash.value.algorithm.Sha256?
    ensures Materialize(db, y, None, Answers(d)) == Ok(HitOn(db.files[f].blob, d))
  {
    var hash := ContentHash(Sha256, Hex64(d));
    assert y.hash.Some? ==> y.hash == Some(hash);
    LookupFinds(db, y.tenant, y.location.bucket, db.files[f].blob, hash);
  }

  function Deleted(db: Db, f: Id, audit: Id, e: Id): Db
    requires f in db.files && db.files[f].blob in db.blobs
  {
    var c := db.files[f].blob;
    db.(files := db.files[f := db.files[f].(status := FileStatus.Deleted, deletedAt := Some(db.now))],
        blobs := db.blobs[c := db.blobs[c].(refCount := 0, updatedAt := db.now)],
        usage := ReleaseUsage(db.usage, db.files[f].tenant, db.files[f].size),
        audits := db.audits[audit := f],
        outbox := db.outbox[e := DeleteRequested(f)])
  }

  lemma DeleteSole(s: State, f: Id, d: nat, audit: Id, e: Id)
    requires SoleFile(s.db, f, d) && RefCounts(s.db.files, s.db.blobs)
    requires audit !in s.db.audits && e !in s.db.outbox
    ensures Apply(s, DeleteFile(f, audit, e)) == s.(db := Deleted(s.db, f, audit, e))
  {
    assert f in ActiveOn(s.db.files, s.db.files[f].blob);
  }

  /** The retention passes. */
  function Later(db: Db, elapsed: nat): Db {
    db.(now := db.now + elapsed)
  }

  /** Finalize-delete takes the object of the blob whose last file was deleted. */
  function Collected(db: Db, c: Id): Db
    requires c in db.blobs
  {
    db.(blobs := db.blobs[c := db.blobs[c].(deletedAt := Some(db.now), updatedAt := db.now)],
        gone := db.gone + {db.blobs[c].location})
  }

  lemma CollectSole(s: State, c: Id, f: Id, before: Time)
    requires c in s.db.blobs && s.db.blobs[c].refCount == 0 && s.db.blobs[c].deletedAt.None?
    requires f in s.db.files && s.db.files[f].blob == c && s.db.files[f].status.Deleted?
    requires s.db.files[f].deletedAt == Some(before)
    ensures Apply(s, FinalizeDeletes([c], before, 1, true)) == s.(db := Collected(s.db, c))
  {
    assert FinalizeCandidate(s.db, c, before);
    CollectOne(s.db, c);
  }

  lemma CollectOne(db: Db, c: Id)
    requires c in db.blobs && db.blobs[c].refCount == 0 && db.blobs[c].deletedAt.None?
    ensures CollectTx(db, [c], 1, true) == Collected(db, c)
  {
    var doomed := [c];
    assert doomed[..1] == doomed;
    assert CollectedBlobs(db.blobs, doomed, db.now) == Collected(db, c).blobs;
    assert doomed[0] == c;
    assert CollectTx(db, doomed, 1, true).gone == Collected(db, c).gone;
  }

  /** A completion about to commit with a hit on a blob that may be moved to the session's own object. */
  predicate Ready(db: Db, y: SessionState, c: Id, d: nat, g: Id, e: Id) {
    && y.id in db.sessions && db.sessions[y.id] == y && y == Reacquired(y, y.updatedAt)
    && 0 < y.createdAt <= db.now && WellShaped(y) && UploadIdMatchesMode(y) && y.mode.Inline?
    && g !in db.files && e !in db.outbox
    && c in db.blobs && db.blobs[c].hash == Some(ContentHash(Sha256, Hex64(d)))
    && db.blobs[c].tenant == y.tenant
    && forall o :: o in db.blobs && o != c ==> !Conflicts(db.blobs[c].(location := y.location), db.blobs[o])
  }

  lemma CommitOnHit(db: Db, y: SessionState, c: Id, d: nat, b: Id, g: Id, e: Id)
    requires Ready(db, y, c, d, g, e)
    ensures var t := CommitTx(db, y.id, Text(0), HitOn(c, d), b, g, e);
            && t.result == Ok(g) && t.db.gone == db.gone
            && t.db.files == db.files[g := FileAsset(y.tenant, c, 1, Active, y.location, Some(Hex64(d)), None)]
  {
    ValidateAcceptsExactly(y);
    ValidateAcceptsExactly(y.(completedParts := 1, status := Completed, fileId := Text(g), completedAt := Some(db.now),
                              updatedAt := db.now));
    var row := UpsertedBlob(db.blobs, c, y.tenant, y.location, HitOn(c, d).hash, 1, db.now);
    forall o | o in db.blobs && o != c ensures !Conflicts(row, db.blobs[o]) {
      assert !Conflicts(db.blobs[c].(location := y.location), db.blobs[o]);
    }
    assert !UpsertRejected(db.blobs, c, row);
  }

  /** The run starts with the late save, which reopens the session for a second completion. */
  predicate Opens(run: seq<Action>, task: Id, sid: Id, d: nat, ids: Ids) {
    && |run| >= 3 && run[0] == SaveUploading(task)
    && run[1] == BeginCompletion(ids.request, sid, Text(0), None)
    && run[2] == Prepare(ids.request, Answers(d))
  }

  /**
    * It goes on with the deletion of the first file. The finalize job runs once the retention has passed, with a
    * cutoff that lies the retention before its own time, and overtakes the second completion.
    */
  predicate Overtakes(run: seq<Action>, f: Id, c: Id, now: Time, retention: nat, ids: Ids) {
    run == [DeleteFile(f, ids.audit, ids.event), Tick(retention), FinalizeDeletes([c], now, 1, true),
            Commit(ids.request, ids.blob, ids.file, ids.event + 1)]
  }

  datatype Ids = Ids(request: Id, audit: Id, event: Id, blob: Id, file: Id)

  predicate Unused(s: State, ids: Ids) {
    && ids.request !in s.requests && ids.audit !in s.db.audits && ids.event !in s.db.outbox
    && ids.event + 1 !in s.db.outbox && ids.blob !in s.db.blobs && ids.file !in s.db.files
  }

  lemma ExecFrom(s: State, run: seq<Action>, k: nat)
    requires k < |run|
    ensures Exec(s, run[k..]) == Exec(Apply(s, run[k]), run[k + 1..])
  {
    assert run[k..][1..] == run[k + 1..];
  }

  function Looked(s: State, r: Id, y: SessionState, c: Id, d: nat): State {
    s.(requests := s.requests[r := Prepared(y, Text(0), None, HitOn(c, d))])
  }

  /** The second completion after its dedup lookup. */
  function AtLookup(s: State, task: Id, f: Id, d: nat, ids: Ids): State
    requires task in s.uploads && f in s.db.files
  {
    Looked(Reopened(s, task, ids.request, None), ids.request, Reacquired(s.uploads[task], s.db.now),
           s.db.files[f].blob, d)
  }

  lemma PrepareOwned(s: State, r: Id, y: SessionState, c: Id, d: nat)
    requires r in s.requests && s.requests[r] == Owned(y, Text(0), None)
    requires Materialize(s.db, y, None, Answers(d)) == Ok(HitOn(c, d))
    ensures Apply(s, Prepare(r, Answers(d))) == Looked(s, r, y, c, d)
  {
  }

  lemma StaleFileAgrees(s: State, task: Id, f: Id)
    requires Rows(s.db) && Copies(s) && Assets(s.db) && Stale(s, task, f)
    ensures var x, file := s.uploads[task], s.db.files[f];
            && file.blob in s.db.blobs && AgreesWithBlob(file, s.db.blobs[file.blob])
            && AgreesWithSession(file, x) && (x.hash.Some? ==> x.hash.value.algorithm.Sha256?)
  {
    assert UploadOk(s.db, s.uploads[task]);
    assert RowOk(s.uploads[task].id, s.db.sessions[s.uploads[task].id], s.db.now);
    assert FileOk(s.db.sessions, s.db.blobs, s.db.files[f]);
  }

  /** The second completion finds the blob of the first. */
  lemma ReopenedHits(s: State, task: Id, f: Id, d: nat, r: Id)
    requires Rows(s.db) && Copies(s) && Assets(s.db) && Stale(s, task, f) && LiveBlob(s.db, f, d)
    ensures Materialize(Reopened(s, task, r, None).db, Reacquired(s.uploads[task], s.db.now), None, Answers(d))
         == Ok(HitOn(s.db.files[f].blob, d))
  {
    StaleFileAgrees(s, task, f);
    var s1 := Reopened(s, task, r, None);
    assert s1.db.files == s.db.files && s1.db.blobs == s.db.blobs;
    MaterializeHits(s1.db, Reacquired(s.uploads[task], s.db.now), f, d);
  }

  lemma TickPasses(s: State, elapsed: nat)
    ensures Apply(s, Tick(elapsed)) == s.(db := Later(s.db, elapsed))
  {
  }

  /** The tables once the only file is deleted, the retention has passed and the object is collected. */
  function Swept(db: Db, f: Id, retention: nat, ids: Ids): Db
    requires f in db.files && db.files[f].blob in db.blobs
  {
    Collected(Later(Deleted(db, f, ids.audit, ids.event), retention), db.files[f].blob)
  }

  lemma DeleteThenCollect(s: State, f: Id, d: nat, retention: nat, ids: Ids, run: seq<Action>)
    requires SoleFile(s.db, f, d) && RefCounts(s.db.files, s.db.blobs)
    requires ids.audit !in s.db.audits && ids.event !in s.db.outbox
    requires Overtakes(run, f, s.db.files[f].blob, s.db.now, retention, ids)
    ensures Exec(s, run) == Exec(s.(db := Swept(s.db, f, retention, ids)), run[3..])
  {
    DeleteSole(s, f, d, ids.audit, ids.event);
    var s1 := s.(db := Deleted(s.db, f, ids.audit, ids.event));
    TickPasses(s1, retention);
    var s2 := s1.(db := Later(s1.db, retention));
    CollectSole(s2, s.db.files[f].blob, f, s.db.now);
    ExecFrom(s1, run, 1);
    ExecFrom(s2, run, 2);
  }

  lemma CommitPrepared(s: State, r: Id, y: SessionState, c: Id, d: nat, b: Id, g: Id, e: Id)
    requires r in s.requests && s.requests[r] == Prepared(y, Text(0), None, HitOn(c, d)) && b !in s.db.blobs
    ensures Apply(s, Commit(r, b, g, e)).db == CommitTx(s.db, y.id, Text(0), HitOn(c, d), b, g, e).db
  {
  }

  /** The tables in which the second completion commits: the first file deleted, its blob collected. */
  function Overtaken(s: State, task: Id, f: Id, retention: nat, ids: Ids): Db
    requires task in s.uploads && f in s.db.files && s.db.files[f].blob in s.db.blobs
  {
    Swept(Reopened(s, task, ids.request, None).db, f, retention, ids)
  }

  /** What the second completion needs from the state before the late save. */
  predicate Reopenable(s: State, task: Id, f: Id, d: nat, ids: Ids) {
    && s.db.now > 0 && Blobs(s.db.files, s.db.blobs) && OneFilePerObject(s.db.files)
    && Stale(s, task, f) && LiveBlob(s.db, f, d) && Unused(s, ids)
    && s.uploads[task].createdAt <= s.db.now
    && (var y := Reacquired(s.uploads[task], s.db.now); WellShaped(y) && UploadIdMatchesMode(y))
    && AgreesWithBlob(s.db.files[f], s.db.blobs[s.db.files[f].blob])
    && AgreesWithSession(s.db.files[f], s.uploads[task])
  }

  lemma StaleIsReopenable(s: State, task: Id, f: Id, d: nat, ids: Ids)
    requires Rows(s.db) && Copies(s) && Assets(s.db) && Stale(s, task, f) && LiveBlob(s.db, f, d) && Unused(s, ids)
    ensures Reopenable(s, task, f, d, ids)
  {
    PendingRowLoads(s, task);
    StaleFileAgrees(s, task, f);
  }

  /** No other blob stands in the way of moving the file's blob to the file's object. */
  lemma MoveConflictsWithNone(files: FileTable, blobs: BlobTable, f: Id)
    requires Blobs(files, blobs) && OneFilePerObject(files) && f in files && files[f].blob in blobs
    requires AgreesWithBlob(files[f], blobs[files[f].blob])
    ensures forall o :: o in blobs && o != files[f].blob ==>
              !Conflicts(blobs[files[f].blob].(location := files[f].location), blobs[o])
  {
    var c := files[f].blob;
    forall o | o in blobs && o != c ensures !Conflicts(blobs[c].(location := files[f].location), blobs[o]) {
      assert !Conflicts(blobs[c], blobs[o]) && Anchored(files, o, blobs[o].location);
    }
  }

  lemma OvertakenReady(s: State, task: Id, f: Id, d: nat, retention: nat, ids: Ids)
    requires Reopenable(s, task, f, d, ids)
    ensures Ready(Overtaken(s, task, f, retention, ids), Reacquired(s.uploads[task], s.db.now), s.db.files[f].blob, d,
                  ids.file, ids.event + 1)
  {
    var c, db, o' := s.db.files[f].blob, Overtaken(s, task, f, retention, ids), s.db.files[f].location;
    MoveConflictsWithNone(s.db.files, s.db.blobs, f);
    forall o | o in db.blobs && o != c ensures !Conflicts(db.blobs[c].(location := o'), db.blobs[o]) {
      assert !Conflicts(s.db.blobs[c].(location := o'), s.db.blobs[o]);
    }
  }

  lemma ReopenedReady(s: State, task: Id, f: Id, d: nat, ids: Ids)
    requires Reopenable(s, task, f, d, ids)
    ensures Ready(Reopened(s, task, ids.request, None).db, Reacquired(s.uploads[task], s.db.now), s.db.files[f].blob, d,
                  ids.file, ids.event + 1)
  {
    MoveConflictsWithNone(s.db.files, s.db.blobs, f);
  }

  /** `f` and `g` are two files of one session, and `g` is ACTIVE although its object is gone. */
  predicate Lost(db: Db, o: ObjectRef, f: Id, g: Id) {
    && f != g && f in db.files && g in db.files
    && db.files[f].location == o && db.files[g].location == o
    && db.files[g].status.Active? && o in db.gone
  }

  lemma CommitLoses(db: Db, y: SessionState, c: Id, d: nat, b: Id, f: Id, g: Id, e: Id)
    requires Ready(db, y, c, d, g, e) && f in db.files && db.files[f].location == y.location && y.location in db.gone
    ensures Lost(CommitTx(db, y.id, Text(0), HitOn(c, d), b, g, e).db, y.location, f, g)
  {
    CommitOnHit(db, y, c, d, b, g, e);
  }

  lemma OvertakenLoses(s: State, task: Id, f: Id, d: nat, retention: nat, ids: Ids)
    requires Reopenable(s, task, f, d, ids) && SoleFile(s.db, f, d)
    ensures var db := CommitTx(Overtaken(s, task, f, retention, ids), s.uploads[task].id, Text(0),
                               HitOn(s.db.files[f].blob, d), ids.blob, ids.file, ids.event + 1).db;
            Lost(db, s.db.files[f].location, f, ids.file)
  {
    OvertakenReady(s, task, f, d, retention, ids);
    CommitLoses(Overtaken(s, task, f, retention, ids), Reacquired(s.uploads[task], s.db.now), s.db.files[f].blob, d,
                ids.blob, f, ids.file, ids.event + 1);
  }

  lemma FirstHalf(s: State, task: Id, f: Id, d: nat, ids: Ids, run: seq<Action>)
    requires Rows(s.db) && Copies(s) && Assets(s.db) && Stale(s, task, f) && LiveBlob(s.db, f, d) && Unused(s, ids)
    requires Opens(run, task, s.uploads[task].id, d, ids)
    ensures Exec(s, run) == Exec(AtLookup(s, task, f, d, ids), run[3..])
  {
    SaveThenAcquire(s, task, ids.request, None, run);
    ReopenedHits(s, task, f, d, ids.request);
    var s2 := Reopened(s, task, ids.request, None);
    PrepareOwned(s2, ids.request, Reacquired(s.uploads[task], s.db.now), s.db.files[f].blob, d);
    ExecFrom(s2, run, 2);
  }

  lemma SecondHalf(s: State, f: Id, d: nat, y: SessionState, retention: nat, ids: Ids, run: seq<Action>)
    requires SoleFile(s.db, f, d) && RefCounts(s.db.files, s.db.blobs)
    requires ids.audit !in s.db.audits && ids.event !in s.db.outbox && ids.blob !in s.db.blobs
    requires ids.request in s.requests
    requires s.requests[ids.request] == Prepared(y, Text(0), None, HitOn(s.db.files[f].blob, d))
    requires Overtakes(run, f, s.db.files[f].blob, s.db.now, retention, ids)
    ensures Exec(s, run).db == CommitTx(Swept(s.db, f, retention, ids), y.id, Text(0), HitOn(s.db.files[f].blob, d),
                                        ids.blob, ids.file, ids.event + 1).db
  {
    DeleteThenCollect(s, f, d, retention, ids, run);
    var s3 := s.(db := Swept(s.db, f, retention, ids));
    CommitPrepared(s3, ids.request, y, s.db.files[f].blob, d, ids.blob, ids.file, ids.event + 1);
    ExecFrom(s3, run, 3);
  }

  lemma RunLoses(s: State, task: Id, f: Id, d: nat, retention: nat, ids: Ids, run: seq<Action>)
    requires Reopenable(s, task, f, d, ids) && SoleFile(s.db, f, d) && RefCounts(s.db.files, s.db.blobs)
    requires Overtakes(run, f, s.db.files[f].blob, s.db.now, retention, ids)
    ensures Lost(Exec(AtLookup(s, task, f, d, ids), run).db, s.db.files[f].location, f, ids.file)
  {
    SecondHalf(AtLookup(s, task, f, d, ids), f, d, Reacquired(s.uploads[task], s.db.now), retention, ids, run);
    OvertakenLoses(s, task, f, d, retention, ids);
  }

  /**
    * Wherever a mark-uploading save is overtaken by the completion of its inline session, saving it can end in a
    * second file for the session, ACTIVE although finalize-delete has removed its object, whatever the retention.
    */
  lemma LateSaveLosesAnObject(s: State, task: Id, f: Id, d: nat, retention: nat, ids: Ids, run: seq<Action>)
    requires Inv(s) && Stale(s, task, f) && SoleFile(s.db, f, d) && Unused(s, ids)
    requires Opens(run, task, s.uploads[task].id, d, ids)
    requires Overtakes(run[3..], f, s.db.files[f].blob, s.db.now, retention, ids)
    ensures Lost(Exec(s, run).db, s.db.files[f].location, f, ids.file)
  {
    FirstHalf(s, task, f, d, ids, run);
    StaleIsReopenable(s, task, f, d, ids);
    RunLoses(s, task, f, d, retention, ids, run[3..]);
  }

  /** Two files of one session, the second one ACTIVE. */
  predicate Twice(db: Db, o: ObjectRef, f: Id, g: Id) {
    && f != g && f in db.files && g in db.files
    && db.files[f].location == o && db.files[g].location == o && db.files[g].status.Active?
  }

  lemma CommitDoubles(s: State, task: Id, f: Id, d: nat, ids: Ids)
    requires Reopenable(s, task, f, d, ids)
    ensures var s' := Apply(AtLookup(s, task, f, d, ids), Commit(ids.request, ids.blob, ids.file, ids.event + 1));
            Twice(s'.db, s.db.files[f].location, f, ids.file)
  {
    var s3, y, c := AtLookup(s, task, f, d, ids), Reacquired(s.uploads[task], s.db.now), s.db.files[f].blob;
    ReopenedReady(s, task, f, d, ids);
    CommitPrepared(s3, ids.request, y, c, d, ids.blob, ids.file, ids.event + 1);
    CommitOnHit(s3.db, y, c, d, ids.blob, ids.file, ids.event + 1);
  }

  lemma RunDoubles(s: State, task: Id, f: Id, d: nat, ids: Ids, run: seq<Action>)
    requires Reopenable(s, task, f, d, ids) && run == [Commit(ids.request, ids.blob, ids.file, ids.event + 1)]
    ensures Twice(Exec(AtLookup(s, task, f, d, ids), run).db, s.db.files[f].location, f, ids.file)
  {
    CommitDoubles(s, task, f, d, ids);
    ExecFrom(AtLookup(s, task, f, d, ids), run, 0);
    assert run[0..] == run;
  }

  /** Already four steps make a second file, wherever the blob of the first is live, hashed and in use. */
  lemma LateSaveMakesSecondFile(s: State, task: Id, f: Id, d: nat, ids: Ids, run: seq<Action>)
    requires Inv(s) && Stale(s, task, f) && LiveBlob(s.db, f, d) && Unused(s, ids)
    requires Opens(run, task, s.uploads[task].id, d, ids)
    requires run[3..] == [Commit(ids.request, ids.blob, ids.file, ids.event + 1)]
    ensures Twice(Exec(s, run).db, s.db.files[f].location, f, ids.file)
  {
    FirstHalf(s, task, f, d, ids, run);
    StaleIsReopenable(s, task, f, d, ids);
    RunDoubles(s, task, f, d, ids, run[3..]);
  }
}
