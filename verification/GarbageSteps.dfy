/** Deletion, garbage collection, usage and failure steps keep the invariant. */
module GarbageSteps {
  import opened Base
  import opened Sessions
  import opened Hashes
  import opened Database
  import opened Lifecycle
  import opened Invariant
  import opened SessionSteps
  import opened AssetSteps

  // ---------------------------------------------------------------------------
  // Delete

  lemma ActiveOnRemoved(files: FileTable, fid: Id, file: FileAsset, b: Id)
    requires fid in files && files[fid].status.Active? && file.status.Deleted?
    ensures |ActiveOn(files[fid := file], b)| == |ActiveOn(files, b)| - if files[fid].blob == b then 1 else 0
  {
    if files[fid].blob == b {
      assert ActiveOn(files[fid := file], b) == ActiveOn(files, b) - {fid};
    } else {
      assert ActiveOn(files[fid := file], b) == ActiveOn(files, b);
    }
  }

  predicate Deletable(db: Db, fid: Id, auditId: Id, eventId: Id) {
    fid in db.files && db.files[fid].status.Active? && auditId !in db.audits && eventId !in db.outbox
  }

  /** The same file, now DELETED. */
  predicate Buries(files: FileTable, fid: Id, file: FileAsset) {
    && fid in files && files[fid].status.Active?
    && file == files[fid].(status := Deleted, deletedAt := file.deletedAt) && file.deletedAt.Some?
  }

  lemma DeleteFiles(db: Db, fid: Id, file: FileAsset, blobs': BlobTable)
    requires Files(db.sessions, db.blobs, db.files) && OneFilePerObject(db.files) && Buries(db.files, fid, file)
    requires forall b :: b in db.blobs ==> b in blobs' && SameBlobIdentity(db.blobs[b], blobs'[b])
    ensures Files(db.sessions, blobs', db.files[fid := file]) && OneFilePerObject(db.files[fid := file])
  {
    var files' := db.files[fid := file];
    forall f | f in files' ensures FileOk(db.sessions, blobs', files'[f]) {
      assert FileOk(db.sessions, db.blobs, db.files[f]);
    }
    forall t | t in db.sessions && db.sessions[t].status.Completed? ensures CompletedFile(files', db.sessions[t]) {
      assert CompletedFile(db.files, db.sessions[t]);
    }
  }

  predicate SameBlobIdentity(a: Blob, b: Blob) {
    a.tenant == b.tenant && a.location == b.location && a.hash == b.hash
  }

  /** The clamp at zero on the reference count never fires. */
  lemma DeleteBlobs(files: FileTable, blobs: BlobTable, fid: Id, file: FileAsset, now: Time)
    requires Blobs(files, blobs) && RefCounts(files, blobs) && Buries(files, fid, file) && file.blob in blobs
    ensures var blobs' := ReleaseBlob(blobs, file.blob, now);
            Blobs(files[fid := file], blobs') && RefCounts(files[fid := file], blobs')
    ensures blobs[file.blob].refCount >= 1
  {
    var files', blobs' := files[fid := file], ReleaseBlob(blobs, file.blob, now);
    assert fid in ActiveOn(files, file.blob);
    forall b | b in blobs'
      ensures Anchored(files', b, blobs'[b].location)
      ensures blobs'[b].refCount == |ActiveOn(files', b)|
    {
      StillAnchored(files, files', b, blobs[b].location);
      ActiveOnRemoved(files, fid, file, b);
    }
  }

  /** Nor does the clamp on the used bytes. */
  lemma DeleteUsages(files: FileTable, usage: UsageTable, fid: Id, file: FileAsset)
    requires Usages(files, usage) && Buries(files, fid, file)
    requires forall f :: f in files ==> files[f].size > 0
    ensures Usages(files[fid := file], ReleaseUsage(usage, file.tenant, file.size))
    ensures file.tenant in usage ==> usage[file.tenant].bytes >= file.size
  {
    var files', usage' := files[fid := file], ReleaseUsage(usage, file.tenant, file.size);
    forall t | t in usage'
      ensures usage'[t].bytes == SumSizes(files', ActiveOf(files', t))
      ensures 0 <= usage'[t].count <= |ActiveOf(files', t)|
      ensures t == file.tenant ==> usage[t].bytes >= file.size
    {
      var before, after := ActiveOf(files, t), ActiveOf(files', t);
      if t == file.tenant {
        assert after == before - {fid};
        SumWithout(files, before, fid);
        SumNotNegative(files, after);
      } else {
        assert after == before;
      }
      SumSameSizes(files, files', after);
    }
  }

  lemma DeleteStorage(files: FileTable, gone: set<ObjectRef>, fid: Id, file: FileAsset)
    requires StorageSafe(files, gone) && Buries(files, fid, file)
    ensures StorageSafe(files[fid := file], gone)
  {
    forall o | o in gone ensures HasFile(files[fid := file], o) {
      StillHasFile(files, files[fid := file], o);
    }
  }

  lemma DeleteEvents(db: Db, fid: Id, file: FileAsset, eventId: Id)
    requires Events(db.files, db.outbox) && Buries(db.files, fid, file) && eventId !in db.outbox
    ensures Events(db.files[fid := file], db.outbox[eventId := DeleteRequested(fid)])
  {
    var files', outbox' := db.files[fid := file], db.outbox[eventId := DeleteRequested(fid)];
    forall e | e in outbox' ensures EventOk(files', outbox'[e]) {
      if e != eventId { assert EventOk(db.files, db.outbox[e]); }
    }
    forall f | f in files' ensures Announced(outbox', SessionCompleted(files'[f].location.key.session, f)) {
      StillAnnounced(db.outbox, outbox', SessionCompleted(db.files[f].location.key.session, f));
    }
  }

  lemma DeleteDeletions(files: FileTable, outbox: EventTable, audits: AuditTable, fid: Id, file: FileAsset,
                        auditId: Id, eventId: Id)
    requires Deletions(files, outbox, audits) && Buries(files, fid, file) && auditId !in audits && eventId !in outbox
    requires forall e :: e in outbox ==> outbox[e] != DeleteRequested(fid)
    ensures Deletions(files[fid := file], outbox[eventId := DeleteRequested(fid)], audits[auditId := fid])
  {
    var files', outbox', audits' := files[fid := file], outbox[eventId := DeleteRequested(fid)], audits[auditId := fid];
    forall f | f in files' && files'[f].status.Deleted?
      ensures Announced(outbox', DeleteRequested(f)) && Audited(audits', f)
    {
      if f == fid {
        assert outbox'[eventId] == DeleteRequested(f) && audits'[auditId] == f;
      } else {
        StillAnnounced(outbox, outbox', DeleteRequested(f));
        var a :| a in audits && audits[a] == f;
        assert a in audits' && audits'[a] == f;
      }
    }
  }

  /** DeleteTx on an ACTIVE file, written out. */
  function Buried(db: Db, fid: Id, file: FileAsset, auditId: Id, eventId: Id): Db {
    db.(files := db.files[fid := file],
        blobs := ReleaseBlob(db.blobs, file.blob, db.now),
        usage := ReleaseUsage(db.usage, file.tenant, file.size),
        audits := db.audits[auditId := fid],
        outbox := db.outbox[eventId := DeleteRequested(fid)])
  }

  lemma NotYetRequested(db: Db, fid: Id)
    requires Files(db.sessions, db.blobs, db.files) && Events(db.files, db.outbox)
    requires fid in db.files && db.files[fid].status.Active?
    ensures forall f :: f in db.files ==> db.files[f].size > 0 && db.files[f].blob in db.blobs
    ensures forall e :: e in db.outbox ==> db.outbox[e] != DeleteRequested(fid)
  {
    forall f | f in db.files ensures db.files[f].size > 0 && db.files[f].blob in db.blobs {
      assert FileOk(db.sessions, db.blobs, db.files[f]);
    }
    forall e | e in db.outbox ensures db.outbox[e] != DeleteRequested(fid) {
      assert EventOk(db.files, db.outbox[e]);
    }
  }

  lemma DeleteStock(db: Db, fid: Id, file: FileAsset)
    requires Files(db.sessions, db.blobs, db.files) && OneFilePerObject(db.files)
    requires Blobs(db.files, db.blobs) && RefCounts(db.files, db.blobs) && Buries(db.files, fid, file)
    requires file.blob in db.blobs
    ensures var files', blobs' := db.files[fid := file], ReleaseBlob(db.blobs, file.blob, db.now);
            && Files(db.sessions, blobs', files') && OneFilePerObject(files')
            && Blobs(files', blobs') && RefCounts(files', blobs')
  {
    DeleteFiles(db, fid, file, ReleaseBlob(db.blobs, file.blob, db.now));
    DeleteBlobs(db.files, db.blobs, fid, file, db.now);
  }

  lemma DeleteAssets(db: Db, fid: Id, file: FileAsset, auditId: Id, eventId: Id)
    requires Assets(db) && Buries(db.files, fid, file) && auditId !in db.audits && eventId !in db.outbox
    ensures Assets(Buried(db, fid, file, auditId, eventId))
  {
    var db' := Buried(db, fid, file, auditId, eventId);
    NotYetRequested(db, fid);
    DeleteStock(db, fid, file);
    assert Usages(db'.files, db'.usage) by { DeleteUsages(db.files, db.usage, fid, file); }
    assert StorageSafe(db'.files, db'.gone) by { DeleteStorage(db.files, db.gone, fid, file); }
    assert Events(db'.files, db'.outbox) by { DeleteEvents(db, fid, file, eventId); }
    assert Deletions(db'.files, db'.outbox, db'.audits) by {
      DeleteDeletions(db.files, db.outbox, db.audits, fid, file, auditId, eventId);
    }
  }

  lemma BuriedExtends(db: Db, fid: Id, file: FileAsset, auditId: Id, eventId: Id)
    requires Buries(db.files, fid, file)
    ensures Extends(db, Buried(db, fid, file, auditId, eventId))
  {
  }

  lemma BuriedRows(db: Db, fid: Id, file: FileAsset, auditId: Id, eventId: Id)
    requires Rows(db)
    ensures Rows(Buried(db, fid, file, auditId, eventId))
  {
  }

  lemma BuriedKeeps(s: State, s': State, fid: Id, file: FileAsset, auditId: Id, eventId: Id)
    requires Inv(s) && Buries(s.db.files, fid, file) && auditId !in s.db.audits && eventId !in s.db.outbox
    requires s' == s.(db := Buried(s.db, fid, file, auditId, eventId))
    ensures Inv(s')
  {
    DeleteAssets(s.db, fid, file, auditId, eventId);
    BuriedExtends(s.db, fid, file, auditId, eventId);
    BuriedRows(s.db, fid, file, auditId, eventId);
    TablesOnlyKeep(s, s');
  }

  lemma DeleteBuries(s: State, fid: Id, auditId: Id, eventId: Id)
    ensures Apply(s, DeleteFile(fid, auditId, eventId)) ==
            if !Deletable(s.db, fid, auditId, eventId) then s
            else s.(db := Buried(s.db, fid, s.db.files[fid].(status := Deleted, deletedAt := Some(s.db.now)),
                                 auditId, eventId))
  {
  }

  lemma DeleteKeeps(s: State, fid: Id, auditId: Id, eventId: Id)
    requires Inv(s)
    ensures Inv(Apply(s, DeleteFile(fid, auditId, eventId)))
  {
    DeleteBuries(s, fid, auditId, eventId);
    if Deletable(s.db, fid, auditId, eventId) {
      var file := s.db.files[fid].(status := Deleted, deletedAt := Some(s.db.now));
      BuriedKeeps(s, s.(db := Buried(s.db, fid, file, auditId, eventId)), fid, file, auditId, eventId);
    }
  }

  // ---------------------------------------------------------------------------
  // Garbage collection

  /** An unreferenced blob's object belongs to no ACTIVE file. */
  lemma UnreferencedObjectIsDead(files: FileTable, blobs: BlobTable, b: Id)
    requires Blobs(files, blobs) && RefCounts(files, blobs) && OneFilePerObject(files)
    requires b in blobs && blobs[b].refCount == 0
    ensures HasFile(files, blobs[b].location)
    ensures forall f :: f in files && files[f].status.Active? ==>
              files[f].blob != b && files[f].location != blobs[b].location
  {
    assert Anchored(files, b, blobs[b].location);
    var g :| g in files && files[g].blob == b && files[g].location == blobs[b].location;
    forall f | f in files && files[f].status.Active?
      ensures files[f].blob != b && files[f].location != blobs[b].location
    {
      assert f !in ActiveOn(files, b);
    }
  }

  predicate Unreferenced(blobs: BlobTable, doomed: seq<Id>) {
    forall i :: 0 <= i < |doomed| ==> doomed[i] in blobs && blobs[doomed[i]].refCount == 0
  }

  lemma CollectStorage(db: Db, doomed: seq<Id>, done: nat, committed: bool)
    requires Blobs(db.files, db.blobs) && RefCounts(db.files, db.blobs) && OneFilePerObject(db.files)
    requires StorageSafe(db.files, db.gone) && Unreferenced(db.blobs, doomed) && done <= |doomed|
    ensures StorageSafe(db.files, CollectTx(db, doomed, done, committed).gone)
  {
    forall o | o in CollectTx(db, doomed, done, committed).gone
      ensures HasFile(db.files, o)
      ensures forall f :: f in db.files && db.files[f].status.Active? ==> db.files[f].location != o
    {
      if o !in db.gone {
        var i :| 0 <= i < done && db.blobs[doomed[i]].location == o;
        UnreferencedObjectIsDead(db.files, db.blobs, doomed[i]);
      }
    }
  }

  /** Collecting changes no more than the deletion marks of blob rows. */
  predicate SameBlobs(blobs: BlobTable, blobs': BlobTable) {
    && blobs.Keys == blobs'.Keys
    && forall b :: b in blobs ==> SameBlobIdentity(blobs[b], blobs'[b]) && blobs'[b].refCount == blobs[b].refCount
  }

  lemma SameBlobsSuffice(db: Db, blobs': BlobTable)
    requires SameBlobs(db.blobs, blobs')
    requires Files(db.sessions, db.blobs, db.files) && Blobs(db.files, db.blobs)
    ensures Files(db.sessions, blobs', db.files) && Blobs(db.files, blobs')
  {
    forall f | f in db.files ensures FileOk(db.sessions, blobs', db.files[f]) {
      assert FileOk(db.sessions, db.blobs, db.files[f]);
    }
    forall b | b in blobs' ensures Anchored(db.files, b, blobs'[b].location) {
      assert Anchored(db.files, b, db.blobs[b].location);
    }
    forall b, c | b in blobs' && c in blobs' && b != c ensures !Conflicts(blobs'[b], blobs'[c]) {
      assert !Conflicts(db.blobs[b], db.blobs[c]);
    }
  }

  lemma CollectOutcome(db: Db, doomed: seq<Id>, done: nat, committed: bool)
    requires Unreferenced(db.blobs, doomed) && done <= |doomed|
    ensures var db' := CollectTx(db, doomed, done, committed);
            SameBlobs(db.blobs, db'.blobs) && db' == db.(gone := db'.gone, blobs := db'.blobs)
  {
  }

  lemma CollectedAssets(db: Db, db': Db)
    requires Rows(db) && Assets(db) && db' == db.(gone := db'.gone, blobs := db'.blobs)
    requires SameBlobs(db.blobs, db'.blobs) && StorageSafe(db.files, db'.gone)
    ensures Rows(db') && Assets(db')
  {
    SameBlobsSuffice(db, db'.blobs);
    assert RefCounts(db.files, db'.blobs);
  }

  lemma CollectedExtends(db: Db, db': Db)
    requires db' == db.(gone := db'.gone, blobs := db'.blobs) && SameBlobs(db.blobs, db'.blobs)
    ensures Extends(db, db')
  {
  }

  lemma CollectTxKeeps(s: State, doomed: seq<Id>, done: nat, committed: bool)
    requires Inv(s) && Unreferenced(s.db.blobs, doomed) && done <= |doomed|
    ensures Inv(s.(db := CollectTx(s.db, doomed, done, committed)))
  {
    var db' := CollectTx(s.db, doomed, done, committed);
    CollectStorage(s.db, doomed, done, committed);
    CollectOutcome(s.db, doomed, done, committed);
    CollectedAssets(s.db, db');
    CollectedExtends(s.db, db');
    TablesOnlyKeep(s, s.(db := db'));
  }

  lemma CollectKeeps(s: State, doomed: seq<Id>, done: nat, committed: bool)
    requires Inv(s) && Unreferenced(s.db.blobs, doomed)
    ensures Inv(Collect(s, doomed, done, committed))
  {
    if done <= |doomed| { CollectTxKeeps(s, doomed, done, committed); }
  }

  lemma FinalizeKeeps(s: State, doomed: seq<Id>, before: Time, done: nat, committed: bool)
    requires Inv(s)
    ensures Inv(Apply(s, FinalizeDeletes(doomed, before, done, committed)))
  {
    if forall i :: 0 <= i < |doomed| ==> FinalizeCandidate(s.db, doomed[i], before) {
      CollectKeeps(s, doomed, done, committed);
    }
  }

  lemma OrphansKeep(s: State, doomed: seq<Id>, before: Time, done: nat, committed: bool)
    requires Inv(s)
    ensures Inv(Apply(s, CollectOrphans(doomed, before, done, committed)))
  {
    if forall i :: 0 <= i < |doomed| ==> OrphanCandidate(s.db, doomed[i], before) {
      CollectKeeps(s, doomed, done, committed);
    }
  }

  // ---------------------------------------------------------------------------
  // Usage

  lemma UsageChangeKeeps(s: State, usage': UsageTable)
    requires Inv(s) && Usages(s.db.files, usage') && s.db.usage.Keys <= usage'.Keys
    ensures Inv(s.(db := s.db.(usage := usage')))
  {
    var s' := s.(db := s.db.(usage := usage'));
    CopiesKept(s, s');
    RequestsKept(s, s');
  }

  lemma ReconcileKeeps(s: State, tenant: Id)
    requires Inv(s)
    ensures Inv(Apply(s, Reconcile(tenant)))
  {
    if tenant in s.db.usage {
      var active := ActiveOf(s.db.files, tenant);
      UsageChangeKeeps(s, s.db.usage[tenant := Usage(SumSizes(s.db.files, active), |active|)]);
    }
  }

  lemma CreateTenantKeeps(s: State, tenant: Id)
    requires Inv(s)
    ensures Inv(Apply(s, CreateTenant(tenant)))
  {
    if tenant !in s.db.usage {
      forall f | f in s.db.files ensures s.db.files[f].tenant != tenant {
        assert FileOk(s.db.sessions, s.db.blobs, s.db.files[f]);
      }
      assert ActiveOf(s.db.files, tenant) == {};
      UsageChangeKeeps(s, Apply(s, CreateTenant(tenant)).db.usage);
    }
  }

  // ---------------------------------------------------------------------------
  // Completion requests that do not commit

  lemma PreparedOk(db: Db, x: SessionState, token: Text, declared: Option<ContentHash>, env: Storage)
    requires Rows(db) && Identified(db, x)
    ensures var m := Materialize(db, x, declared, env);
            m.Ok? ==> RequestOk(db, Prepared(x, token, declared, m.value))
  {
    assert RowOk(x.id, db.sessions[x.id], db.now);
    var expected := ResolveExpected(x.hash, declared);
    if expected.Ok? {
      var checksum := VerifiedChecksum(expected.value, env);
      if checksum.Ok? {
        FiledUnderTheVerifiedHash(x.hash, declared, checksum.value);
      }
    }
  }

  lemma PrepareKeeps(s: State, req: Id, env: Storage)
    requires Inv(s)
    ensures Inv(Apply(s, Prepare(req, env)))
  {
    if req in s.requests && s.requests[req].Owned? {
      var q := s.requests[req];
      assert RequestOk(s.db, q);
      PreparedOk(s.db, q.snapshot, q.token, q.declared, env);
      var s' := Apply(s, Prepare(req, env));
      NewOutcome(s, s', req, s'.requests[req]);
    }
  }

  lemma DropKeeps(s: State, req: Id)
    requires Inv(s)
    ensures Inv(Apply(s, Drop(req)))
  {
    Forgotten(s, Apply(s, Drop(req)), req);
  }

  lemma Forgotten(s: State, s': State, req: Id)
    requires Inv(s) && (s' == s || s' == s.(requests := s.requests - {req}))
    ensures Inv(s')
  {
    assert s'.db == s.db;
    assert Copies(s') && Requests(s');
  }

  lemma FailOutcome(db: Db, sid: Id, token: Text, code: ErrorCode, text: Text, eventId: Id)
    requires Rows(db)
    ensures var t := FailTx(db, sid, token, code, text, eventId);
            || t.db == db
            || (&& sid in t.db.sessions && t.db.sessions[sid].id == sid
                && t.db == FailedDb(db, t.db.sessions[sid], code, eventId)
                && FailsSession(db, t.db.sessions[sid], eventId)
                && token == db.sessions[sid].completionToken)
  {
    ReadIsTheRow(db, sid);
    var t := FailTx(db, sid, token, code, text, eventId);
    if t.db != db {
      var x := db.sessions[sid];
      assert RowOk(sid, x, db.now);
      var z := x.(status := Failed, failureCode := CodeText(code), failureMessage := text,
                  failedAt := Some(db.now), updatedAt := db.now);
      ValidateAcceptsExactly(z);
      assert t.db.sessions[sid] == z;
    }
  }

  lemma FailedEvent(db: Db, sid: Id, code: ErrorCode, eventId: Id)
    requires Events(db.files, db.outbox) && eventId !in db.outbox
    ensures Events(db.files, db.outbox[eventId := SessionFailed(sid, code)])
  {
    var outbox' := db.outbox[eventId := SessionFailed(sid, code)];
    forall e | e in outbox' ensures EventOk(db.files, outbox'[e]) {
      if e != eventId { assert EventOk(db.files, db.outbox[e]); }
    }
    forall f | f in db.files ensures Announced(outbox', SessionCompleted(db.files[f].location.key.session, f)) {
      StillAnnounced(db.outbox, outbox', SessionCompleted(db.files[f].location.key.session, f));
    }
  }

  lemma FailedDeletions(files: FileTable, outbox: EventTable, audits: AuditTable, sid: Id, code: ErrorCode, eventId: Id)
    requires Deletions(files, outbox, audits) && eventId !in outbox
    ensures Deletions(files, outbox[eventId := SessionFailed(sid, code)], audits)
  {
    var outbox' := outbox[eventId := SessionFailed(sid, code)];
    forall f | f in files && files[f].status.Deleted? ensures Announced(outbox', DeleteRequested(f)) {
      StillAnnounced(outbox, outbox', DeleteRequested(f));
    }
  }

  /** What finalizeFailure does when it does anything: one row becomes FAILED, one event says so. */
  predicate FailsSession(db: Db, z: SessionState, eventId: Id) {
    && z.id in db.sessions && db.sessions[z.id].status.Completing? && eventId !in db.outbox
    && SameIdentity(db.sessions[z.id], z)
    && RowOk(z.id, z, db.now)
    && z.status.Failed?
  }

  function FailedDb(db: Db, z: SessionState, code: ErrorCode, eventId: Id): Db {
    db.(sessions := db.sessions[z.id := z], outbox := db.outbox[eventId := SessionFailed(z.id, code)])
  }

  lemma FailedAssets(db: Db, z: SessionState, code: ErrorCode, eventId: Id)
    requires Rows(db) && Assets(db) && FailsSession(db, z, eventId)
    ensures Assets(FailedDb(db, z, code, eventId))
  {
    var mid := db.(sessions := db.sessions[z.id := z]);
    OneRowReplaced(db, z);
    AssetsKept(db, mid);
    FailedEvent(mid, z.id, code, eventId);
    FailedDeletions(db.files, db.outbox, db.audits, z.id, code, eventId);
  }

  lemma FailedExtends(db: Db, z: SessionState, code: ErrorCode, eventId: Id)
    requires Rows(db) && FailsSession(db, z, eventId)
    ensures var db' := FailedDb(db, z, code, eventId); Extends(db, db') && Rows(db')
  {
  }

  lemma FailedKeeps(s: State, s': State, req: Id, z: SessionState, code: ErrorCode, eventId: Id)
    requires Inv(s) && FailsSession(s.db, z, eventId)
    requires s' == s.(db := FailedDb(s.db, z, code, eventId),
                      requests := s.requests[req := Finished(z.id, Err(code), None)])
    ensures Inv(s')
  {
    FailedAssets(s.db, z, code, eventId);
    FailedExtends(s.db, z, code, eventId);
    assert RequestOk(s'.db, s'.requests[req]);
    CopiesKept(s, s');
    RequestsKept(s, s');
  }

  lemma FailIs(s: State, req: Id, text: Text, eventId: Id)
    requires req in s.requests && s.requests[req].Refused?
    ensures var q := s.requests[req];
            Apply(s, Fail(req, text, eventId))
            == s.(db := if IsTerminalFailure(q.code)
                        then FailTx(s.db, q.snapshot.id, q.token, q.code, text, eventId).db else s.db,
                  requests := s.requests[req := Finished(q.snapshot.id, Err(q.code), None)])
  {
  }

  lemma FailKeeps(s: State, req: Id, text: Text, eventId: Id)
    requires Inv(s)
    ensures Inv(Apply(s, Fail(req, text, eventId)))
  {
    if req in s.requests && s.requests[req].Refused? {
      var q := s.requests[req];
      var t := FailTx(s.db, q.snapshot.id, q.token, q.code, text, eventId);
      var answered := s.requests[req := Finished(q.snapshot.id, Err(q.code), None)];
      FailIs(s, req, text, eventId);
      FailOutcome(s.db, q.snapshot.id, q.token, q.code, text, eventId);
      if t.db == s.db || !IsTerminalFailure(q.code) {
        NewOutcome(s, s.(requests := answered), req, Finished(q.snapshot.id, Err(q.code), None));
      } else {
        FailedKeeps(s, s.(db := t.db, requests := answered), req, t.db.sessions[q.snapshot.id], q.code, eventId);
      }
    }
  }
}
