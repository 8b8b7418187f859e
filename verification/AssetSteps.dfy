/** The steps that make, delete and collect files keep the invariant. */
module AssetSteps {
  import opened Base
  import opened Sessions
  import opened Database
  import opened Lifecycle
  import opened Invariant
  import opened SessionSteps

  // ---------------------------------------------------------------------------
  // Sums over sets of files

  lemma {:induction false} SumWithout(files: FileTable, ids: set<Id>, f: Id)
    requires ids <= files.Keys && f in ids
    ensures SumSizes(files, ids) == files[f].size + SumSizes(files, ids - {f})
    decreases |ids|
  {
    var g :| g in ids && SumSizes(files, ids) == files[g].size + SumSizes(files, ids - {g});
    if g != f {
      SumWithout(files, ids - {g}, f);
      SumWithout(files, ids - {f}, g);
      assert ids - {g} - {f} == ids - {f} - {g};
    }
  }

  lemma {:induction false} SumSameSizes(files: FileTable, files': FileTable, ids: set<Id>)
    requires ids <= files.Keys && ids <= files'.Keys
    requires forall f :: f in ids ==> files'[f].size == files[f].size
    ensures SumSizes(files', ids) == SumSizes(files, ids)
    decreases |ids|
  {
    if f :| f in ids {
      SumWithout(files, ids, f);
      SumWithout(files', ids, f);
      SumSameSizes(files, files', ids - {f});
    }
  }

  lemma {:induction false} SumNotNegative(files: FileTable, ids: set<Id>)
    requires ids <= files.Keys
    requires forall f :: f in ids ==> files[f].size >= 0
    ensures SumSizes(files, ids) >= 0
    decreases |ids|
  {
    if f :| f in ids {
      SumWithout(files, ids, f);
      SumNotNegative(files, ids - {f});
    }
  }

  // ---------------------------------------------------------------------------
  // Commit

  /** Everything a successful commit writes. */
  datatype Completion = Completion(
    sid: Id, session: SessionState, b: Id, row: Blob, fid: Id, file: FileAsset, eventId: Id)

  function Written(db: Db, c: Completion): Db {
    db.(sessions := db.sessions[c.sid := c.session],
        blobs := db.blobs[c.b := c.row],
        files := db.files[c.fid := c.file],
        usage := AddBytes(db.usage, c.file.tenant, c.file.size),
        outbox := db.outbox[c.eventId := SessionCompleted(c.sid, c.fid)])
  }

  /** The session part: an owned session becomes COMPLETED with the new file. */
  predicate CompletesSession(db: Db, c: Completion) {
    && c.sid in db.sessions
    && db.sessions[c.sid].status.Completing?
    && SameIdentity(db.sessions[c.sid], c.session)
    && RowOk(c.sid, c.session, db.now)
    && c.session.status.Completed? && c.session.fileId == Text(c.fid)
    && c.eventId !in db.outbox
  }

  /** The file part: a new ACTIVE file on the session's own object. */
  predicate AddsFile(files: FileTable, c: Completion) {
    && c.fid !in files
    && c.file.blob == c.b
    && c.file.status.Active? && c.file.deletedAt.None? && c.file.size > 0
    && AgreesWithSession(c.file, c.session)
    && AgreesWithBlob(c.file, c.row)
  }

  /** The blob part: a new blob, or a known one moved to the new object with the same content. */
  predicate WritesBlob(blobs: BlobTable, c: Completion) {
    && c.row.location == c.file.location
    && (forall other :: other in blobs && other != c.b ==> !Conflicts(c.row, blobs[other]))
    && (if c.b in blobs then
          && c.row.tenant == blobs[c.b].tenant
          && c.row.hash == blobs[c.b].hash
          && c.row.location.bucket == blobs[c.b].location.bucket
          && c.row.refCount == blobs[c.b].refCount + 1
        else c.row.refCount == 1)
  }

  function CompletionOf(db: Db, x: SessionState, mat: Materialized, blobId: Id, fid: Id, eventId: Id): Completion {
    var b := if mat.hit.Some? then mat.hit.value else blobId;
    var size := EffectiveSize(mat.size, x.sizeBytes);
    var row := UpsertedBlob(db.blobs, b, x.tenant, x.location, mat.hash, size, db.now);
    Completion(x.id, MarkCompleted(x.(completedParts := PartsAtCommit(x, mat.parts)), Text(fid), db.now).state,
               b, row.(refCount := row.refCount + 1), fid,
               FileAsset(x.tenant, b, size, Active, x.location, DigestOf(mat.hash), None), eventId)
  }

  lemma CompletedRowOk(x: SessionState, now: Time, parts: nat, fid: Id)
    requires RowOk(x.id, x, now) && now > 0 && UploadIdMatchesMode(x)
    ensures var done := MarkCompleted(x.(completedParts := PartsAtCommit(x, parts)), Text(fid), now);
            !x.status.Completed? && done.error.None? ==>
              && x.status.Completing?
              && RowOk(x.id, done.state, now) && SameIdentity(x, done.state)
              && done.state.status.Completed? && done.state.fileId == Text(fid)
  {
    if x.status.Completing? {
      ValidateAcceptsExactly(x.(completedParts := PartsAtCommit(x, parts), status := Completed, fileId := Text(fid),
                                completedAt := Some(now), updatedAt := now));
    }
  }

  /** CommitTx, written out: what it answers and what it writes. */
  lemma CommitWrites(db: Db, row: SessionState, token: Text, mat: Materialized, blobId: Id, fid: Id, eventId: Id)
    requires row.id in db.sessions && db.sessions[row.id] == row
    requires ReadSession(db, row.id).Ok? ==> ReadSession(db, row.id).value == row
    ensures var t := CommitTx(db, row.id, token, mat, blobId, fid, eventId);
            var c := CompletionOf(db, row, mat, blobId, fid, eventId);
            && (t.result.Err? || row.status.Completed? ==> t.db == db)
            && (t.result.Ok? && row.status.Completed? ==> row.fileId == Text(t.result.value))
            && (t.result.Ok? && !row.status.Completed? ==>
                  && t == Tx(Written(db, c), Ok(fid)) && token == row.completionToken
                  && fid !in db.files && eventId !in db.outbox && ReadSession(db, row.id).Ok?
                  && !UpsertRejected(db.blobs, c.b, c.row.(refCount := c.row.refCount - 1))
                  && MarkCompleted(row.(completedParts := PartsAtCommit(row, mat.parts)), Text(fid),
                                   db.now).error.None?)
  {
  }

  lemma CommitAddsFile(db: Db, row: SessionState, mat: Materialized, blobId: Id, fid: Id, eventId: Id)
    requires RowOk(row.id, row, db.now) && HitOk(db.blobs, row, mat) && (row.hash.Some? ==> mat.hash == row.hash)
    requires fid !in db.files && blobId !in db.blobs
    requires SameIdentity(row, CompletionOf(db, row, mat, blobId, fid, eventId).session)
    ensures AddsFile(db.files, CompletionOf(db, row, mat, blobId, fid, eventId))
  {
  }

  lemma CommitWritesBlob(db: Db, row: SessionState, mat: Materialized, blobId: Id, fid: Id, eventId: Id)
    requires HitOk(db.blobs, row, mat) && blobId !in db.blobs
    requires var c := CompletionOf(db, row, mat, blobId, fid, eventId);
             !UpsertRejected(db.blobs, c.b, c.row.(refCount := c.row.refCount - 1))
    ensures WritesBlob(db.blobs, CompletionOf(db, row, mat, blobId, fid, eventId))
  {
    var c := CompletionOf(db, row, mat, blobId, fid, eventId);
    forall other | other in db.blobs && other != c.b ensures !Conflicts(c.row, db.blobs[other]) {
      assert !Conflicts(c.row.(refCount := c.row.refCount - 1), db.blobs[other]);
    }
  }

  /** A commit either leaves the tables alone or completes the session whose token it holds. */
  lemma CommitOutcome(db: Db, x: SessionState, token: Text, mat: Materialized, blobId: Id, fid: Id, eventId: Id)
    requires Rows(db) && Files(db.sessions, db.blobs, db.files) && Identified(db, x) && HitOk(db.blobs, x, mat)
    requires x.hash.Some? ==> mat.hash == x.hash
    requires blobId !in db.blobs
    ensures var t := CommitTx(db, x.id, token, mat, blobId, fid, eventId);
            var c := CompletionOf(db, db.sessions[x.id], mat, blobId, fid, eventId);
            || (t.db == db && RequestOk(db, Finished(x.id, t.result, None)))
            || (&& t == Tx(Written(db, c), Ok(fid))
                && token == db.sessions[x.id].completionToken
                && CompletesSession(db, c) && AddsFile(db.files, c) && WritesBlob(db.blobs, c))
  {
    ReadIsTheRow(db, x.id);
    var row := db.sessions[x.id];
    assert RowOk(x.id, row, db.now);
    CommitWrites(db, row, token, mat, blobId, fid, eventId);
    if row.status.Completed? {
      assert CompletedFile(db.files, row);
    } else if CommitTx(db, x.id, token, mat, blobId, fid, eventId).result.Ok? {
      CompletedRowOk(row, db.now, mat.parts, fid);
      CommitAddsFile(db, row, mat, blobId, fid, eventId);
      CommitWritesBlob(db, row, mat, blobId, fid, eventId);
    }
  }

  /** A session that can still be completed has no file. */
  lemma NothingYet(db: Db, sid: Id)
    requires Rows(db) && Files(db.sessions, db.blobs, db.files)
    requires sid in db.sessions && !Terminal(db.sessions[sid].status)
    ensures forall f :: f in db.files ==> db.files[f].location.key.session != sid
    ensures !HasFile(db.files, db.sessions[sid].location)
  {
    assert RowOk(sid, db.sessions[sid], db.now);
    forall f | f in db.files ensures db.files[f].location.key.session != sid {
      assert FileOk(db.sessions, db.blobs, db.files[f]);
    }
  }

  lemma CommitFiles(db: Db, c: Completion)
    requires Files(db.sessions, db.blobs, db.files)
    requires CompletesSession(db, c) && AddsFile(db.files, c) && WritesBlob(db.blobs, c)
    ensures var db' := Written(db, c); Files(db'.sessions, db'.blobs, db'.files)
  {
    var db' := Written(db, c);
    assert c.session.location.key.session == c.sid;
    forall f | f in db'.files ensures FileOk(db'.sessions, db'.blobs, db'.files[f]) {
      if f != c.fid { assert FileOk(db.sessions, db.blobs, db.files[f]); }
    }
    forall t | t in db'.sessions && db'.sessions[t].status.Completed?
      ensures CompletedFile(db'.files, db'.sessions[t])
    {
      if t != c.sid { assert CompletedFile(db.files, db.sessions[t]); }
    }
  }

  lemma CommitOneFile(files: FileTable, c: Completion)
    requires OneFilePerObject(files) && c.fid !in files && !HasFile(files, c.file.location)
    ensures OneFilePerObject(files[c.fid := c.file])
  {
  }

  lemma CommitExtends(db: Db, c: Completion)
    requires CompletesSession(db, c) && AddsFile(db.files, c) && WritesBlob(db.blobs, c)
    ensures Extends(db, Written(db, c))
  {
  }

  lemma StillAnchored(files: FileTable, files': FileTable, b: Id, o: ObjectRef)
    requires Anchored(files, b, o) && SameObjects(files, files')
    ensures Anchored(files', b, o)
  {
    var f :| f in files && files[f].blob == b && files[f].location == o;
    assert f in files' && files'[f].blob == b && files'[f].location == o;
  }

  lemma StillHasFile(files: FileTable, files': FileTable, o: ObjectRef)
    requires HasFile(files, o) && SameObjects(files, files')
    ensures HasFile(files', o)
  {
    var f :| f in files && files[f].location == o;
    assert f in files' && files'[f].location == o;
  }

  /** No file is lost or moved. */
  predicate SameObjects(files: FileTable, files': FileTable) {
    forall f :: f in files ==> f in files' && files'[f].blob == files[f].blob && files'[f].location == files[f].location
  }

  lemma CommitBlobs(files: FileTable, blobs: BlobTable, c: Completion)
    requires Blobs(files, blobs) && AddsFile(files, c) && WritesBlob(blobs, c)
    ensures Blobs(files[c.fid := c.file], blobs[c.b := c.row])
  {
    var files', blobs' := files[c.fid := c.file], blobs[c.b := c.row];
    forall b | b in blobs' ensures Anchored(files', b, blobs'[b].location) {
      if b == c.b {
        assert files'[c.fid].blob == b && files'[c.fid].location == blobs'[b].location;
      } else {
        StillAnchored(files, files', b, blobs[b].location);
      }
    }
    forall b, d | b in blobs' && d in blobs' && b != d ensures !Conflicts(blobs'[b], blobs'[d]) {
      if b == c.b {
        assert !Conflicts(c.row, blobs[d]);
      } else if d == c.b {
        assert !Conflicts(c.row, blobs[b]);
      } else {
        assert !Conflicts(blobs[b], blobs[d]);
      }
    }
  }

  lemma NoFilesOn(db: Db, b: Id)
    requires Files(db.sessions, db.blobs, db.files) && b !in db.blobs
    ensures ActiveOn(db.files, b) == {}
  {
    forall f | f in db.files ensures db.files[f].blob != b { assert FileOk(db.sessions, db.blobs, db.files[f]); }
  }

  lemma ActiveOnAdded(files: FileTable, fid: Id, file: FileAsset, b: Id)
    requires fid !in files && file.status.Active?
    ensures |ActiveOn(files[fid := file], b)| == |ActiveOn(files, b)| + if file.blob == b then 1 else 0
  {
    if file.blob == b {
      assert ActiveOn(files[fid := file], b) == ActiveOn(files, b) + {fid};
    } else {
      assert ActiveOn(files[fid := file], b) == ActiveOn(files, b);
    }
  }

  lemma CommitRefCounts(files: FileTable, blobs: BlobTable, c: Completion)
    requires RefCounts(files, blobs) && AddsFile(files, c) && WritesBlob(blobs, c)
    requires c.b !in blobs ==> ActiveOn(files, c.b) == {}
    ensures RefCounts(files[c.fid := c.file], blobs[c.b := c.row])
  {
    var files', blobs' := files[c.fid := c.file], blobs[c.b := c.row];
    forall b | b in blobs' ensures blobs'[b].refCount == |ActiveOn(files', b)| {
      ActiveOnAdded(files, c.fid, c.file, b);
    }
  }

  lemma SumAdded(files: FileTable, fid: Id, file: FileAsset, t: Id)
    requires fid !in files && file.status.Active?
    ensures var files' := files[fid := file];
            && SumSizes(files', ActiveOf(files', t))
               == SumSizes(files, ActiveOf(files, t)) + (if file.tenant == t then file.size else 0)
            && |ActiveOf(files', t)| >= |ActiveOf(files, t)|
  {
    var files' := files[fid := file];
    var before, after := ActiveOf(files, t), ActiveOf(files', t);
    SumSameSizes(files, files', before);
    if t == file.tenant {
      assert after == before + {fid};
      SumWithout(files', after, fid);
      assert after - {fid} == before;
    } else {
      assert after == before;
    }
  }

  lemma CommitUsages(files: FileTable, usage: UsageTable, c: Completion)
    requires Usages(files, usage) && AddsFile(files, c)
    ensures Usages(files[c.fid := c.file], AddBytes(usage, c.file.tenant, c.file.size))
  {
    forall t | t in usage { SumAdded(files, c.fid, c.file, t); }
  }

  lemma CommitStorage(files: FileTable, gone: set<ObjectRef>, c: Completion)
    requires StorageSafe(files, gone) && c.fid !in files && !HasFile(files, c.file.location)
    ensures StorageSafe(files[c.fid := c.file], gone)
  {
    forall o | o in gone ensures HasFile(files[c.fid := c.file], o) {
      StillHasFile(files, files[c.fid := c.file], o);
    }
  }

  /** Events are only ever added. */
  predicate Grows(outbox: EventTable, outbox': EventTable) {
    forall id :: id in outbox ==> id in outbox' && outbox'[id] == outbox[id]
  }

  lemma StillAnnounced(outbox: EventTable, outbox': EventTable, e: Event)
    requires Announced(outbox, e) && Grows(outbox, outbox')
    ensures Announced(outbox', e)
  {
    var id :| id in outbox && outbox[id] == e;
    assert id in outbox' && outbox'[id] == e;
  }

  lemma CommitEvents(db: Db, c: Completion)
    requires Events(db.files, db.outbox) && CompletesSession(db, c) && AddsFile(db.files, c)
    ensures var db' := Written(db, c); Events(db'.files, db'.outbox)
  {
    var db' := Written(db, c);
    assert c.file.location.key.session == c.sid;
    forall e | e in db'.outbox ensures EventOk(db'.files, db'.outbox[e]) {
      if e != c.eventId { assert EventOk(db.files, db.outbox[e]); }
    }
    forall f | f in db'.files ensures Announced(db'.outbox, SessionCompleted(db'.files[f].location.key.session, f)) {
      if f == c.fid {
        assert db'.outbox[c.eventId] == SessionCompleted(c.sid, c.fid);
      } else {
        StillAnnounced(db.outbox, db'.outbox, SessionCompleted(db.files[f].location.key.session, f));
      }
    }
  }

  lemma CommitDeletions(files: FileTable, outbox: EventTable, audits: AuditTable, c: Completion)
    requires Deletions(files, outbox, audits) && c.eventId !in outbox && AddsFile(files, c)
    ensures Deletions(files[c.fid := c.file], outbox[c.eventId := SessionCompleted(c.sid, c.fid)], audits)
  {
    var files', outbox' := files[c.fid := c.file], outbox[c.eventId := SessionCompleted(c.sid, c.fid)];
    forall f | f in files' && files'[f].status.Deleted?
      ensures Announced(outbox', DeleteRequested(f)) && Audited(audits, f)
    {
      StillAnnounced(outbox, outbox', DeleteRequested(f));
    }
  }

  lemma CommitRows(db: Db, c: Completion)
    requires Rows(db) && CompletesSession(db, c)
    ensures Rows(Written(db, c))
  {
  }

  lemma CommitAssets(db: Db, c: Completion)
    requires Rows(db) && Assets(db) && CompletesSession(db, c) && AddsFile(db.files, c) && WritesBlob(db.blobs, c)
    ensures Assets(Written(db, c))
  {
    NothingYet(db, c.sid);
    assert c.file.location == db.sessions[c.sid].location;
    if c.b !in db.blobs { NoFilesOn(db, c.b); }
    CommitFiles(db, c);
    CommitOneFile(db.files, c);
    CommitBlobs(db.files, db.blobs, c);
    CommitRefCounts(db.files, db.blobs, c);
    CommitUsages(db.files, db.usage, c);
    CommitStorage(db.files, db.gone, c);
    CommitEvents(db, c);
    CommitDeletions(db.files, db.outbox, db.audits, c);
  }

  lemma CommitKeeps(s: State, req: Id, blobId: Id, fid: Id, eventId: Id)
    requires Inv(s)
    ensures Inv(Apply(s, Commit(req, blobId, fid, eventId)))
  {
    var s' := Apply(s, Commit(req, blobId, fid, eventId));
    if req in s.requests && s.requests[req].Prepared? && blobId !in s.db.blobs {
      var q := s.requests[req];
      assert RequestOk(s.db, q);
      CommitOutcome(s.db, q.snapshot, q.token, q.mat, blobId, fid, eventId);
      var t := CommitTx(s.db, q.snapshot.id, q.token, q.mat, blobId, fid, eventId);
      if t.db == s.db && RequestOk(s.db, Finished(q.snapshot.id, t.result, None)) {
        NewOutcome(s, s', req, Finished(q.snapshot.id, t.result, None));
      } else {
        assert fid !in s.db.files && fid in t.db.files;
        var c := CompletionOf(s.db, s.db.sessions[q.snapshot.id], q.mat, blobId, fid, eventId);
        CommittedKeeps(s, s', req, c, q.declared);
      }
    }
  }

  /** A request moves on and nothing else changes. */
  lemma NewOutcome(s: State, s': State, req: Id, q: Request)
    requires Inv(s) && RequestOk(s.db, q) && s' == s.(requests := s.requests[req := q])
    ensures Inv(s')
  {
    assert s'.db == s.db;
    assert Copies(s') && Requests(s');
  }

  lemma CommittedKeeps(s: State, s': State, req: Id, c: Completion, declared: Option<ContentHash>)
    requires Inv(s) && CompletesSession(s.db, c) && AddsFile(s.db.files, c) && WritesBlob(s.db.blobs, c)
    requires declared.Some? ==> c.file.hash == DigestOf(declared)
    requires s' == s.(db := Written(s.db, c), requests := s.requests[req := Finished(c.sid, Ok(c.fid), declared)])
    ensures Inv(s')
  {
    CommitRows(s.db, c);
    CommitAssets(s.db, c);
    CommitExtends(s.db, c);
    assert RequestOk(s'.db, Finished(c.sid, Ok(c.fid), declared));
    CopiesKept(s, s');
    RequestsKept(s, s');
  }
}
