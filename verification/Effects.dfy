/** What every step does to the tables, field by field, in every reachable state. */
module Effects {
  import opened Base
  import opened Sessions
  import opened Hashes
  import opened Database
  import opened Lifecycle
  import opened Invariant
  import opened SessionSteps
  import opened GarbageSteps
  import opened Safety

  // ---------------------------------------------------------------------------
  // Beginning a completion

  /** A row can be read: only the cleanup of multipart uploads makes one unreadable. */
  predicate Readable(x: SessionState) {
    !(x.mode.Direct? && x.providerUploadId.Blank?)
  }

  lemma ReadsTheRow(db: Db, sid: Id)
    requires Rows(db) && sid in db.sessions
    ensures ReadSession(db, sid)
         == if Readable(db.sessions[sid]) then Ok(db.sessions[sid]) else Err(ServiceUnavailable)
  {
    ReadIsTheRow(db, sid);
    assert RowOk(sid, db.sessions[sid], db.now);
  }

  /** An open session becomes COMPLETING under the caller's token, and the caller goes on with that row. */
  lemma BeginOnOpenSession(s: State, r: Id, sid: Id, token: Text, declared: Option<ContentHash>)
    requires Reachable(s) && r !in s.requests && sid in s.db.sessions && !token.Blank?
    requires s.db.sessions[sid].status.Initiated? || s.db.sessions[sid].status.Uploading?
    ensures var x := s.db.sessions[sid];
            var y := x.(status := Completing, completionToken := token, completionStartedAt := Some(s.db.now),
                        updatedAt := s.db.now);
            Apply(s, BeginCompletion(r, sid, token, declared))
            == s.(db := s.db.(sessions := s.db.sessions[sid := y]),
                  requests := s.requests[r := Owned(y, token, declared)])
  {
    ReachableInv(s);
    BeginOpenTx(s.db, sid, token);
  }

  lemma BeginOpenTx(db: Db, sid: Id, token: Text)
    requires Rows(db) && sid in db.sessions && !token.Blank?
    requires db.sessions[sid].status.Initiated? || db.sessions[sid].status.Uploading?
    ensures var y := db.sessions[sid].(status := Completing, completionToken := token,
                                       completionStartedAt := Some(db.now), updatedAt := db.now);
            AcquireTx(db, sid, token) == Tx(db.(sessions := db.sessions[sid := y]), Ok(Acquisition(y, Acquired)))
  {
    ReadsTheRow(db, sid);
    assert RowOk(sid, db.sessions[sid], db.now);
  }

  /** While a session is COMPLETING its owner may come back, and anybody else is told to wait. */
  lemma BeginOnCompletingSession(s: State, r: Id, sid: Id, token: Text, declared: Option<ContentHash>)
    requires Reachable(s) && r !in s.requests && sid in s.db.sessions && !token.Blank?
    requires s.db.sessions[sid].status.Completing?
    ensures Apply(s, BeginCompletion(r, sid, token, declared))
         == s.(requests := s.requests[r := if s.db.sessions[sid].completionToken == token
                                           then Owned(s.db.sessions[sid], token, declared)
                                           else Finished(sid, Err(CompleteInProgress), None)])
  {
    ReachableInv(s);
    BeginCompletingTx(s.db, sid, token);
  }

  lemma BeginCompletingTx(db: Db, sid: Id, token: Text)
    requires Rows(db) && sid in db.sessions && !token.Blank? && db.sessions[sid].status.Completing?
    ensures var x := db.sessions[sid];
            AcquireTx(db, sid, token)
            == Tx(db, Ok(Acquisition(x, if x.completionToken == token then HeldByCaller else HeldByAnother)))
  {
    ReadsTheRow(db, sid);
    assert RowOk(sid, db.sessions[sid], db.now);
  }

  /** An ended or unknown session, or a missing token, is refused with the reason. */
  lemma BeginRefused(s: State, r: Id, sid: Id, token: Text, declared: Option<ContentHash>)
    requires Reachable(s) && r !in s.requests
    requires sid in s.db.sessions ==>
      var status := s.db.sessions[sid].status;
      token.Blank? || status.Aborted? || status.Expired? || status.Failed?
    ensures var code := if sid !in s.db.sessions then SessionNotFound
                        else if !Readable(s.db.sessions[sid]) then ServiceUnavailable
                        else if token.Blank? then CompletionOwnershipInvalid else SessionStateConflict;
            Apply(s, BeginCompletion(r, sid, token, declared))
            == s.(requests := s.requests[r := Finished(sid, Err(code), None)])
  {
    ReachableInv(s);
    if sid in s.db.sessions { ReadsTheRow(s.db, sid); }
    BeginRefusedTx(s.db, sid, token);
  }

  lemma BeginRefusedTx(db: Db, sid: Id, token: Text)
    requires db.now > 0
    requires sid in db.sessions ==> ReadSession(db, sid).Ok? ==> ReadSession(db, sid).value == db.sessions[sid]
    requires sid in db.sessions ==>
      var status := db.sessions[sid].status;
      token.Blank? || status.Aborted? || status.Expired? || status.Failed?
    ensures AcquireTx(db, sid, token)
         == Tx(db, Err(if ReadSession(db, sid).Err? then ReadSession(db, sid).code
                       else if token.Blank? then CompletionOwnershipInvalid else SessionStateConflict))
  {
  }

  // ---------------------------------------------------------------------------
  // Preparing

  /** A completion goes on with the size storage reported and the parts it listed, or is refused. */
  lemma PrepareRecordsStorage(s: State, r: Id, env: Storage)
    requires r in s.requests && s.requests[r].Owned?
    ensures var q, s' := s.requests[r], Apply(s, Prepare(r, env));
            && s' == s.(requests := s.requests[r := s'.requests[r]])
            && (|| (s'.requests[r].Refused?
                    && s'.requests[r] == Refused(q.snapshot, q.token, s'.requests[r].code))
                || (s'.requests[r].Prepared?
                    && s'.requests[r] == Prepared(q.snapshot, q.token, q.declared, s'.requests[r].mat)
                    && s'.requests[r].mat.size == env.size
                    && s'.requests[r].mat.parts == if q.snapshot.mode.Direct? then |env.providerParts| else 0))
  {
  }

  // ---------------------------------------------------------------------------
  // Committing

  /**
    * The tables after an upload was filed: the size is what storage reported, or else what the session declared; a
    * blob that was hit is moved to the session's object; the tenant's bytes grow by the size and its count does not.
    */
  function Filing(db: Db, x: SessionState, mat: Materialized, c: Id, f: Id, e: Id): Db
    requires x.tenant in db.usage
  {
    var size := if mat.size > 0 then mat.size else x.sizeBytes;
    var used := db.usage[x.tenant];
    db.(sessions := db.sessions[x.id :=
          x.(status := Completed, fileId := Text(f), completedAt := Some(db.now), updatedAt := db.now,
             completedParts := if mat.parts > 0 then mat.parts else x.totalParts)],
        blobs := db.blobs[c :=
          if c in db.blobs
          then db.blobs[c].(location := x.location, hash := mat.hash, size := size,
                            refCount := db.blobs[c].refCount + 1, updatedAt := db.now)
          else Blob(x.tenant, x.location, mat.hash, size, 1, db.now, None)],
        files := db.files[f :=
          FileAsset(x.tenant, c, size, Active, x.location,
                    if mat.hash.Some? then Some(mat.hash.value.digest) else None, None)],
        usage := db.usage[x.tenant := Usage(used.bytes + size, used.count)],
        outbox := db.outbox[e := SessionCompleted(x.id, f)])
  }

  /** Another blob of the tenant is at the object, or has the same content in the same bucket. */
  predicate Taken(db: Db, x: SessionState, hash: Option<ContentHash>, c: Id) {
    exists o :: o in db.blobs && o != c && db.blobs[o].tenant == x.tenant
                && (|| db.blobs[o].location == x.location
                    || (hash.Some? && db.blobs[o].location.bucket == x.location.bucket && db.blobs[o].hash == hash))
  }

  lemma TakenIsRejected(db: Db, x: SessionState, mat: Materialized, c: Id, size: int)
    requires HitOk(db.blobs, x, mat) && (c in db.blobs ==> mat.hit == Some(c))
    ensures UpsertRejected(db.blobs, c, UpsertedBlob(db.blobs, c, x.tenant, x.location, mat.hash, size, db.now))
       <==> Taken(db, x, mat.hash, c)
  {
    var row := UpsertedBlob(db.blobs, c, x.tenant, x.location, mat.hash, size, db.now);
    assert row.tenant == x.tenant && row.location == x.location && row.hash == mat.hash;
    forall o | o in db.blobs
      ensures Conflicts(row, db.blobs[o]) <==>
              && db.blobs[o].tenant == x.tenant
              && (|| db.blobs[o].location == x.location
                  || (mat.hash.Some? && db.blobs[o].location.bucket == x.location.bucket
                      && db.blobs[o].hash == mat.hash))
    {
    }
  }

  lemma CommittedRow(x: SessionState, parts: nat, f: Id, now: Time)
    requires RowOk(x.id, x, now) && now > 0 && Readable(x) && !x.status.Completed?
    ensures var done := MarkCompleted(x.(completedParts := PartsAtCommit(x, parts)), Text(f), now);
            done.error.None? <==> x.status.Completing? && parts <= x.totalParts
    ensures var done := MarkCompleted(x.(completedParts := PartsAtCommit(x, parts)), Text(f), now);
            done.error.Some? ==>
              done.error == Some(if x.status.Completing? then SessionInvalid else SessionStateConflict)
    ensures var done := MarkCompleted(x.(completedParts := PartsAtCommit(x, parts)), Text(f), now);
            done.error.None? ==>
              done.state == x.(status := Completed, fileId := Text(f), completedAt := Some(now), updatedAt := now,
                               completedParts := if parts > 0 then parts else x.totalParts)
  {
    ValidateAcceptsExactly(x.(completedParts := PartsAtCommit(x, parts), status := Completed, fileId := Text(f),
                              completedAt := Some(now), updatedAt := now));
  }

  /** The owner of a COMPLETING session files its upload exactly when nothing is in the way. */
  lemma CommitTxExactly(db: Db, x: SessionState, mat: Materialized, b: Id, f: Id, e: Id)
    requires Rows(db) && x.id in db.sessions && db.sessions[x.id] == x && x.status.Completing?
    requires HitOk(db.blobs, x, mat) && b !in db.blobs && x.tenant in db.usage
    ensures var c := if mat.hit.Some? then mat.hit.value else b;
            var t := CommitTx(db, x.id, x.completionToken, mat, b, f, e);
            if mat.parts <= x.totalParts && f !in db.files && e !in db.outbox && !Taken(db, x, mat.hash, c)
            then t == Tx(Filing(db, x, mat, c, f, e), Ok(f))
            else t == Tx(db, Err(if mat.parts > x.totalParts && f !in db.files && !Taken(db, x, mat.hash, c)
                                 then SessionInvalid else ServiceUnavailable))
  {
    var c := if mat.hit.Some? then mat.hit.value else b;
    ReadsTheRow(db, x.id);
    assert RowOk(x.id, x, db.now);
    CommittedRow(x, mat.parts, f, db.now);
    TakenIsRejected(db, x, mat, c, EffectiveSize(mat.size, x.sizeBytes));
  }

  lemma CommitTxRefused(db: Db, x: SessionState, token: Text, mat: Materialized, b: Id, f: Id, e: Id)
    requires Rows(db) && x.id in db.sessions && db.sessions[x.id] == x
    requires x.completionToken != token || x.status.Aborted? || x.status.Expired? || x.status.Failed?
    ensures var t := CommitTx(db, x.id, token, mat, b, f, e);
            t.db == db && t.result.Err? && (x.completionToken != token ==> t.result.code == SessionNotFound)
  {
    ReadsTheRow(db, x.id);
  }

  lemma CommitRuns(s: State, r: Id, b: Id, f: Id, e: Id)
    requires r in s.requests && s.requests[r].Prepared? && b !in s.db.blobs
    ensures var q, s' := s.requests[r], Apply(s, Commit(r, b, f, e));
            var t := CommitTx(s.db, q.snapshot.id, q.token, q.mat, b, f, e);
            && s'.db == t.db && s'.aborts == s.aborts && s'.uploads == s.uploads
            && s'.requests.Keys == s.requests.Keys && s'.requests[r].Finished? && s'.requests[r].result == t.result
            && forall o :: o in s.requests && o != r ==> s'.requests[o] == s.requests[o]
  {
  }

  /**
    * In every reachable state a commit under the token of a COMPLETING session files the upload exactly when the part
    * count fits, the ids are new and no other blob is in the way; otherwise it is an error and changes nothing.
    */
  lemma CommitsExactly(s: State, r: Id, b: Id, f: Id, e: Id)
    requires Reachable(s) && r in s.requests && s.requests[r].Prepared? && b !in s.db.blobs
    requires s.requests[r].snapshot.id in s.db.sessions
    requires var x := s.db.sessions[s.requests[r].snapshot.id];
             x.status.Completing? && x.completionToken == s.requests[r].token
    ensures var x, mat := s.db.sessions[s.requests[r].snapshot.id], s.requests[r].mat;
            var c := if mat.hit.Some? then mat.hit.value else b;
            var s' := Apply(s, Commit(r, b, f, e));
            && x.tenant in s.db.usage && s'.requests[r].Finished?
            && if mat.parts <= x.totalParts && f !in s.db.files && e !in s.db.outbox && !Taken(s.db, x, mat.hash, c)
               then s'.db == Filing(s.db, x, mat, c, f, e) && s'.requests[r].result == Ok(f)
               else
                 && s'.db == s.db
                 && s'.requests[r].result
                    == Err(if mat.parts > x.totalParts && f !in s.db.files && !Taken(s.db, x, mat.hash, c)
                           then SessionInvalid else ServiceUnavailable)
  {
    ReachableInv(s);
    var q := s.requests[r];
    var x := s.db.sessions[q.snapshot.id];
    assert RequestOk(s.db, q) && RowOk(q.snapshot.id, x, s.db.now);
    CommitRuns(s, r, b, f, e);
    CommitTxExactly(s.db, x, q.mat, b, f, e);
  }

  /** Under another token, or once the session has ended, it is an error and changes nothing. */
  lemma CommitRefusedExactly(s: State, r: Id, b: Id, f: Id, e: Id)
    requires Reachable(s) && r in s.requests && s.requests[r].Prepared? && b !in s.db.blobs
    requires s.requests[r].snapshot.id in s.db.sessions
    requires var x := s.db.sessions[s.requests[r].snapshot.id];
             x.completionToken != s.requests[r].token || x.status.Aborted? || x.status.Expired? || x.status.Failed?
    ensures var s' := Apply(s, Commit(r, b, f, e));
            && s'.db == s.db && s'.requests[r].Finished? && s'.requests[r].result.Err?
            && (s.db.sessions[s.requests[r].snapshot.id].completionToken != s.requests[r].token ==>
                  s'.requests[r].result.code == SessionNotFound)
  {
    ReachableInv(s);
    var q := s.requests[r];
    assert RowOk(q.snapshot.id, s.db.sessions[q.snapshot.id], s.db.now);
    CommitRuns(s, r, b, f, e);
    CommitTxRefused(s.db, s.db.sessions[q.snapshot.id], q.token, q.mat, b, f, e);
  }

  /** Under the token of a session that is COMPLETED by now, it is answered with the file of that session. */
  lemma CommitOfCompleted(s: State, r: Id, b: Id, f: Id, e: Id)
    requires Reachable(s) && r in s.requests && s.requests[r].Prepared? && b !in s.db.blobs
    requires s.requests[r].snapshot.id in s.db.sessions && !s.requests[r].token.Blank?
    requires var x := s.db.sessions[s.requests[r].snapshot.id];
             x.status.Completed? && x.completionToken == s.requests[r].token
    ensures var x, s' := s.db.sessions[s.requests[r].snapshot.id], Apply(s, Commit(r, b, f, e));
            s'.db == s.db && x.fileId.Text? && s'.requests[r].Finished? && s'.requests[r].result == Ok(x.fileId.n)
  {
    ReachableInv(s);
    var q := s.requests[r];
    assert RowOk(q.snapshot.id, s.db.sessions[q.snapshot.id], s.db.now);
    CommitRuns(s, r, b, f, e);
    CommitTxOfCompleted(s.db, s.db.sessions[q.snapshot.id], q.mat, b, f, e);
  }

  lemma CommitTxOfCompleted(db: Db, x: SessionState, mat: Materialized, b: Id, f: Id, e: Id)
    requires Rows(db) && x.id in db.sessions && db.sessions[x.id] == x && x.status.Completed?
    requires !x.completionToken.Blank?
    ensures x.fileId.Text? && CommitTx(db, x.id, x.completionToken, mat, b, f, e) == Tx(db, Ok(x.fileId.n))
  {
    ReadsTheRow(db, x.id);
    assert RowOk(x.id, x, db.now);
  }

  // ---------------------------------------------------------------------------
  // Failing

  /** The row of a completion that failed for good. */
  function FailedAs(x: SessionState, code: Text, text: Text, now: Time): SessionState {
    x.(status := Failed, failureCode := code, failureMessage := text, failedAt := Some(now), updatedAt := now)
  }

  lemma FailTxExactly(db: Db, x: SessionState, token: Text, code: ErrorCode, text: Text, e: Id)
    requires Rows(db) && x.id in db.sessions && db.sessions[x.id] == x && !token.Blank?
    ensures FailTx(db, x.id, token, code, text, e).db
         == if x.status.Completing? && x.completionToken == token && !text.Blank? && e !in db.outbox
            then db.(sessions := db.sessions[x.id := FailedAs(x, CodeText(code), text, db.now)],
                     outbox := db.outbox[e := SessionFailed(x.id, code)])
            else db
  {
    ReadsTheRow(db, x.id);
    assert RowOk(x.id, x, db.now);
    ValidateAcceptsExactly(FailedAs(x, CodeText(code), text, db.now));
  }

  /**
    * A refused completion is answered with its reason. The session fails with it exactly when the reason is one of the
    * five terminal ones and the session is still COMPLETING under the token; one event says so.
    */
  lemma FailsExactly(s: State, r: Id, text: Text, e: Id)
    requires Reachable(s) && r in s.requests && s.requests[r].Refused? && !s.requests[r].token.Blank?
    requires s.requests[r].snapshot.id in s.db.sessions
    ensures var q := s.requests[r];
            var x, code := s.db.sessions[q.snapshot.id], q.code;
            var terminal := code.HashMismatch? || code.HashUnsupported? || code.HashInvalid?
                            || code.MultipartNotFound? || code.MultipartConflict?;
            Apply(s, Fail(r, text, e))
            == s.(requests := s.requests[r := Finished(q.snapshot.id, Err(code), None)],
                  db := if terminal && x.status.Completing? && x.completionToken == q.token && !text.Blank?
                           && e !in s.db.outbox
                        then s.db.(sessions := s.db.sessions[q.snapshot.id :=
                                     FailedAs(x, CodeText(code), text, s.db.now)],
                                   outbox := s.db.outbox[e := SessionFailed(q.snapshot.id, code)])
                        else s.db)
  {
    ReachableInv(s);
    var q := s.requests[r];
    assert RowOk(q.snapshot.id, s.db.sessions[q.snapshot.id], s.db.now);
    FailIs(s, r, text, e);
    FailTxExactly(s.db, s.db.sessions[q.snapshot.id], q.token, q.code, text, e);
  }

  /** The stored failure code tells the terminal reasons apart. */
  lemma CodesAreDistinct(a: ErrorCode, b: ErrorCode)
    requires IsTerminalFailure(a) && IsTerminalFailure(b)
    ensures !CodeText(a).Blank? && CodeText(a) != REPAIR_TEXT && (CodeText(a) == CodeText(b) <==> a == b)
  {
  }

  // ---------------------------------------------------------------------------
  // Deleting

  /**
    * Deleting an ACTIVE file marks it, takes one reference from its blob and its size from the tenant's bytes, neither
    * of which is ever clamped, lowers a positive file count by one, and leaves one audit entry and one event.
    */
  lemma DeletesExactly(s: State, f: Id, audit: Id, e: Id)
    requires Reachable(s) && f in s.db.files && s.db.files[f].status.Active?
    requires audit !in s.db.audits && e !in s.db.outbox
    ensures var file := s.db.files[f];
            && file.blob in s.db.blobs && file.tenant in s.db.usage
            && s.db.blobs[file.blob].refCount >= 1 && s.db.usage[file.tenant].bytes >= file.size
            && var blob, used := s.db.blobs[file.blob], s.db.usage[file.tenant];
               Apply(s, DeleteFile(f, audit, e))
               == s.(db := s.db.(
                       files := s.db.files[f := file.(status := Deleted, deletedAt := Some(s.db.now))],
                       blobs := s.db.blobs[file.blob := blob.(refCount := blob.refCount - 1, updatedAt := s.db.now)],
                       usage := s.db.usage[file.tenant := Usage(used.bytes - file.size,
                                                                if used.count > 0 then used.count - 1 else 0)],
                       audits := s.db.audits[audit := f],
                       outbox := s.db.outbox[e := DeleteRequested(f)]))
  {
    ReachableInv(s);
    NothingIsClamped(s.db, f);
    DeleteRuns(s, f, audit, e);
  }

  lemma NothingIsClamped(db: Db, f: Id)
    requires Rows(db) && Assets(db) && f in db.files && db.files[f].status.Active?
    ensures var file := db.files[f];
            && file.blob in db.blobs && file.tenant in db.usage
            && db.blobs[file.blob].refCount >= 1 && db.usage[file.tenant].bytes >= file.size
  {
    var file := db.files[f].(status := Deleted, deletedAt := Some(db.now));
    assert FileOk(db.sessions, db.blobs, db.files[f]);
    NotYetRequested(db, f);
    DeleteBlobs(db.files, db.blobs, f, file, db.now);
    DeleteUsages(db.files, db.usage, f, file);
  }

  lemma DeleteRuns(s: State, f: Id, audit: Id, e: Id)
    requires f in s.db.files && s.db.files[f].status.Active? && audit !in s.db.audits && e !in s.db.outbox
    requires s.db.files[f].blob in s.db.blobs && s.db.files[f].tenant in s.db.usage
    requires s.db.blobs[s.db.files[f].blob].refCount >= 1
    requires s.db.usage[s.db.files[f].tenant].bytes >= s.db.files[f].size
    ensures var file := s.db.files[f];
            var blob, used := s.db.blobs[file.blob], s.db.usage[file.tenant];
            Apply(s, DeleteFile(f, audit, e))
            == s.(db := s.db.(
                    files := s.db.files[f := file.(status := Deleted, deletedAt := Some(s.db.now))],
                    blobs := s.db.blobs[file.blob := blob.(refCount := blob.refCount - 1, updatedAt := s.db.now)],
                    usage := s.db.usage[file.tenant := Usage(used.bytes - file.size,
                                                             if used.count > 0 then used.count - 1 else 0)],
                    audits := s.db.audits[audit := f],
                    outbox := s.db.outbox[e := DeleteRequested(f)]))
  {
  }

  /** Deleting an unknown or DELETED file, or under a used id, changes nothing. */
  lemma DeleteRefused(s: State, f: Id, audit: Id, e: Id)
    requires f !in s.db.files || s.db.files[f].status.Deleted? || audit in s.db.audits || e in s.db.outbox
    ensures Apply(s, DeleteFile(f, audit, e)) == s
  {
  }

  /** A file count that is exact stays exact when a file is deleted, so only commits make it lag. */
  lemma DeleteKeepsCountExact(s: State, f: Id, audit: Id, e: Id, t: Id)
    requires Reachable(s) && t in s.db.usage && s.db.usage[t].count == |ActiveOf(s.db.files, t)|
    ensures var db' := Apply(s, DeleteFile(f, audit, e)).db;
            t in db'.usage && db'.usage[t].count == |ActiveOf(db'.files, t)|
  {
    if f in s.db.files && s.db.files[f].status.Active? && audit !in s.db.audits && e !in s.db.outbox {
      DeletesExactly(s, f, audit, e);
      OneActiveLess(s.db.files, f, s.db.files[f].(status := Deleted, deletedAt := Some(s.db.now)), t);
    } else {
      DeleteRefused(s, f, audit, e);
    }
  }

  lemma OneActiveLess(files: FileTable, f: Id, file: FileAsset, t: Id)
    requires f in files && files[f].status.Active? && file.status.Deleted?
    ensures |ActiveOf(files[f := file], t)| == |ActiveOf(files, t)| - if files[f].tenant == t then 1 else 0
  {
    if files[f].tenant == t {
      assert ActiveOf(files[f := file], t) == ActiveOf(files, t) - {f};
    } else {
      assert ActiveOf(files[f := file], t) == ActiveOf(files, t);
    }
  }

  // ---------------------------------------------------------------------------
  // Jobs on sessions

  /** The expire job takes exactly the unfinished sessions of its batch whose time is over, and ends their ownership. */
  lemma ExpiresExactly(s: State, batch: set<Id>, before: Time, sid: Id)
    requires sid in s.db.sessions
    ensures var s' := Apply(s, Expire(batch, before));
            && s' == s.(db := s.db.(sessions := s'.db.sessions)) && s'.db.sessions.Keys == s.db.sessions.Keys
            && var x := s.db.sessions[sid];
               s'.db.sessions[sid]
               == if sid in batch && (x.status.Initiated? || x.status.Uploading? || x.status.Completing?)
                     && x.expiresAt <= before
                  then x.(status := Expired, completionToken := Blank, completionStartedAt := None,
                          updatedAt := s.db.now)
                  else x
  {
  }

  /**
    * The repair job takes exactly the COMPLETING sessions of its batch that nobody has touched since the cutoff. It
    * completes those with a file id and fails the others, which in every reachable state are all of them.
    */
  lemma RepairsExactly(s: State, batch: set<Id>, before: Time, sid: Id)
    requires sid in s.db.sessions
    ensures var s' := Apply(s, Repair(batch, before));
            && s' == s.(db := s.db.(sessions := s'.db.sessions)) && s'.db.sessions.Keys == s.db.sessions.Keys
            && var x := s.db.sessions[sid];
               s'.db.sessions[sid]
               == if !(sid in batch && x.status.Completing? && x.updatedAt <= before) then x
                  else if x.fileId.Blank? then FailedAs(x, Text(0), Text(0), s.db.now)
                  else x.(status := Completed, failureCode := Blank, failureMessage := Blank, updatedAt := s.db.now,
                          completedAt := if x.completedAt.None? then Some(s.db.now) else x.completedAt)
    ensures Reachable(s) && s.db.sessions[sid].status.Completing? ==> s.db.sessions[sid].fileId.Blank?
  {
    if Reachable(s) {
      ReachableInv(s);
      assert RowOk(sid, s.db.sessions[sid], s.db.now);
    }
  }

  /** Multipart cleanup takes exactly the ended sessions of its batch that still have an upload id and are stale. */
  lemma CleansExactly(s: State, batch: set<Id>, before: Time, sid: Id)
    requires sid in s.db.sessions
    ensures var s' := Apply(s, CleanMultipart(batch, before));
            && s' == s.(db := s.db.(sessions := s'.db.sessions)) && s'.db.sessions.Keys == s.db.sessions.Keys
            && var x := s.db.sessions[sid];
               s'.db.sessions[sid]
               == if sid in batch && (x.status.Aborted? || x.status.Expired? || x.status.Failed?)
                     && x.providerUploadId.Text? && x.updatedAt <= before
                  then x.(providerUploadId := Blank, updatedAt := s.db.now)
                  else x
  {
  }

  // ---------------------------------------------------------------------------
  // Jobs on blobs

  /** Unreferenced, not collected, and the blob of some file that was deleted before the cutoff. */
  predicate Finalizable(db: Db, b: Id, before: Time) {
    && b in db.blobs && db.blobs[b].refCount == 0 && db.blobs[b].deletedAt.None?
    && exists f :: f in db.files && db.files[f].blob == b && db.files[f].status.Deleted?
                   && db.files[f].deletedAt.Some? && db.files[f].deletedAt.value <= before
  }

  /** Unreferenced, not collected, and not touched since the cutoff. */
  predicate Orphaned(db: Db, b: Id, before: Time) {
    b in db.blobs && db.blobs[b].refCount == 0 && db.blobs[b].deletedAt.None? && db.blobs[b].updatedAt <= before
  }

  /** The first `done` objects are deleted, and the rows are marked if the transaction commits. */
  predicate Collects(db: Db, db': Db, doomed: seq<Id>, done: nat, committed: bool)
    requires done <= |doomed| && forall i :: 0 <= i < |doomed| ==> doomed[i] in db.blobs
  {
    && db' == db.(blobs := db'.blobs, gone := db'.gone)
    && (forall o :: o in db.gone ==> o in db'.gone)
    && (forall i :: 0 <= i < done ==> db.blobs[doomed[i]].location in db'.gone)
    && (forall o :: o in db'.gone ==> o in db.gone || exists i :: 0 <= i < done && db.blobs[doomed[i]].location == o)
    && db'.blobs.Keys == db.blobs.Keys
    && forall b :: b in db.blobs ==>
         db'.blobs[b] == if committed && b in doomed
                         then db.blobs[b].(deletedAt := Some(db.now), updatedAt := db.now) else db.blobs[b]
  }

  lemma CollectTxExactly(db: Db, doomed: seq<Id>, done: nat, committed: bool)
    requires done <= |doomed| && (committed ==> done == |doomed|)
    requires forall i :: 0 <= i < |doomed| ==>
      doomed[i] in db.blobs && db.blobs[doomed[i]].refCount == 0 && db.blobs[doomed[i]].deletedAt.None?
    ensures Collects(db, CollectTx(db, doomed, done, committed), doomed, done, committed)
  {
    if committed { assert doomed[..done] == doomed; }
  }

  predicate FinalizableAll(db: Db, doomed: seq<Id>, before: Time) {
    forall i :: 0 <= i < |doomed| ==> Finalizable(db, doomed[i], before)
  }

  predicate OrphanedAll(db: Db, doomed: seq<Id>, before: Time) {
    forall i :: 0 <= i < |doomed| ==> Orphaned(db, doomed[i], before)
  }

  lemma FinalizableExactly(db: Db, b: Id, before: Time)
    ensures FinalizeCandidate(db, b, before) <==> Finalizable(db, b, before)
  {
  }

  /** The finalize job collects its blobs exactly when each of them may be. */
  lemma FinalizesExactly(s: State, doomed: seq<Id>, before: Time, done: nat, committed: bool)
    ensures var s' := Apply(s, FinalizeDeletes(doomed, before, done, committed));
            if FinalizableAll(s.db, doomed, before) && done <= |doomed| && (committed ==> done == |doomed|)
            then s' == s.(db := s'.db) && Collects(s.db, s'.db, doomed, done, committed)
            else s' == s
  {
    forall b { FinalizableExactly(s.db, b, before); }
    if FinalizableAll(s.db, doomed, before) && done <= |doomed| && (committed ==> done == |doomed|) {
      assert forall i :: 0 <= i < |doomed| ==> Finalizable(s.db, doomed[i], before);
      CollectTxExactly(s.db, doomed, done, committed);
    }
  }

  /** An unreferenced blob has no ACTIVE file, so the NOT EXISTS clause of the query adds nothing. */
  lemma OrphanedExactly(db: Db, b: Id, before: Time)
    requires RefCounts(db.files, db.blobs)
    ensures OrphanCandidate(db, b, before) <==> Orphaned(db, b, before)
  {
    if Orphaned(db, b, before) {
      assert ActiveOn(db.files, b) == {};
      forall f | f in db.files && db.files[f].blob == b ensures !db.files[f].status.Active? {
        assert f !in ActiveOn(db.files, b);
      }
    }
  }

  /** The orphan job likewise; in every reachable state the reference count alone decides. */
  lemma CollectsOrphansExactly(s: State, doomed: seq<Id>, before: Time, done: nat, committed: bool)
    requires Reachable(s)
    ensures var s' := Apply(s, CollectOrphans(doomed, before, done, committed));
            if OrphanedAll(s.db, doomed, before) && done <= |doomed| && (committed ==> done == |doomed|)
            then s' == s.(db := s'.db) && Collects(s.db, s'.db, doomed, done, committed)
            else s' == s
  {
    ReachableInv(s);
    OrphansRun(s, doomed, before, done, committed);
  }

  lemma OrphansRun(s: State, doomed: seq<Id>, before: Time, done: nat, committed: bool)
    requires RefCounts(s.db.files, s.db.blobs)
    ensures var s' := Apply(s, CollectOrphans(doomed, before, done, committed));
            if OrphanedAll(s.db, doomed, before) && done <= |doomed| && (committed ==> done == |doomed|)
            then s' == s.(db := s'.db) && Collects(s.db, s'.db, doomed, done, committed)
            else s' == s
  {
    forall b { OrphanedExactly(s.db, b, before); }
    if OrphanedAll(s.db, doomed, before) && done <= |doomed| && (committed ==> done == |doomed|) {
      assert forall i :: 0 <= i < |doomed| ==> Orphaned(s.db, doomed[i], before);
      CollectTxExactly(s.db, doomed, done, committed);
    }
  }

  // ---------------------------------------------------------------------------
  // Reading and saving sessions, creating them

  /** Marking an open session as uploading: the part count only grows. */
  lemma MarksExactly(s: State, task: Id, sid: Id, parts: nat)
    requires Reachable(s)
    ensures Apply(s, ReadUploading(task, sid, parts))
         == if sid in s.db.sessions && Readable(s.db.sessions[sid])
               && (s.db.sessions[sid].status.Initiated? || s.db.sessions[sid].status.Uploading?)
               && (if s.db.sessions[sid].mode.Direct? then parts > 0 else s.db.sessions[sid].mode.Inline? && parts == 1)
            then s.(uploads := s.uploads[task :=
                   s.db.sessions[sid].(status := Uploading, updatedAt := s.db.now,
                                       completedParts := if parts > s.db.sessions[sid].completedParts then parts
                                                         else s.db.sessions[sid].completedParts)])
            else s
  {
    ReachableInv(s);
    if sid in s.db.sessions { ReadsTheRow(s.db, sid); }
  }

  /** Aborting an open session, or an ended one again; a completion that has begun cannot be aborted. */
  lemma AbortsExactly(s: State, task: Id, sid: Id)
    requires Reachable(s)
    ensures Apply(s, ReadAbort(task, sid))
         == if sid !in s.db.sessions || !Readable(s.db.sessions[sid]) then s
            else
              var x := s.db.sessions[sid];
              if x.status.Initiated? || x.status.Uploading? then
                s.(aborts := s.aborts[task := x.(status := Aborted, abortedAt := Some(s.db.now),
                                                 updatedAt := s.db.now)])
              else if x.status.Completing? || x.status.Completed? then s
              else s.(aborts := s.aborts[task := x])
  {
    ReachableInv(s);
    if sid in s.db.sessions { ReadsTheRow(s.db, sid); }
  }

  /** Saving rewrites the whole row if the table accepts its part count, and the copy is used up. */
  lemma SavesExactly(s: State, task: Id)
    ensures Apply(s, SaveUploading(task))
         == if task in s.uploads && s.uploads[task].id in s.db.sessions
               && 0 <= s.uploads[task].completedParts <= s.uploads[task].totalParts
            then s.(uploads := s.uploads - {task},
                    db := s.db.(sessions := s.db.sessions[s.uploads[task].id := s.uploads[task]]))
            else s.(uploads := s.uploads - {task})
    ensures Apply(s, SaveAbort(task))
         == if task in s.aborts && s.aborts[task].id in s.db.sessions
               && 0 <= s.aborts[task].completedParts <= s.aborts[task].totalParts
            then s.(aborts := s.aborts - {task},
                    db := s.db.(sessions := s.db.sessions[s.aborts[task].id := s.aborts[task]]))
            else s.(aborts := s.aborts - {task})
  {
  }

  /** What a new session looks like, TotalParts filled in. */
  predicate Fresh(db: Db, x: SessionState) {
    && x.id !in db.sessions && x.tenant in db.usage && x.location.key == ObjectKey(x.tenant, x.id)
    && x.status.Initiated? && x.createdAt == db.now && x.updatedAt == db.now && x.completedParts == 0
    && x.fileId.Blank? && x.completionToken.Blank? && x.completionStartedAt.None?
    && x.completedAt.None? && x.abortedAt.None? && x.failedAt.None? && x.failureCode.Blank? && x.failureMessage.Blank?
  }

  /** A session is created exactly when it is new and valid; TotalParts 0 means 1 where there is no multipart upload. */
  lemma CreatesExactly(s: State, x: SessionState)
    ensures var y := if !x.mode.Direct? && x.totalParts == 0 then x.(totalParts := 1) else x;
            Apply(s, CreateSession(x))
            == if Fresh(s.db, x) && WellShaped(y) && UploadIdMatchesMode(x)
               then s.(db := s.db.(sessions := s.db.sessions[x.id := y])) else s
  {
    CreatedState(x);
    assert Creatable(s.db, x) <==> Fresh(s.db, x) && Loadable(x);
  }

  lemma CreatedState(x: SessionState)
    ensures var y := if !x.mode.Direct? && x.totalParts == 0 then x.(totalParts := 1) else x;
            (Loadable(x) <==> WellShaped(y) && UploadIdMatchesMode(x)) && (Loadable(x) ==> Validate(x).state == y)
  {
    ValidateAcceptsExactly(x);
  }

  /** A new tenant starts with nothing; time passes; a request that is not finished may be given up. */
  lemma SmallSteps(s: State, t: Id, elapsed: nat, r: Id)
    ensures Apply(s, CreateTenant(t))
         == if t in s.db.usage then s else s.(db := s.db.(usage := s.db.usage[t := Usage(0, 0)]))
    ensures Apply(s, Tick(elapsed)) == s.(db := s.db.(now := s.db.now + elapsed))
    ensures Apply(s, Drop(r))
         == if r in s.requests && s.requests[r].Finished? then s else s.(requests := s.requests - {r})
  {
  }

  // ---------------------------------------------------------------------------
  // Why a completion is refused

  /** The first reason for refusing an upload, in the order of the checks. */
  function Reason(x: SessionState, declared: Option<ContentHash>, env: Storage): Option<ErrorCode> {
    var expected := if declared.Some? then declared else x.hash;
    var checksum := if env.checksum.NoDigest? && expected.Some? && env.checksumming.Computed?
                    then env.checksumming.digest else env.checksum;
    if declared.Some? && (declared.value.algorithm.NoAlgorithm? || declared.value.digest.NoDigest?) then
      Some(HashInvalid)
    else if declared.Some? && !declared.value.algorithm.Sha256? then Some(HashUnsupported)
    else if declared.Some? && !declared.value.digest.Hex64? then Some(HashInvalid)
    else if declared.Some? && x.hash.Some? && declared != x.hash then Some(HashMismatch)
    else if x.mode.Direct? && !PartsAccepted(env.clientParts) then Some(InvalidArgument)
    else if x.mode.Direct? && env.clientParts == [] then Some(PartsMissing)
    else if x.mode.Direct? && env.listError.Some? then env.listError
    else if x.mode.Direct? && !PartsAccepted(env.providerParts) then Some(ServiceUnavailable)
    else if x.mode.Direct? && |env.providerParts| < x.totalParts then Some(PartsMissing)
    else if x.mode.Direct? && env.replaceFails then Some(ServiceUnavailable)
    else if x.mode.Direct? && env.completeError.Some? then env.completeError
    else if env.headFails then Some(ServiceUnavailable)
    else if env.checksum.NoDigest? && expected.Some? && env.checksumming.ChecksumFails? then Some(ServiceUnavailable)
    else if expected.Some? && (checksum.NoDigest? || checksum != expected.value.digest) then Some(HashMismatch)
    else if (expected.Some? || checksum.Hex64?) && env.lookupFails then Some(ServiceUnavailable)
    else None
  }

  /** An upload is refused exactly for these reasons, and otherwise materializes. */
  lemma RefusesExactly(db: Db, x: SessionState, declared: Option<ContentHash>, env: Storage)
    requires Sound(x.hash) && x.totalParts >= 1
    ensures var reason, m := Reason(x, declared, env), Materialize(db, x, declared, env);
            (m.Err? <==> reason.Some?) && (m.Err? ==> m.code == reason.value)
  {
  }

  /** A live blob of the tenant with this content in this bucket, in use by some ACTIVE file. */
  predicate InUse(db: Db, x: SessionState, hash: ContentHash, b: Id) {
    && b in db.blobs && db.blobs[b].tenant == x.tenant && db.blobs[b].location.bucket == x.location.bucket
    && db.blobs[b].hash == Some(hash) && db.blobs[b].deletedAt.None?
    && exists f :: f in db.files && db.files[f].status.Active? && db.files[f].blob == b
  }

  lemma InUseExactly(db: Db, x: SessionState, hash: ContentHash, b: Id)
    ensures InUse(db, x, hash, b) <==> LookupMatches(db, x.tenant, x.location.bucket, hash, b)
  {
    if b in db.blobs {
      if f :| f in ActiveOn(db.files, b) { assert f in db.files; }
      if f :| f in db.files && db.files[f].status.Active? && db.files[f].blob == b {
        assert f in ActiveOn(db.files, b);
      }
    }
  }

  /** The dedup lookup hits exactly when there is such a blob, and hits one of them. */
  lemma HitsExactly(db: Db, x: SessionState, declared: Option<ContentHash>, env: Storage)
    ensures var m := Materialize(db, x, declared, env);
            m.Ok? ==>
              && (m.value.hash.None? ==> m.value.hit.None?)
              && (m.value.hash.Some? && m.value.hit.Some? ==> InUse(db, x, m.value.hash.value, m.value.hit.value))
              && (m.value.hash.Some? && m.value.hit.None? ==> forall b :: !InUse(db, x, m.value.hash.value, b))
  {
    var m := Materialize(db, x, declared, env);
    if m.Ok? && m.value.hash.Some? {
      forall b { InUseExactly(db, x, m.value.hash.value, b); }
    }
  }

  // ---------------------------------------------------------------------------
  // Answers of the transactions, and rows that no reachable state has

  /** The owner is confirmed exactly under the token of a row that can be read. */
  lemma ConfirmsExactly(db: Db, sid: Id, token: Text)
    requires Rows(db)
    ensures ConfirmOwner(db, sid, token)
         == if sid !in db.sessions || token.Blank? || db.sessions[sid].completionToken != token
            then Err(SessionNotFound)
            else if !Readable(db.sessions[sid]) then Err(ServiceUnavailable)
            else Ok(db.sessions[sid])
  {
    if sid in db.sessions { ReadsTheRow(db, sid); }
  }

  /** A failure is confirmed unless the owner is not, the message is missing or the event id is taken. */
  lemma FailAnswers(db: Db, sid: Id, token: Text, code: ErrorCode, text: Text, e: Id)
    requires Rows(db)
    ensures FailTx(db, sid, token, code, text, e).result
         == if sid !in db.sessions || token.Blank? || db.sessions[sid].completionToken != token
            then Err(SessionNotFound)
            else if !Readable(db.sessions[sid]) then Err(ServiceUnavailable)
            else if !db.sessions[sid].status.Completing? then Ok(())
            else if text.Blank? then Err(SessionInvalid)
            else if e in db.outbox then Err(ServiceUnavailable) else Ok(())
  {
    ConfirmsExactly(db, sid, token);
    if sid in db.sessions {
      assert RowOk(sid, db.sessions[sid], db.now);
      ValidateAcceptsExactly(FailedAs(db.sessions[sid], CodeText(code), text, db.now));
    }
  }

  /** What a save answers. */
  lemma SaveAnswers(db: Db, x: SessionState)
    ensures SaveSession(db, x).result
         == if x.id !in db.sessions then Err(SessionNotFound)
            else if x.completedParts < 0 || x.completedParts > x.totalParts then Err(ServiceUnavailable) else Ok(())
  {
  }

  /** What aborting and marking as uploading answer when they refuse. */
  lemma ReadAnswers(db: Db, sid: Id, parts: nat)
    requires Rows(db)
    ensures var unread := if sid !in db.sessions then Some(SessionNotFound)
                          else if !Readable(db.sessions[sid]) then Some(ServiceUnavailable) else None;
            && (unread.Some? ==>
                  AbortRow(db, sid) == Err(unread.value) && UploadingRow(db, sid, parts) == Err(unread.value))
            && (unread.None? ==>
                  var x := db.sessions[sid];
                  && (AbortRow(db, sid).Err? <==> x.status.Completing? || x.status.Completed?)
                  && (AbortRow(db, sid).Err? ==> AbortRow(db, sid).code == SessionStateConflict)
                  && (UploadingRow(db, sid, parts).Err? ==>
                        UploadingRow(db, sid, parts).code
                        == if (x.mode.Direct? && parts > 0) || (x.mode.Inline? && parts == 1) then SessionStateConflict
                           else InvalidArgument))
  {
    if sid in db.sessions { ReadsTheRow(db, sid); }
  }

  /** What a delete answers, and that its decrements stop at zero whatever the tables hold. */
  lemma DeleteAnswers(db: Db, f: Id, audit: Id, e: Id)
    ensures var t := DeleteTx(db, f, audit, e);
            && t.result == (if f !in db.files then Err(InvalidArgument)
                            else if db.files[f].status.Deleted? then Ok(false)
                            else if audit in db.audits || e in db.outbox then Err(ServiceUnavailable) else Ok(true))
            && (t.result == Ok(true) ==>
                  var file := db.files[f];
                  && (file.blob !in db.blobs ==> t.db.blobs == db.blobs)
                  && (file.blob in db.blobs ==>
                        var n := db.blobs[file.blob].refCount - 1;
                        t.db.blobs == db.blobs[file.blob := db.blobs[file.blob].(refCount := if n > 0 then n else 0,
                                                                                 updatedAt := db.now)])
                  && (file.tenant !in db.usage ==> t.db.usage == db.usage)
                  && (file.tenant in db.usage ==>
                        var bytes, count := db.usage[file.tenant].bytes - file.size, db.usage[file.tenant].count - 1;
                        t.db.usage == db.usage[file.tenant := Usage(if bytes > 0 then bytes else 0,
                                                                    if count > 0 then count else 0)]))
  {
  }

  /** The UPDATE of a cleanup marks a row only if it is unreferenced, and keeps an earlier mark. */
  lemma CleanupMarks(db: Db, doomed: seq<Id>, b: Id)
    requires b in db.blobs && b in doomed && forall i :: 0 <= i < |doomed| ==> doomed[i] in db.blobs
    ensures var row, db' := db.blobs[b], CollectTx(db, doomed, |doomed|, true);
            && b in db'.blobs
            && db'.blobs[b] == if row.refCount != 0 then row
                               else row.(updatedAt := db.now,
                                         deletedAt := if row.deletedAt.None? then Some(db.now) else row.deletedAt)
  {
    assert doomed[..|doomed|] == doomed;
  }

  /** A tenant without a usage row gets none from a commit or from reconciling; a commit records one part at least. */
  lemma MissingRows(s: State, tenant: Id, delta: int, x: SessionState, parts: nat)
    ensures tenant !in s.db.usage ==>
              AddBytes(s.db.usage, tenant, delta) == s.db.usage && Apply(s, Reconcile(tenant)) == s
    ensures PartsAtCommit(x, parts) == if parts > 0 then parts else if x.totalParts > 0 then x.totalParts else 1
  {
  }
}
