/** The repositories and transactions as they run, statement by statement, against one shared set of tables. */
module Store {
  import opened Base
  import opened Sessions
  import opened Database
  import opened Lifecycle
  import opened AssetSteps

  /** What storage answers to one DeleteObject or AbortMultipartUpload call. */
  datatype Answer = Removed | Missing | Refuses

  /** The number of calls before the first one that is refused. */
  function Answered(answers: seq<Answer>): (n: nat)
    ensures n <= |answers|
    ensures forall i :: 0 <= i < n ==> !answers[i].Refuses?
    ensures n < |answers| ==> answers[n].Refuses?
  {
    if answers == [] || answers[0].Refuses? then 0 else 1 + Answered(answers[1..])
  }

  class Tables {
    var now: Time
    var sessions: SessionTable
    var blobs: BlobTable
    var files: FileTable
    var usage: UsageTable
    var outbox: EventTable
    var audits: AuditTable
    var gone: set<ObjectRef>

    function View(): Db
      reads this
    {
      Db(now, sessions, blobs, files, usage, outbox, audits, gone)
    }

    /** upload_session_id is the primary key. */
    predicate Keyed()
      reads this`sessions
    {
      forall sid :: sid in sessions ==> sessions[sid].id == sid
    }

    constructor (db: Db)
      ensures View() == db
    {
      now, sessions, blobs, files := db.now, db.sessions, db.blobs, db.files;
      usage, outbox, audits, gone := db.usage, db.outbox, db.audits, db.gone;
    }

    /** Undo every table; objects already deleted from storage stay deleted. */
    method Rollback(saved: Db)
      modifies this`sessions, this`blobs, this`files, this`usage, this`outbox, this`audits
      ensures View() == saved.(now := old(now), gone := old(gone))
    {
      sessions, blobs, files := saved.sessions, saved.blobs, saved.files;
      usage, outbox, audits := saved.usage, saved.outbox, saved.audits;
    }

    // -------------------------------------------------------------------------
    // Sessions

    method Save(x: SessionState) returns (r: Result<()>)
      modifies this`sessions
      ensures Tx(View(), r) == SaveSession(old(View()), x)
    {
      if x.id !in sessions { return Err(SessionNotFound); }
      if !RowAccepted(x) { return Err(ServiceUnavailable); }
      sessions := sessions[x.id := x];
      return Ok(());
    }

    method Query(sid: Id) returns (r: Result<SessionState>)
      ensures r == ReadSession(View(), sid)
    {
      if sid !in sessions { return Err(SessionNotFound); }
      var session := new Session(sessions[sid]);
      var invalid := session.CheckValid();
      if invalid.Some? { return Err(ServiceUnavailable); }
      return Ok(session.State());
    }

    method AcquireCompletion(sid: Id, token: Text) returns (r: Result<Acquisition>)
      modifies this`sessions
      ensures Tx(View(), r) == AcquireTx(old(View()), sid, token)
    {
      var read := Query(sid);
      if read.Err? { return Err(read.code); }
      var session := new Session(read.value);
      var error, ownership := session.Acquire(token, now);
      if error.Some? { return Err(error.value); }
      if ownership.Acquired? {
        var saved := Save(session.State());
        if saved.Err? { return Err(saved.code); }
      }
      return Ok(Acquisition(session.State(), ownership));
    }

    method ConfirmCompletionOwner(sid: Id, token: Text) returns (r: Result<SessionState>)
      ensures r == ConfirmOwner(View(), sid, token)
    {
      if sid !in sessions || token.Blank? || sessions[sid].completionToken != token { return Err(SessionNotFound); }
      r := Query(sid);
    }

    /** The read half of the abort handler. */
    method ReadForAbort(sid: Id) returns (r: Result<SessionState>)
      ensures r == AbortRow(View(), sid)
    {
      r := Query(sid);
      if r.Err? { return; }
      var session := new Session(r.value);
      var error := session.Cancel(now);
      if error.Some? { return Err(error.value); }
      return Ok(session.State());
    }

    /** The read half of the two handlers that mark a session as uploading. */
    method ReadForUpload(sid: Id, parts: nat) returns (r: Result<SessionState>)
      ensures r == UploadingRow(View(), sid, parts)
    {
      r := Query(sid);
      if r.Err? { return; }
      if !(r.value.mode.Direct? && parts > 0) && !(r.value.mode.Inline? && parts == 1) { return Err(InvalidArgument); }
      var session := new Session(r.value);
      var error := session.Upload(parts);
      if error.Some? { return Err(error.value); }
      session.updatedAt := now;
      return Ok(session.State());
    }

    // -------------------------------------------------------------------------
    // Statements of the completion transaction

    method UpsertBlob(id: Id, tenant: Id, location: ObjectRef, hash: Option<ContentHash>, size: int) returns (ok: bool)
      modifies this`blobs
      ensures var row := UpsertedBlob(old(blobs), id, tenant, location, hash, size, now);
              && ok == !UpsertRejected(old(blobs), id, row)
              && blobs == if ok then old(blobs)[id := row] else old(blobs)
    {
      var row := Blob(tenant, location, hash, size, 0, now, None);
      if id in blobs {
        row := blobs[id].(location := location, hash := hash, size := size, updatedAt := now);
      }
      ok := forall other :: other in blobs && other != id ==> !Conflicts(row, blobs[other]);
      if ok { blobs := blobs[id := row]; }
    }

    method AdjustReferenceCount(id: Id, delta: int)
      modifies this`blobs
      ensures blobs.Keys == old(blobs).Keys
      ensures id in blobs ==>
                var b := old(blobs)[id];
                blobs == old(blobs)[id := b.(refCount := b.refCount + delta, updatedAt := now)]
      ensures id !in blobs ==> blobs == old(blobs)
    {
      if id in blobs {
        blobs := blobs[id := blobs[id].(refCount := blobs[id].refCount + delta, updatedAt := now)];
      }
    }

    method CreateFileAsset(id: Id, file: FileAsset) returns (ok: bool)
      modifies this`files
      ensures ok == (id !in old(files))
      ensures files == if ok then old(files)[id := file] else old(files)
    {
      ok := id !in files;
      if ok { files := files[id := file]; }
    }

    method ApplyDelta(tenant: Id, delta: int)
      modifies this`usage
      ensures usage == AddBytes(old(usage), tenant, delta)
    {
      if tenant in usage { usage := usage[tenant := usage[tenant].(bytes := usage[tenant].bytes + delta)]; }
    }

    method Enqueue(id: Id, event: Event) returns (ok: bool)
      modifies this`outbox
      ensures ok == (id !in old(outbox))
      ensures outbox == if ok then old(outbox)[id := event] else old(outbox)
    {
      ok := id !in outbox;
      if ok { outbox := outbox[id := event]; }
    }

    /** The blob, the file and the usage of a completed upload. */
    method FileStatements(x: SessionState, mat: Materialized, b: Id, size: int, fileId: Id) returns (ok: bool)
      modifies this`blobs, this`files, this`usage
      ensures var row := UpsertedBlob(old(blobs), b, x.tenant, x.location, mat.hash, size, now);
              && ok == (!UpsertRejected(old(blobs), b, row) && fileId !in old(files))
              && (ok ==>
                    && blobs == old(blobs)[b := row.(refCount := row.refCount + 1)]
                    && files == old(files)[fileId :=
                         FileAsset(x.tenant, b, size, Active, x.location, DigestOf(mat.hash), None)]
                    && usage == AddBytes(old(usage), x.tenant, size))
    {
      ok := UpsertBlob(b, x.tenant, x.location, mat.hash, size);
      if !ok { return; }
      AdjustReferenceCount(b, 1);
      ok := CreateFileAsset(fileId, FileAsset(x.tenant, b, size, Active, x.location, DigestOf(mat.hash), None));
      if !ok { return; }
      ApplyDelta(x.tenant, size);
    }

    /** The session row and the event of a completed upload. */
    method CompleteStatements(x: SessionState, mat: Materialized, fileId: Id, eventId: Id) returns (r: Result<Id>)
      requires x.id in sessions && !x.status.Completed?
      modifies this`sessions, this`outbox
      ensures var done := MarkCompleted(x.(completedParts := PartsAtCommit(x, mat.parts)), Text(fileId), now);
              && r == (if done.error.Some? then Err(done.error.value)
                       else if eventId in old(outbox) then Err(ServiceUnavailable) else Ok(fileId))
              && (r.Ok? ==>
                    && sessions == old(sessions)[x.id := done.state]
                    && outbox == old(outbox)[eventId := SessionCompleted(x.id, fileId)])
    {
      var session := new Session(x);
      session.completedParts := if mat.parts > 0 then mat.parts else session.totalParts;
      if session.completedParts <= 0 { session.completedParts := 1; }
      ghost var before := session.State();
      var error := session.Complete(Text(fileId), now);
      if error.Some? { return Err(error.value); }
      CompletedIsSaved(x, before, Text(fileId), now, session.State());
      var saved := Save(session.State());
      var queued := Enqueue(eventId, SessionCompleted(x.id, fileId));
      return if queued then Ok(fileId) else Err(ServiceUnavailable);
    }

    method CommitStatements(sid: Id, token: Text, mat: Materialized, blobId: Id, fileId: Id, eventId: Id)
      returns (r: Result<Id>)
      requires Keyed()
      modifies this`sessions, this`blobs, this`files, this`usage, this`outbox
      ensures var t := CommitTx(old(View()), sid, token, mat, blobId, fileId, eventId);
              r == t.result && (r.Ok? ==> View() == t.db)
    {
      var owned := ConfirmCompletionOwner(sid, token);
      if owned.Err? { return Err(owned.code); }
      var x := owned.value;
      if x.status.Completed? { return if x.fileId.Blank? then Err(SessionInvalid) else Ok(x.fileId.n); }
      ValidateTouchesOnlyTotalParts(sessions[sid]);
      var b := if mat.hit.Some? then mat.hit.value else blobId;
      var filed := FileStatements(x, mat, b, EffectiveSize(mat.size, x.sizeBytes), fileId);
      if !filed { return Err(ServiceUnavailable); }
      r := CompleteStatements(x, mat, fileId, eventId);
    }

    /** commit, all or nothing. */
    method Commit(sid: Id, token: Text, mat: Materialized, blobId: Id, fileId: Id, eventId: Id) returns (r: Result<Id>)
      requires Keyed()
      modifies this
      ensures Tx(View(), r) == CommitTx(old(View()), sid, token, mat, blobId, fileId, eventId)
    {
      var begin := View();
      r := CommitStatements(sid, token, mat, blobId, fileId, eventId);
      if r.Err? {
        Rollback(begin);
        FailedCommitChangesNothing(begin, sid, token, mat, blobId, fileId, eventId);
      }
    }

    method FailStatements(sid: Id, token: Text, code: ErrorCode, text: Text, eventId: Id) returns (r: Result<()>)
      requires Keyed()
      modifies this`sessions, this`outbox
      ensures var t := FailTx(old(View()), sid, token, code, text, eventId);
              r == t.result && (r.Ok? ==> View() == t.db)
    {
      var owned := ConfirmCompletionOwner(sid, token);
      if owned.Err? { return Err(owned.code); }
      var session := new Session(owned.value);
      if !session.status.Completing? { return Ok(()); }
      var error := session.Fail(CodeText(code), text, now);
      if error.Some? { return Err(error.value); }
      ValidateTouchesOnlyTotalParts(sessions[sid]);
      FailedIsSaved(owned.value, CodeText(code), text, now, session.State());
      var saved := Save(session.State());
      var queued := Enqueue(eventId, SessionFailed(sid, code));
      return if queued then Ok(()) else Err(ServiceUnavailable);
    }

    /** finalizeFailure's transaction, all or nothing. */
    method FinalizeFailure(sid: Id, token: Text, code: ErrorCode, text: Text, eventId: Id) returns (r: Result<()>)
      requires Keyed()
      modifies this
      ensures Tx(View(), r) == FailTx(old(View()), sid, token, code, text, eventId)
    {
      var begin := View();
      r := FailStatements(sid, token, code, text, eventId);
      if r.Err? { Rollback(begin); }
    }

    // -------------------------------------------------------------------------
    // Deleting a file

    /** MarkDeleted: nothing for an unknown file, `Some(true)` if it was deleted before. */
    method MarkDeleted(fid: Id) returns (already: Option<bool>)
      modifies this`files, this`blobs, this`usage
      ensures already == if fid !in old(files) then None else Some(old(files)[fid].status.Deleted?)
      ensures if already != Some(false) then View() == old(View())
              else
                var f := old(files)[fid];
                && files == old(files)[fid := f.(status := Deleted, deletedAt := Some(now))]
                && blobs == ReleaseBlob(old(blobs), f.blob, now)
                && usage == ReleaseUsage(old(usage), f.tenant, f.size)
    {
      if fid !in files { return None; }
      if files[fid].status.Deleted? { return Some(true); }
      files := files[fid := files[fid].(status := Deleted, deletedAt := Some(now))];
      var f := files[fid];
      if f.blob in blobs {
        var b := blobs[f.blob];
        blobs := blobs[f.blob := b.(refCount := MaxInt(b.refCount - 1, 0), updatedAt := now)];
      }
      if f.tenant in usage {
        var u := usage[f.tenant];
        usage := usage[f.tenant := Usage(MaxInt(u.bytes - f.size, 0), MaxInt(u.count - 1, 0))];
      }
      return Some(false);
    }

    /** The delete handler's transaction: the file, its audit entry and its event, all or nothing. */
    method DeleteFile(fid: Id, auditId: Id, eventId: Id) returns (r: Result<bool>)
      modifies this
      ensures Tx(View(), r) == DeleteTx(old(View()), fid, auditId, eventId)
    {
      var begin := View();
      var already := MarkDeleted(fid);
      if already.None? { return Err(InvalidArgument); }
      if already.value { return Ok(false); }
      if auditId in audits {
        Rollback(begin);
        return Err(ServiceUnavailable);
      }
      audits := audits[auditId := fid];
      var queued := Enqueue(eventId, DeleteRequested(fid));
      if !queued {
        Rollback(begin);
        return Err(ServiceUnavailable);
      }
      return Ok(true);
    }

    // -------------------------------------------------------------------------
    // Jobs that are one UPDATE

    method ExpirePendingSessions(batch: set<Id>, before: Time)
      modifies this`sessions
      ensures View() == ExpireTx(old(View()), batch, before)
    {
      sessions := map sid | sid in sessions ::
        var x := sessions[sid];
        if sid in batch && x.status in {Initiated, Uploading, Completing} && x.expiresAt <= before
        then x.(status := Expired, updatedAt := now, completionToken := Blank, completionStartedAt := None)
        else x;
    }

    method RepairStuckCompleting(batch: set<Id>, before: Time)
      modifies this`sessions
      ensures View() == RepairTx(old(View()), batch, before)
    {
      sessions := map sid | sid in sessions ::
        var x := sessions[sid];
        if !(sid in batch && x.status == Completing && x.updatedAt <= before) then x
        else x.(status := if x.fileId != Blank then Completed else Failed,
                completedAt := if x.fileId != Blank && x.completedAt.None? then Some(now) else x.completedAt,
                failedAt := if x.fileId == Blank then Some(now) else x.failedAt,
                failureCode := if x.fileId == Blank then REPAIR_TEXT else Blank,
                failureMessage := if x.fileId == Blank then REPAIR_TEXT else Blank,
                updatedAt := now);
    }

    // -------------------------------------------------------------------------
    // Jobs that call storage

    /** One record of a cleanup: its object is deleted, then its row is marked if it is still unreferenced. */
    method CollectBlob(b: Id)
      requires b in blobs
      modifies this`blobs, this`gone
      ensures blobs == old(blobs)[b := CollectedBlob(old(blobs)[b], now)]
      ensures gone == old(gone) + {old(blobs)[b].location}
    {
      gone := gone + {blobs[b].location};
      if blobs[b].refCount == 0 {
        blobs := blobs[b := blobs[b].(deletedAt := if blobs[b].deletedAt.Some? then blobs[b].deletedAt else Some(now),
                                      updatedAt := now)];
      }
    }

    /** The loop of FinalizeDeletedFiles and CleanupOrphanBlobs, up to the first refused call. */
    method CollectUntilRefused(batch: seq<Id>, answers: seq<Answer>) returns (done: nat)
      requires |answers| == |batch| && forall i :: 0 <= i < |batch| ==> batch[i] in blobs
      modifies this`blobs, this`gone
      ensures done == Answered(answers)
      ensures blobs == CollectedBlobs(old(blobs), batch[..done], now)
      ensures gone == old(gone) + Locations(old(blobs), batch, done)
    {
      done := 0;
      while done < |batch| && !answers[done].Refuses?
        invariant done <= Answered(answers)
        invariant blobs == CollectedBlobs(old(blobs), batch[..done], now)
        invariant gone == old(gone) + Locations(old(blobs), batch, done)
      {
        CollectedOneMore(old(blobs), batch, done, now);
        CollectBlob(batch[done]);
        done := done + 1;
      }
    }

    /**
      * The rest of both jobs over the blobs their query selected. A refused call or a failed COMMIT rolls the rows
      * back; the objects already deleted are gone all the same.
      */
    method CollectBlobs(batch: seq<Id>, answers: seq<Answer>, commits: bool) returns (processed: Option<nat>)
      requires |answers| == |batch| && forall i :: 0 <= i < |batch| ==> batch[i] in blobs
      modifies this
      ensures var done := Answered(answers);
              var committed := done == |batch| && commits;
              && View() == CollectTx(old(View()), batch, done, committed)
              && processed == if committed then Some(|batch|) else None
    {
      var begin := View();
      var done := CollectUntilRefused(batch, answers);
      if done < |batch| || !commits {
        Rollback(begin);
        return None;
      }
      return Some(done);
    }

    /** The rows of a scan that the query of FinalizeDeletedFiles, or of CleanupOrphanBlobs, returns. */
    method SelectBlobs(scan: seq<Id>, before: Time, orphans: bool) returns (batch: seq<Id>)
      ensures batch == Eligibles(View(), scan, before, orphans)
    {
      batch := [];
      var i := 0;
      while i < |scan|
        invariant 0 <= i <= |scan|
        invariant batch == Eligibles(View(), scan[..i], before, orphans)
      {
        assert scan[..i + 1][..i] == scan[..i];
        if Eligible(View(), scan[i], before, orphans) { batch := batch + [scan[i]]; }
        i := i + 1;
      }
      assert scan[..i] == scan;
    }

    /** FinalizeDeletedFiles and CleanupOrphanBlobs: the query, then the loop. */
    method Cleanup(scan: seq<Id>, before: Time, orphans: bool, answers: seq<Answer>, commits: bool)
      returns (processed: Option<nat>)
      requires |answers| >= |scan|
      modifies this
      ensures var batch := Eligibles(old(View()), scan, before, orphans);
              var done := Answered(answers[..|batch|]);
              var committed := done == |batch| && commits;
              && View() == CollectTx(old(View()), batch, done, committed)
              && processed == if committed then Some(|batch|) else None
    {
      var batch := SelectBlobs(scan, before, orphans);
      processed := CollectBlobs(batch, answers[..|batch|], commits);
    }

    method ClearUploadId(sid: Id)
      requires sid in sessions
      modifies this`sessions
      ensures sessions == old(sessions)[sid := old(sessions)[sid].(providerUploadId := Blank, updatedAt := now)]
    {
      sessions := sessions[sid := sessions[sid].(providerUploadId := Blank, updatedAt := now)];
    }

    /** The loop of CleanupMultipartUploads, up to the first refused call. */
    method ClearUploadIds(batch: seq<Id>, before: Time, answers: seq<Answer>) returns (done: nat)
      requires |answers| == |batch| && Distinct(batch) && CleanedBatch(sessions, batch, before)
      modifies this`sessions
      ensures done == Answered(answers)
      ensures sessions == CleanedRows(old(sessions), Members(batch[..done]), before, now)
    {
      done := 0;
      while done < |batch| && !answers[done].Refuses?
        invariant done <= Answered(answers)
        invariant sessions == CleanedRows(old(sessions), Members(batch[..done]), before, now)
      {
        CleanedOneMore(old(sessions), batch, done, before, now);
        ClearUploadId(batch[done]);
        done := done + 1;
      }
    }

    /** CleanupMultipartUploads over the sessions its query selected. */
    method CleanMultipart(batch: seq<Id>, before: Time, answers: seq<Answer>, commits: bool)
      returns (processed: Option<nat>)
      requires |answers| == |batch| && Distinct(batch) && CleanedBatch(sessions, batch, before)
      modifies this
      ensures var committed := Answered(answers) == |batch| && commits;
              && View() == (if committed then MultipartTx(old(View()), Members(batch), before) else old(View()))
              && processed == if committed then Some(|batch|) else None
    {
      var begin := View();
      var done := ClearUploadIds(batch, before, answers);
      if done < |batch| || !commits {
        Rollback(begin);
        return None;
      }
      assert batch[..done] == batch;
      return Some(done);
    }

    // -------------------------------------------------------------------------
    // Reconciling usage

    /** SUM(file_size) and COUNT(*) over the tenant's ACTIVE files. */
    method Measure(tenant: Id) returns (bytes: int, count: nat)
      ensures bytes == SumSizes(files, ActiveOf(files, tenant))
      ensures count == |ActiveOf(files, tenant)|
    {
      var rest := ActiveOf(files, tenant);
      bytes, count := 0, |rest|;
      while rest != {}
        invariant rest <= ActiveOf(files, tenant)
        invariant bytes + SumSizes(files, rest) == SumSizes(files, ActiveOf(files, tenant))
        decreases |rest|
      {
        var f :| f in rest;
        SumWithout(files, rest, f);
        bytes := bytes + files[f].size;
        rest := rest - {f};
      }
    }

    /** ReconcileTenantUsage over the tenants its query selected. */
    method ReconcileUsage(tenants: seq<Id>)
      modifies this`usage
      ensures View() == ReconciledAll(old(View()), tenants)
    {
      var i := 0;
      while i < |tenants|
        invariant 0 <= i <= |tenants|
        invariant View() == old(View()).(usage := usage)
        invariant View() == ReconciledAll(old(View()), tenants[..i])
      {
        assert tenants[..i + 1][..i] == tenants[..i];
        var bytes, count := Measure(tenants[i]);
        if tenants[i] in usage { usage := usage[tenants[i] := Usage(bytes, count)]; }
        i := i + 1;
      }
      assert tenants[..|tenants|] == tenants;
    }
  }

  predicate Eligible(db: Db, b: Id, before: Time, orphans: bool) {
    if orphans then OrphanCandidate(db, b, before) else FinalizeCandidate(db, b, before)
  }

  function Eligibles(db: Db, scan: seq<Id>, before: Time, orphans: bool): (batch: seq<Id>)
    ensures |batch| <= |scan|
    ensures forall i :: 0 <= i < |batch| ==> Eligible(db, batch[i], before, orphans)
    ensures forall b :: b in batch <==> b in scan && Eligible(db, b, before, orphans)
  {
    if scan == [] then []
    else
      var n := |scan| - 1;
      assert scan == scan[..n] + [scan[n]];
      Eligibles(db, scan[..n], before, orphans) + if Eligible(db, scan[n], before, orphans) then [scan[n]] else []
  }

  /** What Cleanup does to the tables is one action of the transition system, for either query. */
  lemma FinalizeIsAnAction(s: State, scan: seq<Id>, before: Time, done: nat, committed: bool)
    requires done <= |Eligibles(s.db, scan, before, false)|
    requires committed ==> done == |Eligibles(s.db, scan, before, false)|
    ensures var batch := Eligibles(s.db, scan, before, false);
            Apply(s, FinalizeDeletes(batch, before, done, committed))
            == s.(db := CollectTx(s.db, batch, done, committed))
  {
    var batch := Eligibles(s.db, scan, before, false);
    assert forall i :: 0 <= i < |batch| ==> Eligible(s.db, batch[i], before, false);
  }

  lemma OrphansAreAnAction(s: State, scan: seq<Id>, before: Time, done: nat, committed: bool)
    requires done <= |Eligibles(s.db, scan, before, true)|
    requires committed ==> done == |Eligibles(s.db, scan, before, true)|
    ensures var batch := Eligibles(s.db, scan, before, true);
            Apply(s, CollectOrphans(batch, before, done, committed))
            == s.(db := CollectTx(s.db, batch, done, committed))
  {
    var batch := Eligibles(s.db, scan, before, true);
    assert forall i :: 0 <= i < |batch| ==> Eligible(s.db, batch[i], before, true);
  }

  function Members(batch: seq<Id>): set<Id> {
    set sid | sid in batch
  }

  predicate Distinct(batch: seq<Id>) {
    forall i, j :: 0 <= i < j < |batch| ==> batch[i] != batch[j]
  }

  /** Rows the query of CleanupMultipartUploads selects. */
  predicate CleanedBatch(sessions: SessionTable, batch: seq<Id>, before: Time) {
    forall i :: 0 <= i < |batch| ==> batch[i] in sessions && MultipartCandidate(sessions[batch[i]], before)
  }

  lemma CleanedOneMore(sessions: SessionTable, batch: seq<Id>, i: nat, before: Time, now: Time)
    requires i < |batch| && Distinct(batch) && CleanedBatch(sessions, batch, before)
    ensures var done := CleanedRows(sessions, Members(batch[..i]), before, now);
            CleanedRows(sessions, Members(batch[..i + 1]), before, now)
            == done[batch[i] := done[batch[i]].(providerUploadId := Blank, updatedAt := now)]
  {
    assert batch[..i + 1] == batch[..i] + [batch[i]];
  }

  ghost function ReconciledAll(db: Db, tenants: seq<Id>): Db {
    if tenants == [] then db else ReconcileTx(ReconciledAll(db, tenants[..|tenants| - 1]), tenants[|tenants| - 1])
  }

  /** Each selected tenant gets the sum and the number of its ACTIVE files, and nothing else changes. */
  lemma {:induction false} ReconciledAllMeans(db: Db, tenants: seq<Id>, t: Id)
    ensures ReconciledAll(db, tenants) == db.(usage := ReconciledAll(db, tenants).usage)
    ensures t in ReconciledAll(db, tenants).usage <==> t in db.usage
    ensures t in db.usage ==>
              ReconciledAll(db, tenants).usage[t]
              == if t in tenants then Usage(SumSizes(db.files, ActiveOf(db.files, t)), |ActiveOf(db.files, t)|)
                 else db.usage[t]
    decreases |tenants|
  {
    if tenants != [] {
      var n := |tenants| - 1;
      ReconciledAllMeans(db, tenants[..n], t);
      assert tenants == tenants[..n] + [tenants[n]];
    }
  }

  /** A session that MarkCompleted accepted is also accepted by the table, under its own id. */
  lemma CompletedIsSaved(read: SessionState, before: SessionState, fileId: Text, now: Time, after: SessionState)
    requires before == read.(completedParts := before.completedParts) && !read.status.Completed?
    requires Outcome(after, None) == MarkCompleted(before, fileId, now)
    ensures after.id == read.id && RowAccepted(after)
  {
    ValidateAcceptsExactly(before.(status := Completed, fileId := fileId, completedAt := Some(now), updatedAt := now));
  }

  lemma FailedCommitChangesNothing(db: Db, sid: Id, token: Text, mat: Materialized, blobId: Id, fileId: Id, eventId: Id)
    ensures var t := CommitTx(db, sid, token, mat, blobId, fileId, eventId); t.result.Err? ==> t.db == db
  {
  }

  lemma FailedIsSaved(read: SessionState, code: Text, text: Text, now: Time, after: SessionState)
    requires read.status.Completing? && Outcome(after, None) == MarkFailed(read, code, text, now)
    ensures after.id == read.id && RowAccepted(after)
  {
    ValidateAcceptsExactly(read.(status := Failed, failureCode := code, failureMessage := text,
                                 failedAt := Some(now), updatedAt := now));
  }

  function Locations(blobs: BlobTable, batch: seq<Id>, n: nat): set<ObjectRef>
    requires n <= |batch| && forall i :: 0 <= i < |batch| ==> batch[i] in blobs
  {
    set i | 0 <= i < n :: blobs[batch[i]].location
  }

  /** Collecting one more blob of the batch; a blob that occurs twice is not changed again. */
  lemma CollectedOneMore(blobs: BlobTable, batch: seq<Id>, i: nat, now: Time)
    requires i < |batch| && forall k :: 0 <= k < |batch| ==> batch[k] in blobs
    ensures var done := CollectedBlobs(blobs, batch[..i], now);
            && CollectedBlobs(blobs, batch[..i + 1], now) == done[batch[i] := CollectedBlob(done[batch[i]], now)]
            && Locations(blobs, batch, i + 1) == Locations(blobs, batch, i) + {done[batch[i]].location}
  {
    assert batch[..i + 1] == batch[..i] + [batch[i]];
  }
}
