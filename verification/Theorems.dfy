/** The promises of the service in every reachable state. */
module Theorems {
  import opened Base
  import opened Sessions
  import opened Hashes
  import opened Database
  import opened Lifecycle
  import opened Invariant
  import opened SessionSteps
  import opened AssetSteps
  import opened GarbageSteps
  import opened Safety

  /** No cleanup, committed or rolled back, has ever deleted the own object of an ACTIVE file. */
  lemma ActiveObjectsSurvive(s: State, f: Id)
    requires Reachable(s)
    requires f in s.db.files && s.db.files[f].status.Active?
    ensures s.db.files[f].location !in s.db.gone
  {
    ReachableInv(s);
  }

  /** A session yields at most one file. */
  lemma OneFilePerSession(s: State, f: Id, g: Id)
    requires Reachable(s) && f in s.db.files && g in s.db.files
    requires s.db.files[f].location.key.session == s.db.files[g].location.key.session
    ensures f == g
  {
    ReachableInv(s);
    assert FileOk(s.db.sessions, s.db.blobs, s.db.files[f]) && FileOk(s.db.sessions, s.db.blobs, s.db.files[g]);
  }

  /** Every successful completion of a session, whatever its token, returned the same file. */
  lemma CompletionsAgree(s: State, q: Id, r: Id)
    requires Reachable(s) && q in s.requests && r in s.requests
    requires s.requests[q].Finished? && s.requests[r].Finished? && s.requests[q].session == s.requests[r].session
    requires s.requests[q].result.Ok? && s.requests[r].result.Ok?
    ensures s.requests[q].result == s.requests[r].result
    ensures s.requests[q].result.value in s.db.files
  {
    ReachableInv(s);
    assert RequestOk(s.db, s.requests[q]) && RequestOk(s.db, s.requests[r]);
    OneFilePerSession(s, s.requests[q].result.value, s.requests[r].result.value);
  }

  /**
    * The reference count is the number of ACTIVE files on the blob, so GREATEST(..., 0) never clamps and
    * the NOT EXISTS clause of the orphan query follows from reference_count = 0.
    */
  lemma ReferenceCountsAreExact(s: State, b: Id)
    requires Reachable(s) && b in s.db.blobs
    ensures s.db.blobs[b].refCount == |ActiveOn(s.db.files, b)|
    ensures forall f :: f in ActiveOn(s.db.files, b) ==> s.db.blobs[b].refCount - 1 >= 0
    ensures s.db.blobs[b].refCount == 0 <==>
            forall f :: f in s.db.files && s.db.files[f].blob == b ==> !s.db.files[f].status.Active?
  {
    ReachableInv(s);
    if s.db.blobs[b].refCount == 0 {
      assert forall f :: f in s.db.files ==> f !in ActiveOn(s.db.files, b);
    }
    if forall f :: f in s.db.files && s.db.files[f].blob == b ==> !s.db.files[f].status.Active? {
      assert ActiveOn(s.db.files, b) == {};
    }
  }

  /** Used bytes are exact at all times, and reconciling changes only the file count, which it makes exact. */
  lemma UsageIsExact(s: State, t: Id)
    requires Reachable(s) && t in s.db.usage
    ensures var active := ActiveOf(s.db.files, t);
            && s.db.usage[t].bytes == SumSizes(s.db.files, active)
            && 0 <= s.db.usage[t].count <= |active|
            && Apply(s, Reconcile(t)) == s.(db := s.db.(usage := s.db.usage[t := Usage(s.db.usage[t].bytes, |active|)]))
  {
    ReachableInv(s);
  }

  /** Files that share a blob have the same tenant, bucket and hash, which is also what the session declared. */
  lemma DedupKeepsContentApart(s: State, f: Id, g: Id)
    requires Reachable(s) && f in s.db.files && g in s.db.files && s.db.files[f].blob == s.db.files[g].blob
    ensures s.db.files[f].blob in s.db.blobs && AgreesWithBlob(s.db.files[f], s.db.blobs[s.db.files[f].blob])
    ensures s.db.files[f].tenant == s.db.files[g].tenant
    ensures s.db.files[f].location.bucket == s.db.files[g].location.bucket
    ensures s.db.files[f].hash == s.db.files[g].hash
    ensures var sid := s.db.files[f].location.key.session;
            sid in s.db.sessions && AgreesWithSession(s.db.files[f], s.db.sessions[sid])
  {
    ReachableInv(s);
    assert FileOk(s.db.sessions, s.db.blobs, s.db.files[f]) && FileOk(s.db.sessions, s.db.blobs, s.db.files[g]);
  }

  /** The provider lists at least TotalParts good parts and completes the upload. */
  predicate MultipartComplete(x: SessionState, env: Storage) {
    && env.clientParts != [] && PartsAccepted(env.clientParts)
    && env.listError.None? && PartsAccepted(env.providerParts)
    && |env.providerParts| >= x.totalParts && !env.replaceFails && env.completeError.None?
  }

  /** The checksum storage reports, or computes when it reports none and one is expected. */
  function ReportedChecksum(expected: Option<ContentHash>, env: Storage): Digest {
    if env.checksum.NoDigest? && expected.Some? && env.checksumming.Computed? then env.checksumming.digest
    else env.checksum
  }

  /** An upload materializes exactly when its parts are complete and every declared hash is the verified one. */
  lemma MaterializesExactly(db: Db, x: SessionState, declared: Option<ContentHash>, env: Storage)
    requires Sound(x.hash) && x.totalParts >= 1
    ensures var expected := if declared.Some? then declared else x.hash;
            Materialize(db, x, declared, env).Ok? <==>
            && Sound(declared) && (x.hash.Some? && declared.Some? ==> x.hash == declared)
            && (x.mode.Direct? ==> MultipartComplete(x, env))
            && !env.headFails
            && (expected.Some? ==> ReportedChecksum(expected, env) == expected.value.digest)
            && (ReportedChecksum(expected, env).Hex64? ==> !env.lookupFails)
    ensures var m := Materialize(db, x, declared, env);
            m.Ok? ==>
              && (m.value.parts == if x.mode.Direct? then |env.providerParts| else 0)
              && (m.value.hit.Some? <==>
                    m.value.hash.Some?
                    && exists b :: LookupMatches(db, x.tenant, x.location.bucket, m.value.hash.value, b))
  {
    var expected := if declared.Some? then declared else x.hash;
    FiledUnderTheVerifiedHash(x.hash, declared, ReportedChecksum(expected, env));
  }

  /** A request that made a file is answered with it and keeps the hash it declared. */
  lemma MakerIsRecorded(s: State, r: Id, b: Id, f: Id, e: Id)
    requires r in s.requests && s.requests[r].Prepared?
    requires f !in s.db.files && f in Apply(s, Commit(r, b, f, e)).db.files
    ensures var q := s.requests[r];
            Apply(s, Commit(r, b, f, e)).requests[r] == Finished(q.snapshot.id, Ok(f), q.declared)
  {
    assert Apply(s, Commit(r, b, f, e)).db.files != s.db.files;
  }

  /** In every reachable state the file a request made is stored under the hash that request declared. */
  lemma FileKeepsDeclaredHash(s: State, r: Id)
    requires Reachable(s) && r in s.requests && s.requests[r].Finished?
    requires s.requests[r].result.Ok? && s.requests[r].filedAs.Some?
    ensures s.requests[r].result.value in s.db.files
    ensures s.db.files[s.requests[r].result.value].hash == DigestOf(s.requests[r].filedAs)
  {
    ReachableInv(s);
    assert RequestOk(s.db, s.requests[r]);
  }

  /** A completion of a COMPLETED session is answered with its file, whatever hash it declares. */
  lemma DoneIgnoresDeclared(s: State, r: Id, sid: Id, token: Text, declared: Option<ContentHash>)
    requires Reachable(s) && r !in s.requests && !token.Blank?
    requires sid in s.db.sessions && s.db.sessions[sid].status.Completed?
    ensures s.db.sessions[sid].fileId.Text?
    ensures Apply(s, BeginCompletion(r, sid, token, declared))
         == s.(requests := s.requests[r := Finished(sid, Ok(s.db.sessions[sid].fileId.n), None)])
  {
    ReachableInv(s);
    DoneIsAnswered(s, r, sid, token, declared);
  }

  lemma DoneIsAnswered(s: State, r: Id, sid: Id, token: Text, declared: Option<ContentHash>)
    requires Rows(s.db) && r !in s.requests && !token.Blank?
    requires sid in s.db.sessions && s.db.sessions[sid].status.Completed?
    ensures s.db.sessions[sid].fileId.Text?
    ensures Apply(s, BeginCompletion(r, sid, token, declared))
         == s.(requests := s.requests[r := Finished(sid, Ok(s.db.sessions[sid].fileId.n), None)])
  {
    DoneAnswers(s.db, sid, token, declared);
  }

  lemma DoneAnswers(db: Db, sid: Id, token: Text, declared: Option<ContentHash>)
    requires Rows(db) && sid in db.sessions && db.sessions[sid].status.Completed? && !token.Blank?
    ensures var t := AcquireTx(db, sid, token);
            && t.db == db && db.sessions[sid].fileId.Text?
            && AfterAcquire(t, sid, token, declared) == Finished(sid, Ok(db.sessions[sid].fileId.n), None)
  {
    ReadIsTheRow(db, sid);
    assert RowOk(sid, db.sessions[sid], db.now);
  }

  /** Stored rows load exactly when multipart cleanup has not taken the upload id of a multipart session. */
  lemma RowsLoadExactly(s: State, sid: Id)
    requires Reachable(s) && sid in s.db.sessions
    ensures var x := s.db.sessions[sid];
            && (Load(Save(x)) == Ok(x) <==> !(x.mode.Direct? && x.providerUploadId.Blank?))
            && (x.mode.Direct? && x.providerUploadId.Blank? ==>
                  x.status.Aborted? || x.status.Expired? || x.status.Failed?)
  {
    ReachableInv(s);
    assert RowOk(sid, s.db.sessions[sid], s.db.now);
    SaveLoadRoundTrip(s.db.sessions[sid]);
  }

  /** A COMPLETING row has no file id, so repair always fails it and never completes it. */
  lemma RepairAlwaysFails(s: State, batch: set<Id>, before: Time, sid: Id)
    requires Reachable(s) && sid in s.db.sessions
    ensures s.db.sessions[sid].status.Completing? ==> s.db.sessions[sid].fileId.Blank?
    ensures var y := Apply(s, Repair(batch, before)).db.sessions[sid];
            y == s.db.sessions[sid] || y.status.Failed?
  {
    ReachableInv(s);
    assert RowOk(sid, s.db.sessions[sid], s.db.now);
  }

  /** A completed event exists exactly for every file made, once. */
  lemma CompletedEventsMatchFiles(s: State, sid: Id)
    requires Reachable(s)
    ensures forall f :: Announced(s.db.outbox, SessionCompleted(sid, f)) <==>
              f in s.db.files && s.db.files[f].location.key.session == sid
    ensures forall d, e | d in s.db.outbox && e in s.db.outbox && s.db.outbox[d].SessionCompleted? ::
              s.db.outbox[e].SessionCompleted? && s.db.outbox[d].session == s.db.outbox[e].session ==> d == e
  {
    ReachableInv(s);
    forall f ensures Announced(s.db.outbox, SessionCompleted(sid, f)) <==>
                     f in s.db.files && s.db.files[f].location.key.session == sid
    {
      if Announced(s.db.outbox, SessionCompleted(sid, f)) {
        var e :| e in s.db.outbox && s.db.outbox[e] == SessionCompleted(sid, f);
        assert EventOk(s.db.files, s.db.outbox[e]);
      }
    }
    forall d, e | d in s.db.outbox && e in s.db.outbox && s.db.outbox[d].SessionCompleted?
                  && s.db.outbox[e].SessionCompleted? && s.db.outbox[d].session == s.db.outbox[e].session
      ensures d == e
    {
      assert EventOk(s.db.files, s.db.outbox[d]) && EventOk(s.db.files, s.db.outbox[e]);
      OneFilePerSession(s, s.db.outbox[d].file, s.db.outbox[e].file);
    }
  }

  /** A file has exactly one delete request and one delete audit entry if it is DELETED, and none otherwise. */
  lemma DeleteEventsMatchFacts(s: State, f: Id)
    requires Reachable(s)
    ensures var requested := set e | e in s.db.outbox && s.db.outbox[e] == DeleteRequested(f);
            var audited := set a | a in s.db.audits && s.db.audits[a] == f;
            if f in s.db.files && s.db.files[f].status.Deleted? then |requested| == 1 && |audited| == 1
            else requested == {} && audited == {}
  {
    ReachableInv(s);
    DeleteRecordsMatch(s.db, f);
  }

  lemma DeleteRecordsMatch(db: Db, f: Id)
    requires Events(db.files, db.outbox) && Deletions(db.files, db.outbox, db.audits)
    ensures var requested := set e | e in db.outbox && db.outbox[e] == DeleteRequested(f);
            if f in db.files && db.files[f].status.Deleted? then |requested| == 1 else requested == {}
    ensures var audited := set a | a in db.audits && db.audits[a] == f;
            if f in db.files && db.files[f].status.Deleted? then |audited| == 1 else audited == {}
  {
    if f in db.files && db.files[f].status.Deleted? {
      assert Announced(db.outbox, DeleteRequested(f)) && Audited(db.audits, f);
      SoleRequest(db.outbox, f);
      SoleAudit(db.audits, f);
    } else {
      forall e | e in db.outbox ensures db.outbox[e] != DeleteRequested(f) {
        assert EventOk(db.files, db.outbox[e]);
      }
    }
  }

  lemma SoleRequest(outbox: EventTable, f: Id)
    requires Announced(outbox, DeleteRequested(f))
    requires forall d, e | d in outbox && e in outbox && outbox[d].DeleteRequested? :: outbox[d] == outbox[e] ==> d == e
    ensures |set e | e in outbox && outbox[e] == DeleteRequested(f)| == 1
  {
    var d :| d in outbox && outbox[d] == DeleteRequested(f);
    assert (set e | e in outbox && outbox[e] == DeleteRequested(f)) == {d};
  }

  lemma SoleAudit(audits: AuditTable, f: Id)
    requires Audited(audits, f)
    requires forall a, c :: a in audits && c in audits && audits[a] == audits[c] ==> a == c
    ensures |set a | a in audits && audits[a] == f| == 1
  {
    var a :| a in audits && audits[a] == f;
    assert (set c | c in audits && audits[c] == f) == {a};
  }

  // ---------------------------------------------------------------------------
  // Content whose last file is gone

  /** The commit of a dedup miss goes through exactly when no blob row, live or deleted, has that content. */
  lemma MissCommitsOnlyNewContent(s: State, r: Id, b: Id, f: Id, e: Id)
    requires Reachable(s) && r in s.requests && s.requests[r].Prepared?
    requires s.requests[r].mat.hit.None? && s.requests[r].mat.hash.Some?
    requires var sid := s.requests[r].snapshot.id;
             sid in s.db.sessions && s.db.sessions[sid].status.Completing?
             && s.db.sessions[sid].completionToken == s.requests[r].token
             && s.requests[r].mat.parts <= s.db.sessions[sid].totalParts
    requires b !in s.db.blobs && f !in s.db.files && e !in s.db.outbox
    ensures var x := s.requests[r].snapshot;
            Apply(s, Commit(r, b, f, e)).requests[r].result.Ok? <==>
            forall c :: c in s.db.blobs ==>
              !SameContent(x.tenant, x.location.bucket, s.requests[r].mat.hash.value, s.db.blobs[c])
  {
    ReachableInv(s);
    var q := s.requests[r];
    assert RequestOk(s.db, q);
    MissOutcome(s.db, q.snapshot, q.token, q.mat, b, f, e);
    CommitAnswers(s, r, b, f, e);
  }

  /** A commit answers its request with the result of the transaction. */
  lemma CommitAnswers(s: State, r: Id, b: Id, f: Id, e: Id)
    requires r in s.requests && s.requests[r].Prepared? && b !in s.db.blobs
    ensures var q := s.requests[r];
            && Apply(s, Commit(r, b, f, e)).requests[r].Finished?
            && Apply(s, Commit(r, b, f, e)).requests[r].result
               == CommitTx(s.db, q.snapshot.id, q.token, q.mat, b, f, e).result
  {
  }

  lemma MissOutcome(db: Db, x: SessionState, token: Text, mat: Materialized, b: Id, f: Id, e: Id)
    requires Rows(db) && Assets(db) && Identified(db, x) && mat.hit.None? && mat.hash.Some?
    requires db.sessions[x.id].status.Completing? && db.sessions[x.id].completionToken == token
    requires mat.parts <= db.sessions[x.id].totalParts && b !in db.blobs && f !in db.files && e !in db.outbox
    ensures CommitTx(db, x.id, token, mat, b, f, e).result.Ok? <==>
            forall c :: c in db.blobs ==> !SameContent(x.tenant, x.location.bucket, mat.hash.value, db.blobs[c])
  {
    var y := db.sessions[x.id];
    assert RowOk(x.id, y, db.now);
    NothingYet(db, x.id);
    CompletionAccepted(y, db.now, mat.parts, f);
    OnlyContentCollides(db.files, db.blobs, b, y.tenant, y.location, mat.hash.value,
                        EffectiveSize(mat.size, y.sizeBytes), db.now);
    CommitSucceedsUnlessRejected(db, y, mat, b, f, e);
  }

  lemma CompletionAccepted(y: SessionState, now: Time, parts: nat, f: Id)
    requires RowOk(y.id, y, now) && now > 0 && y.status.Completing? && parts <= y.totalParts
    ensures MarkCompleted(y.(completedParts := PartsAtCommit(y, parts)), Text(f), now).error.None?
    ensures UploadIdMatchesMode(y) && Loadable(y) && Validate(y).state == y
  {
    ValidateAcceptsExactly(y);
    ValidateAcceptsExactly(y.(completedParts := PartsAtCommit(y, parts), status := Completed, fileId := Text(f),
                              completedAt := Some(now), updatedAt := now));
  }

  lemma OnlyContentCollides(files: FileTable, blobs: BlobTable, b: Id, tenant: Id, location: ObjectRef,
                            hash: ContentHash, size: int, now: Time)
    requires Blobs(files, blobs) && !HasFile(files, location) && b !in blobs
    ensures UpsertRejected(blobs, b, UpsertedBlob(blobs, b, tenant, location, Some(hash), size, now)) <==>
            exists c :: c in blobs && SameContent(tenant, location.bucket, hash, blobs[c])
  {
    var row := UpsertedBlob(blobs, b, tenant, location, Some(hash), size, now);
    forall c | c in blobs ensures Conflicts(row, blobs[c]) <==> SameContent(tenant, location.bucket, hash, blobs[c]) {
      assert Anchored(files, c, blobs[c].location);
    }
    if c :| c in blobs && SameContent(tenant, location.bucket, hash, blobs[c]) {
      assert c != b && Conflicts(row, blobs[c]);
    }
  }

  lemma CommitSucceedsUnlessRejected(db: Db, y: SessionState, mat: Materialized, b: Id, f: Id, e: Id)
    requires y.id in db.sessions && db.sessions[y.id] == y && y.status.Completing? && !y.completionToken.Blank?
    requires Loadable(y) && Validate(y).state == y && mat.hit.None? && f !in db.files && e !in db.outbox
    requires MarkCompleted(y.(completedParts := PartsAtCommit(y, mat.parts)), Text(f), db.now).error.None?
    ensures CommitTx(db, y.id, y.completionToken, mat, b, f, e).result.Ok? <==>
            !UpsertRejected(db.blobs, b, UpsertedBlob(db.blobs, b, y.tenant, y.location, mat.hash,
                                                      EffectiveSize(mat.size, y.sizeBytes), db.now))
  {
  }

  /** A blob without ACTIVE files that no request still holds a dedup hit on. */
  predicate Dead(s: State, b: Id) {
    && b in s.db.blobs
    && s.db.blobs[b].refCount == 0
    && forall r :: r in s.requests && s.requests[r].Prepared? ==> s.requests[r].mat.hit != Some(b)
  }

  predicate StillDead(s: State, s': State, b: Id)
    requires b in s.db.blobs
  {
    Dead(s', b) && SameBlobIdentity(s.db.blobs[b], s'.db.blobs[b])
  }

  lemma DeadAfterPrepare(s: State, r: Id, env: Storage, b: Id)
    requires RefCounts(s.db.files, s.db.blobs) && Dead(s, b)
    ensures StillDead(s, Apply(s, Prepare(r, env)), b)
  {
    assert ActiveOn(s.db.files, b) == {};
  }

  lemma DeadAfterDelete(s: State, f: Id, audit: Id, e: Id, b: Id)
    requires RefCounts(s.db.files, s.db.blobs) && Dead(s, b)
    ensures StillDead(s, Apply(s, DeleteFile(f, audit, e)), b)
  {
  }

  lemma CommitTouchesOneBlob(db: Db, sid: Id, token: Text, mat: Materialized, c: Id, f: Id, e: Id, b: Id)
    requires b in db.blobs && b != c && mat.hit != Some(b)
    ensures var db' := CommitTx(db, sid, token, mat, c, f, e).db;
            b in db'.blobs && db'.blobs[b] == db.blobs[b]
  {
  }

  lemma DeadAfterCommit(s: State, r: Id, c: Id, f: Id, e: Id, b: Id)
    requires Dead(s, b)
    ensures StillDead(s, Apply(s, Commit(r, c, f, e)), b)
  {
    if r in s.requests && s.requests[r].Prepared? && c !in s.db.blobs {
      var q := s.requests[r];
      CommitTouchesOneBlob(s.db, q.snapshot.id, q.token, q.mat, c, f, e, b);
    }
  }

  lemma FailTouchesNoBlob(db: Db, sid: Id, token: Text, code: ErrorCode, text: Text, e: Id)
    ensures FailTx(db, sid, token, code, text, e).db.blobs == db.blobs
  {
  }

  lemma AcquireTouchesNoBlob(db: Db, sid: Id, token: Text)
    ensures AcquireTx(db, sid, token).db.blobs == db.blobs
  {
  }

  lemma DeadAfterRequest(s: State, a: Action, b: Id)
    requires Dead(s, b) && (a.BeginCompletion? || a.Fail? || a.Drop?)
    ensures StillDead(s, Apply(s, a), b)
  {
    match a
    case BeginCompletion(_, sid, token, _) => AcquireTouchesNoBlob(s.db, sid, token);
    case Fail(r, text, e) =>
      if r in s.requests && s.requests[r].Refused? {
        var q := s.requests[r];
        FailTouchesNoBlob(s.db, q.snapshot.id, q.token, q.code, text, e);
      }
    case Drop(_) =>
  }

  lemma DeadAfterOther(s: State, a: Action, b: Id)
    requires Dead(s, b) && !a.DeleteFile? && !RequestAction(a)
    ensures StillDead(s, Apply(s, a), b)
  {
    assert Apply(s, a).requests == s.requests;
  }

  lemma DeadStaysDead(s: State, a: Action, b: Id)
    requires RefCounts(s.db.files, s.db.blobs) && Dead(s, b)
    ensures StillDead(s, Apply(s, a), b)
  {
    match a
    case Prepare(r, env) => DeadAfterPrepare(s, r, env, b);
    case DeleteFile(f, audit, e) => DeadAfterDelete(s, f, audit, e, b);
    case Commit(r, c, f, e) => DeadAfterCommit(s, r, c, f, e, b);
    case BeginCompletion(_, _, _, _) => DeadAfterRequest(s, a, b);
    case Fail(_, _, _) => DeadAfterRequest(s, a, b);
    case Drop(_) => DeadAfterRequest(s, a, b);
    case _ => DeadAfterOther(s, a, b);
  }

  lemma {:induction false} DeadForever(s: State, actions: seq<Action>, b: Id)
    requires Inv(s) && Dead(s, b) && HarmlessRun(s, actions)
    ensures Dead(Exec(s, actions), b)
    ensures SameBlobIdentity(s.db.blobs[b], Exec(s, actions).db.blobs[b])
    decreases |actions|
  {
    if actions != [] {
      DeadStaysDead(s, actions[0], b);
      StepKeepsInv(s, actions[0]);
      DeadForever(Apply(s, actions[0]), actions[1..], b);
    }
  }

  /**
    * Once the last file of some content is deleted and no request still holds a hit on its blob, that content
    * never has an ACTIVE file again in its tenant and bucket: lookups skip the old row, and inserts collide with it.
    */
  lemma DeletedContentNeverReturns(s: State, actions: seq<Action>, b: Id, f: Id)
    requires Reachable(s) && Dead(s, b) && s.db.blobs[b].hash.Some? && HarmlessRun(s, actions)
    requires f in Exec(s, actions).db.files && Exec(s, actions).db.files[f].status.Active?
    ensures var end, gone := Exec(s, actions).db, s.db.blobs[b];
            var c := end.files[f].blob;
            c in end.blobs && !SameContent(gone.tenant, gone.location.bucket, gone.hash.value, end.blobs[c])
  {
    ReachableInv(s);
    DeadForever(s, actions, b);
    RunKeepsInv(s, actions);
    var end := Exec(s, actions).db;
    var c := end.files[f].blob;
    assert FileOk(end.sessions, end.blobs, end.files[f]);
    assert f in ActiveOn(end.files, c);
    assert c != b;
    assert !Conflicts(end.blobs[b], end.blobs[c]);
  }
}
