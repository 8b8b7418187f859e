/** What is in the objects: exactly when a file's recorded hash is still that of its object. */
module Contents {
  import opened Base
  import opened Sessions
  import opened Hashes
  import opened Database
  import opened Lifecycle
  import opened Invariant
  import opened SessionSteps
  import opened AssetSteps
  import opened Safety
  import opened History

  /** The service together with the digest of what was last written to each object. */
  datatype World = World(s: State, contents: map<ObjectRef, Digest>)

  /**
    * A step of the service, or a write to the object of a session. The inline handler writes before it checks the
    * status, and a presigned URL knows no status, so a write may come at any time.
    */
  datatype Move = Do(action: Action) | Put(sid: Id, digest: Digest)

  ghost function Next(w: World, m: Move): World {
    match m
    case Do(a) => w.(s := Apply(w.s, a))
    case Put(sid, d) =>
      if sid in w.s.db.sessions then w.(contents := w.contents[w.s.db.sessions[sid].location := d]) else w
  }

  ghost function ExecMoves(w: World, moves: seq<Move>): World
    decreases |moves|
  {
    if moves == [] then w else ExecMoves(Next(w, moves[0]), moves[1..])
  }

  /** Storage reports or computes the digest of what the object holds. */
  predicate Reports(env: Storage, contents: map<ObjectRef, Digest>, o: ObjectRef) {
    && (!env.checksum.NoDigest? ==> o in contents && contents[o] == env.checksum)
    && (env.checksumming.Computed? ==> o in contents && contents[o] == env.checksumming.digest)
  }

  predicate Honest(w: World, a: Action) {
    a.Prepare? && a.req in w.s.requests && w.s.requests[a.req].Owned? ==>
      Reports(a.env, w.contents, w.s.requests[a.req].snapshot.location)
  }

  /** The object holds what the hash says, if there is one. */
  predicate Verified(contents: map<ObjectRef, Digest>, o: ObjectRef, hash: Option<Digest>) {
    hash.Some? ==> o in contents && contents[o] == hash.value
  }

  predicate FilesIntact(files: FileTable, contents: map<ObjectRef, Digest>) {
    forall f :: f in files ==> Verified(contents, files[f].location, files[f].hash)
  }

  /** So it is for the uploads that have been verified and not committed yet. */
  predicate UploadsIntact(requests: map<Id, Request>, contents: map<ObjectRef, Digest>) {
    forall r :: r in requests && requests[r].Prepared? ==>
      Verified(contents, requests[r].snapshot.location, DigestOf(requests[r].mat.hash))
  }

  predicate Intact(w: World) {
    FilesIntact(w.s.db.files, w.contents) && UploadsIntact(w.s.requests, w.contents)
  }

  /** No file and no verified upload of the session says otherwise. */
  predicate Clean(w: World, sid: Id, d: Digest)
    requires sid in w.s.db.sessions
  {
    var o := w.s.db.sessions[sid].location;
    && (forall f :: f in w.s.db.files && w.s.db.files[f].location == o ==>
          w.s.db.files[f].hash.None? || w.s.db.files[f].hash == Some(d))
    && (forall r :: r in w.s.requests && w.s.requests[r].Prepared? && w.s.requests[r].snapshot.location == o ==>
          w.s.requests[r].mat.hash.None? || w.s.requests[r].mat.hash.value.digest == d)
  }

  /** A write keeps everything intact exactly when it is clean. */
  lemma PutExactly(w: World, sid: Id, d: Digest)
    requires Intact(w) && sid in w.s.db.sessions
    ensures Intact(Next(w, Put(sid, d))) <==> Clean(w, sid, d)
  {
    var w' := Next(w, Put(sid, d));
    var o := w.s.db.sessions[sid].location;
    if Intact(w') {
      forall f | f in w.s.db.files && w.s.db.files[f].location == o
        ensures w.s.db.files[f].hash.None? || w.s.db.files[f].hash == Some(d)
      {
        assert Verified(w'.contents, w'.s.db.files[f].location, w'.s.db.files[f].hash);
      }
    }
    if Clean(w, sid, d) {
      forall f | f in w'.s.db.files ensures Verified(w'.contents, w'.s.db.files[f].location, w'.s.db.files[f].hash) {
        assert Verified(w.contents, w.s.db.files[f].location, w.s.db.files[f].hash);
      }
    }
  }

  // ---------------------------------------------------------------------------
  // Steps of the service

  /** Every file was there before, with the same object and hash. */
  predicate FilesFrom(files: FileTable, files': FileTable) {
    forall f :: f in files' ==> f in files && files'[f].location == files[f].location && files'[f].hash == files[f].hash
  }

  predicate UploadsFrom(requests: map<Id, Request>, requests': map<Id, Request>) {
    forall r :: r in requests' && requests'[r].Prepared? ==> r in requests && requests[r] == requests'[r]
  }

  lemma IntactFrom(w: World, s': State)
    requires Intact(w) && FilesFrom(w.s.db.files, s'.db.files) && UploadsFrom(w.s.requests, s'.requests)
    ensures Intact(World(s', w.contents))
  {
  }

  lemma DeleteFrom(s: State, f: Id, audit: Id, e: Id)
    ensures var s' := Apply(s, DeleteFile(f, audit, e));
            FilesFrom(s.db.files, s'.db.files) && UploadsFrom(s.requests, s'.requests)
  {
  }

  lemma AcquireTouchesNoFile(db: Db, sid: Id, token: Text)
    ensures AcquireTx(db, sid, token).db.files == db.files
  {
  }

  lemma FailTouchesNoFile(db: Db, sid: Id, token: Text, code: ErrorCode, text: Text, e: Id)
    ensures FailTx(db, sid, token, code, text, e).db.files == db.files
  {
  }

  lemma BeginFrom(s: State, r: Id, sid: Id, token: Text, declared: Option<ContentHash>)
    ensures var s' := Apply(s, BeginCompletion(r, sid, token, declared));
            FilesFrom(s.db.files, s'.db.files) && UploadsFrom(s.requests, s'.requests)
  {
    AcquireTouchesNoFile(s.db, sid, token);
  }

  lemma FailFrom(s: State, r: Id, text: Text, e: Id)
    ensures var s' := Apply(s, Fail(r, text, e));
            FilesFrom(s.db.files, s'.db.files) && UploadsFrom(s.requests, s'.requests)
  {
    if r in s.requests && s.requests[r].Refused? {
      var q := s.requests[r];
      FailTouchesNoFile(s.db, q.snapshot.id, q.token, q.code, text, e);
    }
  }

  lemma SessionActionFrom(s: State, a: Action)
    requires SessionAction(a)
    ensures var s' := Apply(s, a); s'.db.files == s.db.files && s'.requests == s.requests
  {
  }

  lemma OtherFrom(s: State, a: Action)
    requires !SessionAction(a) && !a.DeleteFile? && (RequestAction(a) ==> a.Drop?)
    ensures var s' := Apply(s, a);
            FilesFrom(s.db.files, s'.db.files) && UploadsFrom(s.requests, s'.requests)
  {
    assert Apply(s, a).db.files == s.db.files;
  }

  /** What is verified is what the object holds. */
  lemma MaterializedIsVerified(db: Db, x: SessionState, declared: Option<ContentHash>, env: Storage,
                               contents: map<ObjectRef, Digest>)
    requires Sound(x.hash) && Reports(env, contents, x.location)
    ensures var m := Materialize(db, x, declared, env);
            m.Ok? ==> Verified(contents, x.location, DigestOf(m.value.hash))
  {
    var expected := ResolveExpected(x.hash, declared);
    if expected.Ok? {
      var checksum := VerifiedChecksum(expected.value, env);
      if checksum.Ok? { FiledUnderTheVerifiedHash(x.hash, declared, checksum.value); }
    }
  }

  lemma PrepareIntact(w: World, r: Id, env: Storage)
    requires Rows(w.s.db) && Requests(w.s) && Intact(w) && Honest(w, Prepare(r, env))
    ensures Intact(Next(w, Do(Prepare(r, env))))
  {
    if r in w.s.requests && w.s.requests[r].Owned? {
      var q := w.s.requests[r];
      assert RequestOk(w.s.db, q) && RowOk(q.snapshot.id, w.s.db.sessions[q.snapshot.id], w.s.db.now);
      MaterializedIsVerified(w.s.db, q.snapshot, q.declared, env, w.contents);
      assert Apply(w.s, Prepare(r, env)).db == w.s.db;
    }
  }

  /** The only new file of a commit is the verified upload it commits. */
  lemma CommitFrom(db: Db, x: SessionState, token: Text, mat: Materialized, b: Id, f: Id, e: Id)
    requires Rows(db) && Files(db.sessions, db.blobs, db.files) && Identified(db, x) && HitOk(db.blobs, x, mat)
    requires (x.hash.Some? ==> mat.hash == x.hash) && b !in db.blobs
    ensures var files := CommitTx(db, x.id, token, mat, b, f, e).db.files;
            || files == db.files
            || (&& f !in db.files && f in files && files == db.files[f := files[f]]
                && files[f].location == x.location && files[f].hash == DigestOf(mat.hash))
  {
    CommitOutcome(db, x, token, mat, b, f, e);
  }

  lemma CommitIs(s: State, r: Id, b: Id, f: Id, e: Id)
    ensures var s' := Apply(s, Commit(r, b, f, e));
            && UploadsFrom(s.requests, s'.requests)
            && (s'.db == s.db
                || (r in s.requests && s.requests[r].Prepared? && b !in s.db.blobs
                    && s'.db == CommitTx(s.db, s.requests[r].snapshot.id, s.requests[r].token, s.requests[r].mat,
                                         b, f, e).db))
  {
  }

  lemma CommitFilesIntact(w: World, r: Id, b: Id, f: Id, e: Id)
    requires Rows(w.s.db) && Files(w.s.db.sessions, w.s.db.blobs, w.s.db.files) && Requests(w.s) && Intact(w)
    requires r in w.s.requests && w.s.requests[r].Prepared? && b !in w.s.db.blobs
    ensures var q := w.s.requests[r];
            FilesIntact(CommitTx(w.s.db, q.snapshot.id, q.token, q.mat, b, f, e).db.files, w.contents)
  {
    var q := w.s.requests[r];
    assert RequestOk(w.s.db, q);
    CommitFrom(w.s.db, q.snapshot, q.token, q.mat, b, f, e);
  }

  lemma CommitIntact(w: World, r: Id, b: Id, f: Id, e: Id)
    requires Rows(w.s.db) && Files(w.s.db.sessions, w.s.db.blobs, w.s.db.files) && Requests(w.s) && Intact(w)
    ensures Intact(Next(w, Do(Commit(r, b, f, e))))
  {
    CommitIs(w.s, r, b, f, e);
    if r in w.s.requests && w.s.requests[r].Prepared? && b !in w.s.db.blobs { CommitFilesIntact(w, r, b, f, e); }
  }

  lemma StepIntact(w: World, a: Action)
    requires Inv(w.s) && Intact(w) && Honest(w, a)
    ensures Intact(Next(w, Do(a)))
  {
    match a
    case Prepare(r, env) => PrepareIntact(w, r, env);
    case Commit(r, b, f, e) => CommitIntact(w, r, b, f, e);
    case DeleteFile(f, audit, e) =>
      DeleteFrom(w.s, f, audit, e);
      IntactFrom(w, Apply(w.s, a));
    case BeginCompletion(r, sid, token, declared) =>
      BeginFrom(w.s, r, sid, token, declared);
      IntactFrom(w, Apply(w.s, a));
    case Fail(r, text, e) =>
      FailFrom(w.s, r, text, e);
      IntactFrom(w, Apply(w.s, a));
    case _ =>
      if SessionAction(a) { SessionActionFrom(w.s, a); } else { OtherFrom(w.s, a); }
      IntactFrom(w, Apply(w.s, a));
  }

  // ---------------------------------------------------------------------------
  // Whole runs

  /** Harmless saves, an honest storage, and clean writes. */
  predicate Good(w: World, m: Move) {
    match m
    case Do(a) => Harmless(w.s, a) && Honest(w, a)
    case Put(sid, d) => sid in w.s.db.sessions ==> Clean(w, sid, d)
  }

  ghost predicate GoodRun(w: World, moves: seq<Move>)
    decreases |moves|
  {
    moves == [] || (Good(w, moves[0]) && GoodRun(Next(w, moves[0]), moves[1..]))
  }

  lemma {:induction false} GoodRunKeepsIntact(w: World, moves: seq<Move>)
    requires Inv(w.s) && Intact(w) && GoodRun(w, moves)
    ensures Inv(ExecMoves(w, moves).s) && Intact(ExecMoves(w, moves))
    decreases |moves|
  {
    if moves != [] {
      match moves[0] {
        case Do(a) =>
          StepKeepsInv(w.s, a);
          StepIntact(w, a);
        case Put(sid, d) => if sid in w.s.db.sessions { PutExactly(w, sid, d); }
      }
      GoodRunKeepsIntact(Next(w, moves[0]), moves[1..]);
    }
  }

  /** If all writes are clean, every file's recorded hash is that of its object, at all times. */
  lemma CleanWritesKeepContent(w: World, moves: seq<Move>, f: Id)
    requires Initial(w.s) && GoodRun(w, moves) && f in ExecMoves(w, moves).s.db.files
    ensures var end := ExecMoves(w, moves);
            Verified(end.contents, end.s.db.files[f].location, end.s.db.files[f].hash)
  {
    InitialInv(w.s);
    GoodRunKeepsIntact(w, moves);
  }

  /** A write that is not clean shows in the file at once, */
  lemma DirtyWriteShows(w: World, sid: Id, d: Digest, f: Id)
    requires sid in w.s.db.sessions && f in w.s.db.files && w.s.db.files[f].location == w.s.db.sessions[sid].location
    ensures var end := Next(w, Put(sid, d));
            Verified(end.contents, end.s.db.files[f].location, end.s.db.files[f].hash)
            <==> w.s.db.files[f].hash.None? || w.s.db.files[f].hash == Some(d)
  {
  }

  /** or in the file that the verified upload becomes. */
  lemma DirtyUploadShows(w: World, r: Id, b: Id, f: Id, e: Id)
    requires Inv(w.s) && r in w.s.requests && w.s.requests[r].Prepared? && f !in w.s.db.files
    requires f in Apply(w.s, Commit(r, b, f, e)).db.files
    ensures var q, file := w.s.requests[r], Apply(w.s, Commit(r, b, f, e)).db.files[f];
            Verified(w.contents, file.location, file.hash)
            <==> Verified(w.contents, q.snapshot.location, DigestOf(q.mat.hash))
  {
    UploadBecomesFile(w.s, r, b, f, e);
  }

  lemma UploadBecomesFile(s: State, r: Id, b: Id, f: Id, e: Id)
    requires Rows(s.db) && Files(s.db.sessions, s.db.blobs, s.db.files) && Requests(s)
    requires r in s.requests && s.requests[r].Prepared? && f !in s.db.files
    requires f in Apply(s, Commit(r, b, f, e)).db.files
    ensures var q, file := s.requests[r], Apply(s, Commit(r, b, f, e)).db.files[f];
            file.location == q.snapshot.location && file.hash == DigestOf(q.mat.hash)
  {
    var q := s.requests[r];
    assert RequestOk(s.db, q);
    CommitFrom(s.db, q.snapshot, q.token, q.mat, b, f, e);
  }

  // ---------------------------------------------------------------------------
  // Writes that come before the completion

  predicate Open(s: State, sid: Id) {
    sid in s.db.sessions && (s.db.sessions[sid].status.Initiated? || s.db.sessions[sid].status.Uploading?)
  }

  /** A completion request that is not finished belongs to a session whose completion has begun. */
  predicate HasBegun(sessions: SessionTable, q: Request) {
    q.Finished? || (q.snapshot.id in sessions && Rank(sessions[q.snapshot.id].status) >= 2)
  }

  predicate Begun(s: State) {
    forall r :: r in s.requests ==> HasBegun(s.db.sessions, s.requests[r])
  }

  predicate Follows(q: Request, q': Request) {
    q'.Finished? || (!q.Finished? && q.snapshot == q'.snapshot)
  }

  /** Requests only move on, except for new ones on sessions whose completion has begun. */
  predicate RequestsFrom(s: State, s': State) {
    forall r :: r in s'.requests ==>
      || HasBegun(s'.db.sessions, s'.requests[r])
      || (r in s.requests && Follows(s.requests[r], s'.requests[r]))
  }

  lemma StillBegun(sessions: SessionTable, sessions': SessionTable, q: Request, q': Request)
    requires HasBegun(sessions, q) && Follows(q, q') && AllAdvance(sessions, sessions')
    ensures HasBegun(sessions', q')
  {
  }

  lemma BegunKept(s: State, s': State)
    requires Begun(s) && RequestsFrom(s, s') && AllAdvance(s.db.sessions, s'.db.sessions)
    ensures Begun(s')
  {
    forall r | r in s'.requests ensures HasBegun(s'.db.sessions, s'.requests[r]) {
      if !HasBegun(s'.db.sessions, s'.requests[r]) {
        StillBegun(s.db.sessions, s'.db.sessions, s.requests[r], s'.requests[r]);
      }
    }
  }

  lemma AnswerHasBegun(t: Tx<Acquisition>, sid: Id, token: Text, declared: Option<ContentHash>)
    requires t.result.Ok? ==>
      var x, ownership := t.result.value.session, t.result.value.ownership;
      && sid in t.db.sessions && x == t.db.sessions[sid] && x.id == sid
      && (ownership.Acquired? || ownership.HeldByCaller? ==> x.status.Completing?)
    ensures HasBegun(t.db.sessions, AfterAcquire(t, sid, token, declared))
  {
  }

  lemma AcquiredHasBegun(db: Db, sid: Id, token: Text, declared: Option<ContentHash>)
    requires Rows(db)
    ensures var t := AcquireTx(db, sid, token); HasBegun(t.db.sessions, AfterAcquire(t, sid, token, declared))
  {
    SessionSteps.Acquired(db, sid, token);
    var t := AcquireTx(db, sid, token);
    if t.result.Ok? { assert RowOk(sid, t.db.sessions[sid], t.db.now); }
    AnswerHasBegun(t, sid, token, declared);
  }

  lemma BeginRequests(s: State, r: Id, sid: Id, token: Text, declared: Option<ContentHash>)
    requires Rows(s.db)
    ensures RequestsFrom(s, Apply(s, BeginCompletion(r, sid, token, declared)))
  {
    AcquiredHasBegun(s.db, sid, token, declared);
  }

  lemma OtherRequests(s: State, a: Action)
    requires RequestAction(a) && !a.BeginCompletion?
    ensures RequestsFrom(s, Apply(s, a))
  {
  }

  lemma NoRequests(s: State, a: Action)
    requires !RequestAction(a)
    ensures RequestsFrom(s, Apply(s, a))
  {
    assert Apply(s, a).requests == s.requests;
  }

  lemma StepKeepsBegun(s: State, a: Action)
    requires Inv(s) && Begun(s) && Timely(s, a)
    ensures Begun(Apply(s, a))
  {
    if a.BeginCompletion? {
      BeginRequests(s, a.req, a.sid, a.token, a.declared);
    } else if RequestAction(a) {
      OtherRequests(s, a);
    } else {
      NoRequests(s, a);
    }
    StepMoves(s, a);
    BegunKept(s, Apply(s, a));
  }

  /** A write to a session that is still open is clean. */
  lemma OpenWriteIsClean(w: World, sid: Id, d: Digest)
    requires Inv(w.s) && Begun(w.s) && Open(w.s, sid)
    ensures Clean(w, sid, d)
  {
    NothingYet(w.s.db, sid);
    assert RowOk(sid, w.s.db.sessions[sid], w.s.db.now);
    forall r | r in w.s.requests && w.s.requests[r].Prepared?
      ensures w.s.requests[r].snapshot.location != w.s.db.sessions[sid].location
    {
      var x := w.s.requests[r].snapshot;
      assert RequestOk(w.s.db, w.s.requests[r]) && RowOk(x.id, w.s.db.sessions[x.id], w.s.db.now);
    }
  }

  /** Timely saves, an honest storage, and writes that meet an open session. */
  predicate Checked(w: World, m: Move) {
    match m
    case Do(a) => Timely(w.s, a) && Honest(w, a)
    case Put(sid, d) => sid in w.s.db.sessions ==> Open(w.s, sid)
  }

  ghost predicate CheckedRun(w: World, moves: seq<Move>)
    decreases |moves|
  {
    moves == [] || (Checked(w, moves[0]) && CheckedRun(Next(w, moves[0]), moves[1..]))
  }

  lemma {:induction false} CheckedRunIsGood(w: World, moves: seq<Move>)
    requires Inv(w.s) && Begun(w.s) && CheckedRun(w, moves)
    ensures GoodRun(w, moves)
    decreases |moves|
  {
    if moves != [] {
      match moves[0] {
        case Do(a) =>
          TimelyIsHarmless(w.s, a);
          StepKeepsInv(w.s, a);
          StepKeepsBegun(w.s, a);
        case Put(sid, d) => if sid in w.s.db.sessions { OpenWriteIsClean(w, sid, d); }
      }
      CheckedRunIsGood(Next(w, moves[0]), moves[1..]);
    }
  }

  /** If every write met a session that is still open, every file's recorded hash would be that of its object. */
  lemma CheckedWritesKeepContent(w: World, moves: seq<Move>, f: Id)
    requires Initial(w.s) && CheckedRun(w, moves) && f in ExecMoves(w, moves).s.db.files
    ensures var end := ExecMoves(w, moves);
            Verified(end.contents, end.s.db.files[f].location, end.s.db.files[f].hash)
  {
    InitialInv(w.s);
    CheckedRunIsGood(w, moves);
    CleanWritesKeepContent(w, moves, f);
  }

  /**
    * The inline handler refuses a session that has a file, yet its write has been made: the file's hash is still that
    * of its object exactly when the same content was written again.
    */
  lemma RefusedWriteOverwrites(w: World, sid: Id, d: Digest, f: Id)
    requires Inv(w.s) && f in w.s.db.files && w.s.db.files[f].location.key.session == sid && w.s.db.files[f].hash.Some?
    ensures sid in w.s.db.sessions && UploadingRow(w.s.db, sid, 1).Err?
    ensures var end := Next(w, Put(sid, d));
            Verified(end.contents, end.s.db.files[f].location, end.s.db.files[f].hash)
            <==> w.s.db.files[f].hash == Some(d)
  {
    assert FileOk(w.s.db.sessions, w.s.db.blobs, w.s.db.files[f]);
    TerminalIsRefused(w.s.db, sid);
    DirtyWriteShows(w, sid, d, f);
  }

  lemma TerminalIsRefused(db: Db, sid: Id)
    requires Rows(db) && sid in db.sessions && Terminal(db.sessions[sid].status)
    ensures UploadingRow(db, sid, 1).Err?
  {
    ReadIsTheRow(db, sid);
  }

  // ---------------------------------------------------------------------------
  // What the service can reach with writes at any time

  predicate Allowed(w: World, m: Move) {
    m.Do? ==> Harmless(w.s, m.action) && Honest(w, m.action)
  }

  ghost predicate AllowedRun(w: World, moves: seq<Move>)
    decreases |moves|
  {
    moves == [] || (Allowed(w, moves[0]) && AllowedRun(Next(w, moves[0]), moves[1..]))
  }

  ghost predicate ReachableWorld(w: World) {
    exists w0: World, moves: seq<Move> :: Initial(w0.s) && AllowedRun(w0, moves) && w == ExecMoves(w0, moves)
  }

  lemma {:induction false} MoveAppend(w: World, moves: seq<Move>, m: Move)
    requires AllowedRun(w, moves) && Allowed(ExecMoves(w, moves), m)
    ensures AllowedRun(w, moves + [m]) && ExecMoves(w, moves + [m]) == Next(ExecMoves(w, moves), m)
    decreases |moves|
  {
    if moves == [] {
      assert moves + [m] == [m];
    } else {
      MoveAppend(Next(w, moves[0]), moves[1..], m);
      assert (moves + [m])[0] == moves[0] && (moves + [m])[1..] == moves[1..] + [m];
    }
  }

  lemma ReachableMove(w: World, m: Move)
    requires ReachableWorld(w) && Allowed(w, m)
    ensures ReachableWorld(Next(w, m))
  {
    var w0: World, moves: seq<Move> :| Initial(w0.s) && AllowedRun(w0, moves) && w == ExecMoves(w0, moves);
    MoveAppend(w0, moves, m);
  }

  lemma InitialWorld(w: World)
    requires Initial(w.s)
    ensures ReachableWorld(w)
  {
    var none: seq<Move> := [];
    assert AllowedRun(w, none) && ExecMoves(w, none) == w;
  }
}
