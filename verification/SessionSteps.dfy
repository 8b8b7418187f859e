/** The steps that change sessions but no file, blob or usage row keep the invariant. */
module SessionSteps {
  import opened Base
  import opened Sessions
  import opened Database
  import opened Lifecycle
  import opened Invariant

  /** What a session may become without any file being made. */
  predicate QuietStep(x: SessionState, y: SessionState) {
    && SameIdentity(x, y)
    && (y.status.Completed? ==> x == y)
  }

  /** A session with a file stays terminal. */
  predicate EndingsStand(sessions: SessionTable, sessions': SessionTable, files: FileTable) {
    forall sid :: sid in sessions && Terminal(sessions[sid].status) && Filed(files, sid) ==>
      sid in sessions' && Terminal(sessions'[sid].status)
  }

  predicate SessionsQuiet(db: Db, db': Db) {
    && (forall sid :: sid in db.sessions ==> sid in db'.sessions && QuietStep(db.sessions[sid], db'.sessions[sid]))
    && (forall sid :: sid in db'.sessions && sid !in db.sessions ==> !db'.sessions[sid].status.Completed?)
    && EndingsStand(db.sessions, db'.sessions, db.files)
  }

  predicate OnlySessionsDiffer(db: Db, db': Db) {
    db' == db.(sessions := db'.sessions)
  }

  lemma AssetsKept(db: Db, db': Db)
    requires Assets(db) && SessionsQuiet(db, db') && OnlySessionsDiffer(db, db')
    ensures Assets(db')
  {
    forall f | f in db'.files ensures FileOk(db'.sessions, db'.blobs, db'.files[f]) {
      assert FileOk(db.sessions, db.blobs, db.files[f]);
      assert Filed(db.files, db.files[f].location.key.session);
    }
    forall sid | sid in db'.sessions && db'.sessions[sid].status.Completed?
      ensures CompletedFile(db'.files, db'.sessions[sid])
    {
      assert CompletedFile(db.files, db.sessions[sid]);
    }
  }

  /** Whatever handlers hold stays good when sessions keep their identity and nothing is removed. */
  predicate Extends(db: Db, db': Db) {
    && (forall sid :: sid in db.sessions ==> sid in db'.sessions && SameIdentity(db.sessions[sid], db'.sessions[sid]))
    && (forall b :: b in db.blobs ==>
          b in db'.blobs && db'.blobs[b].tenant == db.blobs[b].tenant && db'.blobs[b].hash == db.blobs[b].hash
          && db'.blobs[b].location.bucket == db.blobs[b].location.bucket)
    && (forall f :: f in db.files ==> f in db'.files && db'.files[f].location == db.files[f].location
                                         && db'.files[f].hash == db.files[f].hash)
  }

  lemma CopiesKept(s: State, s': State)
    requires Copies(s) && Extends(s.db, s'.db)
    requires forall t :: t in s'.aborts ==> t in s.aborts && s'.aborts[t] == s.aborts[t]
    requires forall t :: t in s'.uploads ==> t in s.uploads && s'.uploads[t] == s.uploads[t]
    ensures Copies(s')
  {
  }

  lemma RequestsKept(s: State, s': State)
    requires Requests(s) && Extends(s.db, s'.db)
    requires forall r :: r in s'.requests ==>
      (r in s.requests && s'.requests[r] == s.requests[r]) || RequestOk(s'.db, s'.requests[r])
    ensures Requests(s')
  {
    forall r | r in s'.requests ensures RequestOk(s'.db, s'.requests[r]) {
      if r in s.requests && s'.requests[r] == s.requests[r] {
        assert RequestOk(s.db, s.requests[r]);
      }
    }
  }

  /** The common ending of every step that only changes tables. */
  lemma TablesOnlyKeep(s: State, s': State)
    requires Copies(s) && Requests(s) && s' == s.(db := s'.db)
    requires Rows(s'.db) && Assets(s'.db) && Extends(s.db, s'.db)
    ensures Inv(s')
  {
    CopiesKept(s, s');
    RequestsKept(s, s');
  }

  lemma QuietExtends(db: Db, db': Db)
    requires SessionsQuiet(db, db') && OnlySessionsDiffer(db, db')
    ensures Extends(db, db')
  {
  }

  // ---------------------------------------------------------------------------

  lemma TickKeeps(s: State, elapsed: nat)
    requires Inv(s)
    ensures Inv(Apply(s, Tick(elapsed)))
  {
    var s' := Apply(s, Tick(elapsed));
    CopiesKept(s, s');
    RequestsKept(s, s');
  }

  lemma CreatedRow(db: Db, x: SessionState)
    requires Rows(db) && Creatable(db, x)
    ensures var db' := db.(sessions := db.sessions[x.id := Validate(x).state]);
            Rows(db') && SessionsQuiet(db, db') && OnlySessionsDiffer(db, db')
  {
    ValidateAcceptsExactly(x);
    ValidateTouchesOnlyTotalParts(x);
  }

  lemma CreateSessionKeeps(s: State, x: SessionState)
    requires Inv(s)
    ensures Inv(Apply(s, CreateSession(x)))
  {
    if Creatable(s.db, x) {
      CreatedRow(s.db, x);
      SessionsOnlyKeeps(s, Apply(s, CreateSession(x)));
    }
  }

  /** The common ending of every step that only rewrites sessions. */
  lemma SessionsOnlyKeeps(s: State, s': State)
    requires Inv(s) && Rows(s'.db)
    requires SessionsQuiet(s.db, s'.db) && OnlySessionsDiffer(s.db, s'.db)
    requires forall t :: t in s'.aborts ==> t in s.aborts && s'.aborts[t] == s.aborts[t]
    requires forall t :: t in s'.uploads ==> t in s.uploads && s'.uploads[t] == s.uploads[t]
    requires forall r :: r in s'.requests ==>
      (r in s.requests && s'.requests[r] == s.requests[r]) || RequestOk(s'.db, s'.requests[r])
    ensures Inv(s')
  {
    QuietExtends(s.db, s'.db);
    AssetsKept(s.db, s'.db);
    CopiesKept(s, s');
    RequestsKept(s, s');
  }

  /** A row that loads is the stored row, and carries its upload id. */
  lemma ReadIsTheRow(db: Db, sid: Id)
    requires Rows(db)
    ensures var r := ReadSession(db, sid);
            && (r.Ok? ==> sid in db.sessions && r.value == db.sessions[sid] && UploadIdMatchesMode(r.value))
            && (r.Ok? <==> sid in db.sessions && UploadIdMatchesMode(db.sessions[sid]))
  {
    if sid in db.sessions {
      ValidateAcceptsExactly(db.sessions[sid]);
    }
  }

  /** One row replaced by a good one. */
  lemma OneRowReplaced(db: Db, x: SessionState)
    requires Rows(db) && Identified(db, x) && RowOk(x.id, x, db.now) && QuietStep(db.sessions[x.id], x)
    requires Terminal(db.sessions[x.id].status) && Filed(db.files, x.id) ==> Terminal(x.status)
    ensures var db' := db.(sessions := db.sessions[x.id := x]);
            Rows(db') && SessionsQuiet(db, db') && OnlySessionsDiffer(db, db')
  {
  }

  lemma NothingReplaced(db: Db)
    requires Rows(db)
    ensures SessionsQuiet(db, db) && OnlySessionsDiffer(db, db)
  {
  }

  lemma AbortRowOk(db: Db, sid: Id)
    requires Rows(db)
    ensures AbortRow(db, sid).Ok? ==> AbortOk(db, AbortRow(db, sid).value)
  {
    ReadIsTheRow(db, sid);
    if sid in db.sessions {
      assert RowOk(sid, db.sessions[sid], db.now);
    }
  }

  lemma UploadingRowOk(db: Db, sid: Id, parts: nat)
    requires Rows(db)
    ensures UploadingRow(db, sid, parts).Ok? ==> UploadOk(db, UploadingRow(db, sid, parts).value)
  {
    ReadIsTheRow(db, sid);
    if sid in db.sessions {
      assert RowOk(sid, db.sessions[sid], db.now);
    }
  }

  lemma NewCopy(s: State, s': State, task: Id, x: SessionState)
    requires Inv(s)
    requires || (s' == s.(aborts := s.aborts[task := x]) && AbortOk(s.db, x))
             || (s' == s.(uploads := s.uploads[task := x]) && UploadOk(s.db, x))
    ensures Inv(s')
  {
    assert s'.db == s.db;
    assert Requests(s');
  }

  lemma ReadAbortKeeps(s: State, task: Id, sid: Id)
    requires Inv(s)
    ensures Inv(Apply(s, ReadAbort(task, sid)))
  {
    var row := AbortRow(s.db, sid);
    if row.Ok? {
      AbortRowOk(s.db, sid);
      NewCopy(s, Apply(s, ReadAbort(task, sid)), task, row.value);
    }
  }

  lemma ReadUploadingKeeps(s: State, task: Id, sid: Id, parts: nat)
    requires Inv(s)
    ensures Inv(Apply(s, ReadUploading(task, sid, parts)))
  {
    var row := UploadingRow(s.db, sid, parts);
    if row.Ok? {
      UploadingRowOk(s.db, sid, parts);
      NewCopy(s, Apply(s, ReadUploading(task, sid, parts)), task, row.value);
    }
  }

  lemma SavedAbort(db: Db, x: SessionState)
    requires Rows(db) && AbortOk(db, x)
    ensures var db' := SaveSession(db, x).db;
            Rows(db') && SessionsQuiet(db, db') && OnlySessionsDiffer(db, db')
  {
    assert RowOk(x.id, db.sessions[x.id], db.now);
    OneRowReplaced(db, x);
    NothingReplaced(db);
  }

  lemma SaveAbortKeeps(s: State, task: Id)
    requires Inv(s)
    ensures Inv(Apply(s, SaveAbort(task)))
  {
    NothingReplaced(s.db);
    if task in s.aborts {
      SavedAbort(s.db, s.aborts[task]);
    }
    SessionsOnlyKeeps(s, Apply(s, SaveAbort(task)));
  }

  lemma SavedUpload(db: Db, x: SessionState)
    requires Rows(db) && UploadOk(db, x) && !Filed(db.files, x.id)
    ensures var db' := SaveSession(db, x).db;
            Rows(db') && SessionsQuiet(db, db') && OnlySessionsDiffer(db, db')
  {
    assert RowOk(x.id, db.sessions[x.id], db.now);
    if RowAccepted(x) {
      OneRowReplaced(db, x);
    }
    NothingReplaced(db);
  }

  lemma SaveUploadingKeeps(s: State, task: Id)
    requires Inv(s) && Harmless(s, SaveUploading(task))
    ensures Inv(Apply(s, SaveUploading(task)))
  {
    NothingReplaced(s.db);
    if task in s.uploads {
      SavedUpload(s.db, s.uploads[task]);
    }
    SessionsOnlyKeeps(s, Apply(s, SaveUploading(task)));
  }

  lemma AcquiredRow(sid: Id, x: SessionState, token: Text, now: Time)
    requires RowOk(sid, x, now) && now > 0
    ensures var (after, ownership) := AcquireCompletion(x, token, now);
            && (ownership.Acquired? ==>
                  && after.error.None? && RowOk(sid, after.state, now) && QuietStep(x, after.state)
                  && after.state.id == sid && RowAccepted(after.state)
                  && (x.status.Initiated? || x.status.Uploading?) && after.state.status.Completing?)
            && (!ownership.Acquired? ==> after.state == x)
            && (ownership.HeldByCaller? ==> x.status.Completing?)
  {
  }

  lemma Acquired(db: Db, sid: Id, token: Text)
    requires Rows(db)
    ensures var t := AcquireTx(db, sid, token);
            && Rows(t.db) && SessionsQuiet(db, t.db) && OnlySessionsDiffer(db, t.db)
            && (t.result.Ok? ==>
                  && sid in db.sessions
                  && t.result.value.session == t.db.sessions[sid]
                  && (t.result.value.ownership.AlreadyDone? <==> t.db.sessions[sid].status.Completed?)
                  && (t.result.value.ownership.Acquired? || t.result.value.ownership.HeldByCaller? ==>
                        t.db.sessions[sid].status.Completing?))
  {
    ReadIsTheRow(db, sid);
    NothingReplaced(db);
    if sid in db.sessions {
      var x := db.sessions[sid];
      assert RowOk(sid, x, db.now);
      var (after, ownership) := AcquireCompletion(x, token, db.now);
      AcquiredRow(sid, x, token, db.now);
      if ownership.Acquired? { OneRowReplaced(db, after.state); }
    }
  }

  lemma BeginCompletionKeeps(s: State, req: Id, sid: Id, token: Text, declared: Option<ContentHash>)
    requires Inv(s)
    ensures Inv(Apply(s, BeginCompletion(req, sid, token, declared)))
  {
    var s' := Apply(s, BeginCompletion(req, sid, token, declared));
    if req !in s.requests {
      var t := AcquireTx(s.db, sid, token);
      Acquired(s.db, sid, token);
      AcquiredRequestOk(s.db, sid, token, declared);
      assert s'.db == t.db && s'.requests[req] == AfterAcquire(t, sid, token, declared);
      SessionsOnlyKeeps(s, s');
    }
  }

  lemma AnswerOk(t: Tx<Acquisition>, sid: Id, token: Text, declared: Option<ContentHash>)
    requires t.result.Ok? ==>
      var x := t.result.value.session;
      && sid in t.db.sessions && x == t.db.sessions[sid] && RowOk(sid, x, t.db.now)
      && (t.result.value.ownership.AlreadyDone? ==> CompletedFile(t.db.files, x))
    ensures RequestOk(t.db, AfterAcquire(t, sid, token, declared))
  {
  }

  lemma AcquiredRequestOk(db: Db, sid: Id, token: Text, declared: Option<ContentHash>)
    requires Rows(db) && Files(db.sessions, db.blobs, db.files)
    ensures var t := AcquireTx(db, sid, token);
            RequestOk(t.db, AfterAcquire(t, sid, token, declared))
  {
    Acquired(db, sid, token);
    var t := AcquireTx(db, sid, token);
    if t.result.Ok? && t.result.value.ownership.AlreadyDone? {
      assert CompletedFile(db.files, db.sessions[sid]);
    }
    AnswerOk(t, sid, token, declared);
  }

  lemma ExpireRowOk(sid: Id, x: SessionState, now: Time)
    requires RowOk(sid, x, now) && now > 0 && (!Terminal(x.status))
    ensures var y := ExpiredRow(x, now);
            RowOk(sid, y, now) && QuietStep(x, y) && Terminal(y.status)
  {
  }

  lemma ExpireRows(db: Db, batch: set<Id>, before: Time)
    requires Rows(db)
    ensures var db' := ExpireTx(db, batch, before);
            Rows(db') && SessionsQuiet(db, db') && OnlySessionsDiffer(db, db')
  {
    var db' := ExpireTx(db, batch, before);
    forall sid | sid in db.sessions
      ensures RowOk(sid, db'.sessions[sid], db.now) && QuietStep(db.sessions[sid], db'.sessions[sid])
      ensures Terminal(db.sessions[sid].status) ==> Terminal(db'.sessions[sid].status)
    {
      assert RowOk(sid, db.sessions[sid], db.now);
      if db'.sessions[sid] != db.sessions[sid] { ExpireRowOk(sid, db.sessions[sid], db.now); }
    }
  }

  lemma ExpireKeeps(s: State, batch: set<Id>, before: Time)
    requires Inv(s)
    ensures Inv(Apply(s, Expire(batch, before)))
  {
    ExpireRows(s.db, batch, before);
    SessionsOnlyKeeps(s, Apply(s, Expire(batch, before)));
  }

  lemma RepairRowOk(sid: Id, x: SessionState, now: Time)
    requires RowOk(sid, x, now) && now > 0 && (x.status.Completing?)
    ensures var y := RepairedRow(x, now);
            RowOk(sid, y, now) && QuietStep(x, y) && Terminal(y.status)
  {
  }

  lemma RepairRows(db: Db, batch: set<Id>, before: Time)
    requires Rows(db)
    ensures var db' := RepairTx(db, batch, before);
            Rows(db') && SessionsQuiet(db, db') && OnlySessionsDiffer(db, db')
  {
    var db' := RepairTx(db, batch, before);
    forall sid | sid in db.sessions
      ensures RowOk(sid, db'.sessions[sid], db.now) && QuietStep(db.sessions[sid], db'.sessions[sid])
      ensures Terminal(db.sessions[sid].status) ==> Terminal(db'.sessions[sid].status)
    {
      assert RowOk(sid, db.sessions[sid], db.now);
      if db'.sessions[sid] != db.sessions[sid] { RepairRowOk(sid, db.sessions[sid], db.now); }
    }
  }

  lemma RepairKeeps(s: State, batch: set<Id>, before: Time)
    requires Inv(s)
    ensures Inv(Apply(s, Repair(batch, before)))
  {
    RepairRows(s.db, batch, before);
    SessionsOnlyKeeps(s, Apply(s, Repair(batch, before)));
  }

  lemma MultipartRowOk(sid: Id, x: SessionState, now: Time)
    requires RowOk(sid, x, now) && now > 0 && (x.status.Aborted? || x.status.Expired? || x.status.Failed?)
    ensures var y := x.(providerUploadId := Blank, updatedAt := now);
            RowOk(sid, y, now) && QuietStep(x, y) && Terminal(y.status)
  {
  }

  lemma MultipartRows(db: Db, batch: set<Id>, before: Time)
    requires Rows(db)
    ensures var db' := MultipartTx(db, batch, before);
            Rows(db') && SessionsQuiet(db, db') && OnlySessionsDiffer(db, db')
  {
    var db' := MultipartTx(db, batch, before);
    forall sid | sid in db.sessions
      ensures RowOk(sid, db'.sessions[sid], db.now) && QuietStep(db.sessions[sid], db'.sessions[sid])
      ensures Terminal(db.sessions[sid].status) ==> Terminal(db'.sessions[sid].status)
    {
      assert RowOk(sid, db.sessions[sid], db.now);
      if db'.sessions[sid] != db.sessions[sid] { MultipartRowOk(sid, db.sessions[sid], db.now); }
    }
  }

  lemma MultipartKeeps(s: State, batch: set<Id>, before: Time)
    requires Inv(s)
    ensures Inv(Apply(s, CleanMultipart(batch, before)))
  {
    MultipartRows(s.db, batch, before);
    SessionsOnlyKeeps(s, Apply(s, CleanMultipart(batch, before)));
  }
}
