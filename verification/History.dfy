/** How sessions move over whole runs, and what an untimely save would do. */
module History {
  import opened Base
  import opened Sessions
  import opened Database
  import opened Lifecycle
  import opened Invariant
  import opened SessionSteps
  import opened AssetSteps
  import opened GarbageSteps
  import opened Safety

  /** A session that ended without being completed. */
  predicate Ended(status: Status) {
    status.Aborted? || status.Expired? || status.Failed?
  }

  /** The rank never falls, a completion keeps its first owner, and nothing is completed after it has ended. */
  predicate Advances(x: SessionState, y: SessionState) {
    && SameIdentity(x, y)
    && Rank(x.status) <= Rank(y.status)
    && (Ended(x.status) ==> Ended(y.status))
    && (x.status.Completing? && y.status.Completing? ==>
          x.completionToken == y.completionToken && x.completionStartedAt == y.completionStartedAt)
  }

  predicate AllAdvance(sessions: SessionTable, sessions': SessionTable) {
    forall sid :: sid in sessions ==> sid in sessions' && Advances(sessions[sid], sessions'[sid])
  }

  predicate EndingsKept(sessions: SessionTable, sessions': SessionTable) {
    forall sid :: sid in sessions && Terminal(sessions[sid].status) ==>
      sid in sessions' && sessions'[sid].status == sessions[sid].status
  }

  /** An abort is saved before the session ends in another way, as it would be if read and save were one step. */
  predicate AbortInTime(s: State, a: Action) {
    a.SaveAbort? && a.task in s.aborts && s.aborts[a.task].id in s.db.sessions ==>
      var status := s.db.sessions[s.aborts[a.task].id].status;
      !Terminal(status) || status == s.aborts[a.task].status
  }

  /** Both at once, the second unless an abort comes late. */
  predicate Moves(sessions: SessionTable, sessions': SessionTable, inTime: bool) {
    AllAdvance(sessions, sessions') && (inTime ==> EndingsKept(sessions, sessions'))
  }

  lemma NoneMoves(sessions: SessionTable)
    ensures Moves(sessions, sessions, true)
  {
  }

  lemma OneMoves(sessions: SessionTable, y: SessionState, inTime: bool)
    requires y.id in sessions && Advances(sessions[y.id], y)
    requires inTime && Terminal(sessions[y.id].status) ==> y.status == sessions[y.id].status
    ensures Moves(sessions, sessions[y.id := y], inTime)
  {
  }

  lemma SaveMoves(db: Db, x: SessionState, inTime: bool)
    requires Identified(db, x) && Rank(db.sessions[x.id].status) <= Rank(x.status) && !x.status.Completing?
    requires Ended(db.sessions[x.id].status) ==> Ended(x.status)
    requires inTime && Terminal(db.sessions[x.id].status) ==> x.status == db.sessions[x.id].status
    ensures Moves(db.sessions, SaveSession(db, x).db.sessions, inTime)
  {
    NoneMoves(db.sessions);
    OneMoves(db.sessions, x, inTime);
  }

  lemma AcquireMoves(db: Db, sid: Id, token: Text)
    requires Rows(db)
    ensures Moves(db.sessions, AcquireTx(db, sid, token).db.sessions, true)
  {
    NoneMoves(db.sessions);
    ReadIsTheRow(db, sid);
    if sid in db.sessions {
      assert RowOk(sid, db.sessions[sid], db.now);
      var (after, ownership) := AcquireCompletion(db.sessions[sid], token, db.now);
      AcquiredRow(sid, db.sessions[sid], token, db.now);
      if ownership.Acquired? { OneMoves(db.sessions, after.state, true); }
    }
  }

  lemma ExpireMoves(db: Db, batch: set<Id>, before: Time)
    ensures Moves(db.sessions, ExpireTx(db, batch, before).sessions, true)
  {
  }

  lemma RepairMoves(db: Db, batch: set<Id>, before: Time)
    ensures Moves(db.sessions, RepairTx(db, batch, before).sessions, true)
  {
  }

  lemma MultipartMoves(db: Db, batch: set<Id>, before: Time)
    ensures Moves(db.sessions, MultipartTx(db, batch, before).sessions, true)
  {
  }

  lemma CreateMoves(db: Db, x: SessionState)
    requires x.id !in db.sessions
    ensures Moves(db.sessions, db.sessions[x.id := Validate(x).state], true)
  {
  }

  lemma SaveUploadingMoves(s: State, task: Id)
    requires Copies(s) && Timely(s, SaveUploading(task))
    ensures Moves(s.db.sessions, Apply(s, SaveUploading(task)).db.sessions, true)
  {
    NoneMoves(s.db.sessions);
    if task in s.uploads {
      assert UploadOk(s.db, s.uploads[task]);
      SaveMoves(s.db, s.uploads[task], true);
    }
  }

  lemma SaveAbortMoves(s: State, task: Id)
    requires Copies(s)
    ensures Moves(s.db.sessions, Apply(s, SaveAbort(task)).db.sessions, AbortInTime(s, SaveAbort(task)))
  {
    NoneMoves(s.db.sessions);
    if task in s.aborts {
      assert AbortOk(s.db, s.aborts[task]);
      SaveMoves(s.db, s.aborts[task], AbortInTime(s, SaveAbort(task)));
    }
  }

  lemma CommitMoves(db: Db, x: SessionState, token: Text, mat: Materialized, b: Id, f: Id, e: Id)
    requires Rows(db) && Files(db.sessions, db.blobs, db.files) && Identified(db, x) && HitOk(db.blobs, x, mat)
    requires (x.hash.Some? ==> mat.hash == x.hash) && b !in db.blobs
    ensures Moves(db.sessions, CommitTx(db, x.id, token, mat, b, f, e).db.sessions, true)
  {
    NoneMoves(db.sessions);
    CommitOutcome(db, x, token, mat, b, f, e);
    var c := CompletionOf(db, db.sessions[x.id], mat, b, f, e);
    if CompletesSession(db, c) { OneMoves(db.sessions, c.session, true); }
  }

  lemma FailMoves(db: Db, sid: Id, token: Text, code: ErrorCode, text: Text, e: Id)
    requires Rows(db)
    ensures Moves(db.sessions, FailTx(db, sid, token, code, text, e).db.sessions, true)
  {
    NoneMoves(db.sessions);
    FailOutcome(db, sid, token, code, text, e);
    var t := FailTx(db, sid, token, code, text, e);
    if t.db != db { OneMoves(db.sessions, t.db.sessions[sid], true); }
  }

  lemma JobMoves(s: State, a: Action)
    requires a.Expire? || a.Repair? || a.CleanMultipart?
    ensures Moves(s.db.sessions, Apply(s, a).db.sessions, true)
  {
    match a
    case Expire(batch, before) => ExpireMoves(s.db, batch, before);
    case Repair(batch, before) => RepairMoves(s.db, batch, before);
    case CleanMultipart(batch, before) => MultipartMoves(s.db, batch, before);
  }

  lemma CreateSessionMoves(s: State, x: SessionState)
    ensures Moves(s.db.sessions, Apply(s, CreateSession(x)).db.sessions, true)
  {
    if Creatable(s.db, x) { CreateMoves(s.db, x); } else { NoneMoves(s.db.sessions); }
  }

  lemma ReadMoves(s: State, a: Action)
    requires a.ReadUploading? || a.ReadAbort?
    ensures Moves(s.db.sessions, Apply(s, a).db.sessions, true)
  {
    NoneMoves(s.db.sessions);
  }

  lemma SessionActionMoves(s: State, a: Action)
    requires Copies(s) && Timely(s, a) && SessionAction(a)
    ensures Moves(s.db.sessions, Apply(s, a).db.sessions, AbortInTime(s, a))
  {
    match a
    case CreateSession(x) => CreateSessionMoves(s, x);
    case SaveUploading(task) => SaveUploadingMoves(s, task);
    case SaveAbort(task) => SaveAbortMoves(s, task);
    case ReadUploading(_, _, _) => ReadMoves(s, a);
    case ReadAbort(_, _) => ReadMoves(s, a);
    case _ => JobMoves(s, a);
  }

  lemma BeginCompletionMoves(s: State, r: Id, sid: Id, token: Text, declared: Option<ContentHash>)
    requires Rows(s.db)
    ensures Moves(s.db.sessions, Apply(s, BeginCompletion(r, sid, token, declared)).db.sessions, true)
  {
    NoneMoves(s.db.sessions);
    AcquireMoves(s.db, sid, token);
  }

  lemma CommitActionMoves(s: State, r: Id, b: Id, f: Id, e: Id)
    requires Rows(s.db) && Files(s.db.sessions, s.db.blobs, s.db.files) && Requests(s)
    ensures Moves(s.db.sessions, Apply(s, Commit(r, b, f, e)).db.sessions, true)
  {
    NoneMoves(s.db.sessions);
    if r in s.requests && s.requests[r].Prepared? && b !in s.db.blobs {
      var q := s.requests[r];
      assert RequestOk(s.db, q);
      CommitMoves(s.db, q.snapshot, q.token, q.mat, b, f, e);
    }
  }

  lemma FailActionDb(s: State, r: Id, text: Text, e: Id)
    ensures var db := Apply(s, Fail(r, text, e)).db;
            || db == s.db
            || (r in s.requests && s.requests[r].Refused?
                && db == FailTx(s.db, s.requests[r].snapshot.id, s.requests[r].token, s.requests[r].code, text, e).db)
  {
  }

  lemma FailActionMoves(s: State, r: Id, text: Text, e: Id)
    requires Rows(s.db)
    ensures Moves(s.db.sessions, Apply(s, Fail(r, text, e)).db.sessions, true)
  {
    FailActionDb(s, r, text, e);
    NoneMoves(s.db.sessions);
    if r in s.requests && s.requests[r].Refused? {
      var q := s.requests[r];
      FailMoves(s.db, q.snapshot.id, q.token, q.code, text, e);
    }
  }

  lemma RequestActionMoves(s: State, a: Action)
    requires Inv(s) && RequestAction(a)
    ensures Moves(s.db.sessions, Apply(s, a).db.sessions, true)
  {
    match a
    case BeginCompletion(r, sid, token, declared) => BeginCompletionMoves(s, r, sid, token, declared);
    case Commit(r, b, f, e) => CommitActionMoves(s, r, b, f, e);
    case Fail(r, text, e) => FailActionMoves(s, r, text, e);
    case _ => RequestOnlyMoves(s, a);
  }

  lemma RequestOnlyMoves(s: State, a: Action)
    requires a.Prepare? || a.Drop?
    ensures Moves(s.db.sessions, Apply(s, a).db.sessions, true)
  {
    assert Apply(s, a).db == s.db;
    NoneMoves(s.db.sessions);
  }

  lemma StepMoves(s: State, a: Action)
    requires Inv(s) && Timely(s, a)
    ensures Moves(s.db.sessions, Apply(s, a).db.sessions, AbortInTime(s, a))
  {
    if SessionAction(a) {
      SessionActionMoves(s, a);
    } else if RequestAction(a) {
      RequestActionMoves(s, a);
    } else {
      OtherActionMoves(s, a);
    }
  }

  lemma OtherActionMoves(s: State, a: Action)
    requires !SessionAction(a) && !RequestAction(a)
    ensures Moves(s.db.sessions, Apply(s, a).db.sessions, true)
  {
    NoneMoves(s.db.sessions);
  }

  lemma FiledIsTerminal(db: Db, sid: Id)
    requires Files(db.sessions, db.blobs, db.files)
    ensures Filed(db.files, sid) ==> sid in db.sessions && Terminal(db.sessions[sid].status)
  {
    if Filed(db.files, sid) {
      var f :| f in db.files && db.files[f].location.key.session == sid;
      assert FileOk(db.sessions, db.blobs, db.files[f]);
    }
  }

  /** A timely save is harmless: a session with a file is terminal. */
  lemma TimelyIsHarmless(s: State, a: Action)
    requires Inv(s) && Timely(s, a)
    ensures Harmless(s, a)
  {
    if a.SaveUploading? && a.task in s.uploads {
      assert UploadOk(s.db, s.uploads[a.task]);
      FiledIsTerminal(s.db, s.uploads[a.task].id);
    }
  }

  // ---------------------------------------------------------------------------
  // One session over whole runs

  /** Mark-uploading saves of this session are timely. */
  predicate TimelyFor(s: State, a: Action, sid: Id) {
    a.SaveUploading? && a.task in s.uploads && s.uploads[a.task].id == sid ==> Timely(s, a)
  }

  ghost predicate TimelyRunFor(s: State, actions: seq<Action>, sid: Id)
    decreases |actions|
  {
    actions == [] || (TimelyFor(s, actions[0], sid) && TimelyRunFor(Apply(s, actions[0]), actions[1..], sid))
  }

  /** Aborts of this session are saved in time. */
  predicate InTimeFor(s: State, a: Action, sid: Id) {
    a.SaveAbort? && a.task in s.aborts && s.aborts[a.task].id == sid ==> AbortInTime(s, a)
  }

  ghost predicate InTimeRunFor(s: State, actions: seq<Action>, sid: Id)
    decreases |actions|
  {
    actions == [] || (InTimeFor(s, actions[0], sid) && InTimeRunFor(Apply(s, actions[0]), actions[1..], sid))
  }

  /** The save of another session's row. */
  predicate SavesAnother(s: State, a: Action, sid: Id) {
    || (a.SaveUploading? && a.task in s.uploads && s.uploads[a.task].id != sid)
    || (a.SaveAbort? && a.task in s.aborts && s.aborts[a.task].id != sid)
  }

  lemma AnotherSaved(s: State, a: Action, sid: Id)
    requires SavesAnother(s, a, sid) && sid in s.db.sessions
    ensures sid in Apply(s, a).db.sessions && Apply(s, a).db.sessions[sid] == s.db.sessions[sid]
  {
  }

  lemma StepAdvances(s: State, a: Action, sid: Id)
    requires Inv(s) && TimelyFor(s, a, sid) && sid in s.db.sessions
    ensures var sessions := Apply(s, a).db.sessions;
            && sid in sessions && Advances(s.db.sessions[sid], sessions[sid])
            && (InTimeFor(s, a, sid) && Terminal(s.db.sessions[sid].status) ==>
                  sessions[sid].status == s.db.sessions[sid].status)
  {
    if SavesAnother(s, a, sid) {
      AnotherSaved(s, a, sid);
    } else {
      StepMoves(s, a);
    }
  }

  lemma AdvanceTransitive(x: SessionState, y: SessionState, z: SessionState)
    requires Advances(x, y) && Advances(y, z)
    ensures Advances(x, z)
  {
  }

  lemma {:induction false} SessionOnlyAdvances(s: State, actions: seq<Action>, sid: Id)
    requires Inv(s) && HarmlessRun(s, actions) && TimelyRunFor(s, actions, sid) && sid in s.db.sessions
    ensures var sessions := Exec(s, actions).db.sessions;
            sid in sessions && Advances(s.db.sessions[sid], sessions[sid])
    decreases |actions|
  {
    if actions != [] {
      var s' := Apply(s, actions[0]);
      StepKeepsInv(s, actions[0]);
      StepAdvances(s, actions[0], sid);
      SessionOnlyAdvances(s', actions[1..], sid);
      AdvanceTransitive(s.db.sessions[sid], s'.db.sessions[sid], Exec(s', actions[1..]).db.sessions[sid]);
    }
  }

  lemma {:induction false} EndingIsFinal(s: State, actions: seq<Action>, sid: Id)
    requires Inv(s) && HarmlessRun(s, actions) && TimelyRunFor(s, actions, sid) && InTimeRunFor(s, actions, sid)
    requires sid in s.db.sessions && Terminal(s.db.sessions[sid].status)
    ensures var sessions := Exec(s, actions).db.sessions;
            sid in sessions && sessions[sid].status == s.db.sessions[sid].status
    decreases |actions|
  {
    if actions != [] {
      StepKeepsInv(s, actions[0]);
      StepAdvances(s, actions[0], sid);
      EndingIsFinal(Apply(s, actions[0]), actions[1..], sid);
    }
  }

  /**
    * From every reachable state a session whose own saves are timely keeps its identity, its rank and, while
    * COMPLETING, its first token, whatever happens to other sessions.
    */
  lemma RankNeverFalls(s: State, actions: seq<Action>, sid: Id)
    requires Reachable(s) && HarmlessRun(s, actions) && TimelyRunFor(s, actions, sid) && sid in s.db.sessions
    ensures sid in Exec(s, actions).db.sessions
    ensures Advances(s.db.sessions[sid], Exec(s, actions).db.sessions[sid])
  {
    ReachableInv(s);
    SessionOnlyAdvances(s, actions, sid);
  }

  /** And its terminal status is final if none of its aborts is saved late. */
  lemma TerminalIsFinal(s: State, actions: seq<Action>, sid: Id)
    requires Reachable(s) && HarmlessRun(s, actions) && TimelyRunFor(s, actions, sid) && InTimeRunFor(s, actions, sid)
    requires sid in s.db.sessions && Terminal(s.db.sessions[sid].status)
    ensures sid in Exec(s, actions).db.sessions
    ensures Exec(s, actions).db.sessions[sid].status == s.db.sessions[sid].status
  {
    ReachableInv(s);
    EndingIsFinal(s, actions, sid);
  }

  /** The row changed, and the caller held the token of the completion. */
  predicate ChangedByOwner(x: SessionState, q: Request) {
    x.status.Completing? && !q.Finished? && q.snapshot.id == x.id && q.token == x.completionToken
  }

  lemma CommitChangesItsOwn(db: Db, x: SessionState, token: Text, mat: Materialized, b: Id, f: Id, e: Id, sid: Id)
    requires Rows(db) && Files(db.sessions, db.blobs, db.files) && Identified(db, x) && HitOk(db.blobs, x, mat)
    requires (x.hash.Some? ==> mat.hash == x.hash) && b !in db.blobs && sid in db.sessions
    ensures var sessions := CommitTx(db, x.id, token, mat, b, f, e).db.sessions;
            && sid in sessions
            && (sessions[sid] != db.sessions[sid] ==>
                  sid == x.id && db.sessions[sid].status.Completing? && token == db.sessions[sid].completionToken)
  {
    CommitOutcome(db, x, token, mat, b, f, e);
  }

  /** A commit changes a session only while its request holds the token of the COMPLETING row. */
  lemma OnlyTheOwnerCommits(s: State, r: Id, b: Id, f: Id, e: Id, sid: Id)
    requires Reachable(s) && sid in s.db.sessions
    ensures var s' := Apply(s, Commit(r, b, f, e));
            && sid in s'.db.sessions
            && (s'.db.sessions[sid] != s.db.sessions[sid] ==>
                  r in s.requests && ChangedByOwner(s.db.sessions[sid], s.requests[r]))
  {
    ReachableInv(s);
    if r in s.requests && s.requests[r].Prepared? && b !in s.db.blobs {
      var q := s.requests[r];
      assert RequestOk(s.db, q);
      assert RowOk(sid, s.db.sessions[sid], s.db.now);
      CommitChangesItsOwn(s.db, q.snapshot, q.token, q.mat, b, f, e, sid);
    }
  }

  lemma FailChangesItsOwn(db: Db, sid: Id, token: Text, code: ErrorCode, text: Text, e: Id, other: Id)
    requires other in db.sessions
    ensures var sessions := FailTx(db, sid, token, code, text, e).db.sessions;
            && other in sessions
            && (sessions[other] != db.sessions[other] ==>
                  other == sid && db.sessions[sid].status.Completing? && token == db.sessions[sid].completionToken)
  {
    ValidateTouchesOnlyTotalParts(db.sessions[other]);
  }

  lemma FailActionChangesItsOwn(s: State, r: Id, text: Text, e: Id, sid: Id)
    requires sid in s.db.sessions && s.db.sessions[sid].id == sid
    ensures var s' := Apply(s, Fail(r, text, e));
            && sid in s'.db.sessions
            && (s'.db.sessions[sid] != s.db.sessions[sid] ==>
                  r in s.requests && ChangedByOwner(s.db.sessions[sid], s.requests[r]))
  {
    if r in s.requests && s.requests[r].Refused? {
      var q := s.requests[r];
      FailChangesItsOwn(s.db, q.snapshot.id, q.token, q.code, text, e, sid);
    }
  }

  /** And so does a terminal failure. */
  lemma OnlyTheOwnerFails(s: State, r: Id, text: Text, e: Id, sid: Id)
    requires Reachable(s) && sid in s.db.sessions
    ensures var s' := Apply(s, Fail(r, text, e));
            && sid in s'.db.sessions
            && (s'.db.sessions[sid] != s.db.sessions[sid] ==>
                  r in s.requests && ChangedByOwner(s.db.sessions[sid], s.requests[r]))
  {
    RowsCarryTheirId(s, sid);
    FailActionChangesItsOwn(s, r, text, e, sid);
  }

  lemma RowsCarryTheirId(s: State, sid: Id)
    requires Reachable(s) && sid in s.db.sessions
    ensures s.db.sessions[sid].id == sid
  {
    ReachableInv(s);
    assert RowOk(sid, s.db.sessions[sid], s.db.now);
  }

  /** The transaction of a commit fails, and changes nothing, once the session has ended. */
  lemma EndedRejectsCommit(db: Db, sid: Id, token: Text, mat: Materialized, b: Id, f: Id, e: Id)
    requires sid in db.sessions && Ended(db.sessions[sid].status)
    ensures var t := CommitTx(db, sid, token, mat, b, f, e); t.result.Err? && t.db == db
  {
    ValidateTouchesOnlyTotalParts(db.sessions[sid]);
  }

  /** Once aborted, expired, repaired or failed, a session is never completed: every commit is refused, forever. */
  lemma EndedIsNeverCompleted(s: State, actions: seq<Action>, sid: Id, r: Id, b: Id, f: Id, e: Id)
    requires Reachable(s) && HarmlessRun(s, actions) && TimelyRunFor(s, actions, sid)
    requires sid in s.db.sessions && Ended(s.db.sessions[sid].status)
    requires var end := Exec(s, actions);
             r in end.requests && end.requests[r].Prepared? && end.requests[r].snapshot.id == sid && b !in end.db.blobs
    ensures var end := Exec(s, actions);
            && Apply(end, Commit(r, b, f, e)).db == end.db
            && Apply(end, Commit(r, b, f, e)).requests[r].result.Err?
  {
    RankNeverFalls(s, actions, sid);
    CommitRefused(Exec(s, actions), sid, r, b, f, e);
  }

  lemma CommitRefused(s: State, sid: Id, r: Id, b: Id, f: Id, e: Id)
    requires sid in s.db.sessions && Ended(s.db.sessions[sid].status)
    requires r in s.requests && s.requests[r].Prepared? && s.requests[r].snapshot.id == sid && b !in s.db.blobs
    ensures Apply(s, Commit(r, b, f, e)).db == s.db && Apply(s, Commit(r, b, f, e)).requests[r].result.Err?
  {
    var q := s.requests[r];
    EndedRejectsCommit(s.db, sid, q.token, q.mat, b, f, e);
  }

  // ---------------------------------------------------------------------------
  // What Save does without a status guard

  /** A mark-uploading handler that reads and saves in one step is always timely. */
  lemma AtomicMarkIsTimely(s: State, task: Id, sid: Id, parts: nat)
    requires Rows(s.db) && UploadingRow(s.db, sid, parts).Ok?
    ensures Timely(Apply(s, ReadUploading(task, sid, parts)), SaveUploading(task))
  {
    ReadIsTheRow(s.db, sid);
    assert sid in s.db.sessions && RowOk(sid, s.db.sessions[sid], s.db.now);
  }

  /** An abort handler that reads and saves in one step is always in time. */
  lemma AtomicAbortIsInTime(s: State, task: Id, sid: Id)
    requires Rows(s.db) && AbortRow(s.db, sid).Ok?
    ensures AbortInTime(Apply(s, ReadAbort(task, sid)), SaveAbort(task))
  {
    ReadIsTheRow(s.db, sid);
    assert sid in s.db.sessions && RowOk(sid, s.db.sessions[sid], s.db.now);
  }

  /** Saving an abort keeps the terminal status of its session exactly when it comes in time. */
  lemma AbortInTimeExactly(s: State, task: Id)
    requires Copies(s) && task in s.aborts
    requires s.aborts[task].id in s.db.sessions && Terminal(s.db.sessions[s.aborts[task].id].status)
    ensures var sid := s.aborts[task].id;
            && sid in Apply(s, SaveAbort(task)).db.sessions
            && (Apply(s, SaveAbort(task)).db.sessions[sid].status == s.db.sessions[sid].status
                <==> AbortInTime(s, SaveAbort(task)))
  {
    assert AbortOk(s.db, s.aborts[task]);
  }

  /** A mark-uploading save reopens a session that has a file exactly when it is not harmless. */
  lemma HarmlessExactly(s: State, task: Id)
    requires Copies(s) && task in s.uploads && RowAccepted(s.uploads[task])
    ensures var sid, db := s.uploads[task].id, Apply(s, SaveUploading(task)).db;
            && sid in db.sessions
            && (!Harmless(s, SaveUploading(task)) <==> Filed(db.files, sid) && !Terminal(db.sessions[sid].status))
  {
    assert UploadOk(s.db, s.uploads[task]);
  }

  /** A mark-uploading save keeps the rank order exactly when it is timely. */
  lemma TimelyExactly(s: State, task: Id)
    requires Copies(s) && task in s.uploads && RowAccepted(s.uploads[task])
    ensures var sid := s.uploads[task].id;
            sid in s.db.sessions && sid in Apply(s, SaveUploading(task)).db.sessions
    ensures var sid := s.uploads[task].id;
            Rank(s.db.sessions[sid].status) <= Rank(Apply(s, SaveUploading(task)).db.sessions[sid].status)
            <==> Timely(s, SaveUploading(task))
  {
    assert UploadOk(s.db, s.uploads[task]);
  }
}
