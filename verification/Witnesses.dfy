/** Short runs that show the model's exceptions at reachable states. */
module Witnesses {
  import opened Base
  import opened Sessions
  import opened Database
  import opened Lifecycle
  import opened Invariant
  import opened Safety
  import opened Theorems
  import opened History
  import opened LateSaves
  import opened Outcomes
  import opened Contents

  const PLANNED := ObjectRef(0, 0, ObjectKey(0, 0))
  const HASH := ContentHash(Sha256, Hex64(0))

  const DETAILS := Details(Text(0), Text(0), Text(0), PrivateLevel, 0, Blank, Blank)

  function Row(sid: Id, status: Status, parts: nat): SessionState {
    SessionState(sid, 0, Inline, status, 1, 1, parts, ObjectRef(0, 0, ObjectKey(0, sid)), Blank, Blank, None, Blank,
                 None, 1, 1, None, None, Blank, Blank, None, 2, DETAILS)
  }

  const MARKED := Row(0, Uploading, 1)
  const CANCELLED := Row(0, Aborted, 0).(abortedAt := Some(1))
  const OWNED := Reacquired(Row(0, Initiated, 0), 1)
  const DONE := OWNED.(status := Completed, completedParts := 1, fileId := Text(0), completedAt := Some(1))
  const AGAIN := Reacquired(Row(1, Initiated, 0), 1)
  const MISS := Materialized(1, 0, Some(HASH), None)

  function Early(sessions: SessionTable, requests: map<Id, Request>, aborts: map<Id, SessionState>,
                 uploads: map<Id, SessionState>): State
  {
    State(Db(1, sessions, map[], map[], map[0 := Usage(0, 0)], map[], map[], {}), requests, aborts, uploads)
  }

  function Late(sessions: SessionTable, file: FileStatus, requests: map<Id, Request>): State {
    var deleted := file.Deleted?;
    State(Db(1, sessions, map[0 := Blob(0, PLANNED, Some(HASH), 1, if deleted then 0 else 1, 1, None)],
             map[0 := FileAsset(0, 0, 1, file, PLANNED, Some(Hex64(0)), if deleted then Some(1) else None)],
             map[0 := Usage(if deleted then 0 else 1, 0)],
             if deleted then map[0 := SessionCompleted(0, 0), 1 := DeleteRequested(0)]
             else map[0 := SessionCompleted(0, 0)],
             if deleted then map[0 := 0] else map[], {}),
          requests, map[0 := CANCELLED], map[0 := MARKED])
  }

  const FIRST := Finished(0, Ok(0), None)

  /** A session is completed while a mark-uploading and an abort of it are pending; then its file is deleted and
    * another session uploads the same content. */
  function Step(k: nat): State
    requires k <= 11
  {
    match k
    case 0 => State(Db(1, map[], map[], map[], map[], map[], map[], {}), map[], map[], map[])
    case 1 => Early(map[], map[], map[], map[])
    case 2 => Early(map[0 := Row(0, Initiated, 0)], map[], map[], map[])
    case 3 => Early(map[0 := Row(0, Initiated, 0)], map[], map[], map[0 := MARKED])
    case 4 => Early(map[0 := Row(0, Initiated, 0)], map[], map[0 := CANCELLED], map[0 := MARKED])
    case 5 => Early(map[0 := OWNED], map[0 := Owned(OWNED, Text(0), None)], map[0 := CANCELLED], map[0 := MARKED])
    case 6 => Early(map[0 := OWNED], map[0 := Prepared(OWNED, Text(0), None, MISS)],
                    map[0 := CANCELLED], map[0 := MARKED])
    case 7 => Late(map[0 := DONE], Active, map[0 := FIRST])
    case 8 => Late(map[0 := DONE], FileStatus.Deleted, map[0 := FIRST])
    case 9 => Late(map[0 := DONE, 1 := Row(1, Initiated, 0)], FileStatus.Deleted, map[0 := FIRST])
    case 10 => Late(map[0 := DONE, 1 := AGAIN], FileStatus.Deleted, map[0 := FIRST, 1 := Owned(AGAIN, Text(0), None)])
    case _ => Late(map[0 := DONE, 1 := AGAIN], FileStatus.Deleted,
                   map[0 := FIRST, 1 := Prepared(AGAIN, Text(0), None, MISS)])
  }

  function Act(k: nat): Action {
    match k
    case 0 => CreateTenant(0)
    case 1 => CreateSession(Row(0, Initiated, 0))
    case 2 => ReadUploading(0, 0, 1)
    case 3 => ReadAbort(0, 0)
    case 4 => BeginCompletion(0, 0, Text(0), None)
    case 5 => Prepare(0, Answers(0))
    case 6 => Commit(0, 0, 0, 0)
    case 7 => DeleteFile(0, 0, 1)
    case 8 => CreateSession(Row(1, Initiated, 0))
    case 9 => BeginCompletion(1, 1, Text(0), None)
    case _ => Prepare(1, Answers(0))
  }

  lemma FirstCommit()
    ensures CommitTx(Step(6).db, 0, Text(0), MISS, 0, 0, 0) == Tx(Step(7).db, Ok(0))
  {
  }

  lemma Step0()
    ensures Apply(Step(0), Act(0)) == Step(1)
  {
  }

  lemma Step1()
    ensures Apply(Step(1), Act(1)) == Step(2)
  {
  }

  lemma Step2()
    ensures Apply(Step(2), Act(2)) == Step(3)
  {
  }

  lemma Step3()
    ensures Apply(Step(3), Act(3)) == Step(4)
  {
  }

  lemma Step4()
    ensures Apply(Step(4), Act(4)) == Step(5)
  {
  }

  lemma Step5()
    ensures Apply(Step(5), Act(5)) == Step(6)
  {
  }

  lemma Step6()
    ensures Apply(Step(6), Act(6)) == Step(7)
  {
    FirstCommit();
  }

  lemma Step7()
    ensures Apply(Step(7), Act(7)) == Step(8)
  {
  }

  lemma Step8()
    ensures Apply(Step(8), Act(8)) == Step(9)
  {
  }

  lemma Step9()
    ensures Apply(Step(9), Act(9)) == Step(10)
  {
  }

  lemma Step10()
    ensures Apply(Step(10), Act(10)) == Step(11)
  {
  }

  lemma StepTaken(k: nat)
    requires k < 11
    ensures Apply(Step(k), Act(k)) == Step(k + 1)
  {
    match k
    case 0 => Step0();
    case 1 => Step1();
    case 2 => Step2();
    case 3 => Step3();
    case 4 => Step4();
    case 5 => Step5();
    case 6 => Step6();
    case 7 => Step7();
    case 8 => Step8();
    case 9 => Step9();
    case _ => Step10();
  }

  lemma {:induction false} StepIsReachable(k: nat)
    requires k <= 11
    ensures Reachable(Step(k))
  {
    if k == 0 {
      InitialIsReachable(Step(0));
    } else {
      StepIsReachable(k - 1);
      StepTaken(k - 1);
      ReachableStep(Step(k - 1), Act(k - 1));
    }
  }

  // ---------------------------------------------------------------------------
  // A late mark-uploading save

  /** Session 0 has its only file, 0, and the save of an older copy of its row is pending. */
  predicate Primed(s: State) {
    && Stale(s, 0, 0) && SoleFile(s.db, 0, 0) && Unused(s, Ids(1, 0, 1, 1, 1)) && s.db.now == 1
    && s.uploads[0].id == 0 && s.db.files[0].blob == 0 && s.db.files[0].location == PLANNED
  }

  lemma PrimedIsReachable()
    ensures Reachable(Step(7)) && Primed(Step(7)) && !Harmless(Step(7), SaveUploading(0))
  {
    StepIsReachable(7);
    assert ActiveOn(Step(7).db.files, 0) == {0};
    assert Step(7).db.files[0].location.key.session == 0;
  }

  /** The run of a late save whose finalize job waits for the given retention. */
  predicate LateRun(run: seq<Action>, retention: nat) {
    var ids := Ids(1, 0, 1, 1, 1);
    Opens(run, 0, 0, 0, ids) && Overtakes(run[3..], 0, 0, 1, retention, ids)
  }

  lemma SomeLateRun(retention: nat)
    ensures exists run :: LateRun(run, retention)
  {
    var run := [SaveUploading(0), BeginCompletion(1, 0, Text(0), None), Prepare(1, Answers(0)),
                DeleteFile(0, 0, 1), Tick(retention), FinalizeDeletes([0], 1, 1, true), Commit(1, 1, 1, 2)];
    assert LateRun(run, retention);
  }

  ghost predicate CanLose(s: State, retention: nat) {
    exists run :: LateRun(run, retention) && Lost(Exec(s, run).db, PLANNED, 0, 1)
  }

  lemma PrimedCanLose(s: State, retention: nat)
    requires Reachable(s) && Primed(s)
    ensures CanLose(s, retention)
  {
    ReachableInv(s);
    SomeLateRun(retention);
    var run :| LateRun(run, retention);
    LateSaveLosesAnObject(s, 0, 0, 0, retention, Ids(1, 0, 1, 1, 1), run);
  }

  /** Whatever the retention, a save that is not harmless can cost an ACTIVE file its object. */
  lemma HarmlessSavesAreNeeded(retention: nat)
    ensures Reachable(Step(7)) && CanLose(Step(7), retention)
  {
    PrimedIsReachable();
    PrimedCanLose(Step(7), retention);
  }

  // ---------------------------------------------------------------------------
  // A late abort

  /** A late abort overwrites COMPLETED, and the file stays. */
  lemma LateAbortOverwritesCompleted()
    ensures Reachable(Step(7)) && Step(7).db.sessions[0].status.Completed?
    ensures !AbortInTime(Step(7), SaveAbort(0))
    ensures var db := Apply(Step(7), SaveAbort(0)).db;
            0 in db.sessions && db.sessions[0].status.Aborted? && db.files == Step(7).db.files
  {
    StepIsReachable(7);
  }

  // ---------------------------------------------------------------------------
  // A harmless save that is not timely

  const OTHER := ContentHash(Sha256, Hex64(1))
  const BROKEN := OWNED.(status := Failed, failureCode := CodeText(HashMismatch), failureMessage := Text(0),
                         failedAt := Some(1))
  const REOPENED := Reacquired(MARKED, 1)
  const REFUSED := Finished(0, Err(HashMismatch), None)

  function Failing(row: SessionState, requests: map<Id, Request>, uploads: map<Id, SessionState>): State {
    var s := Early(map[0 := row], requests, map[], uploads);
    s.(db := s.db.(outbox := map[0 := SessionFailed(0, HashMismatch)]))
  }

  /** The completion fails for good, a pending save reopens the session, and a second completion succeeds. */
  function Retry(k: nat): State
    requires k <= 7
  {
    match k
    case 0 => Step(3)
    case 1 => Early(map[0 := OWNED], map[0 := Owned(OWNED, Text(0), Some(OTHER))], map[], map[0 := MARKED])
    case 2 => Early(map[0 := OWNED], map[0 := Refused(OWNED, Text(0), HashMismatch)], map[], map[0 := MARKED])
    case 3 => Failing(BROKEN, map[0 := REFUSED], map[0 := MARKED])
    case 4 => Failing(MARKED, map[0 := REFUSED], map[])
    case 5 => Failing(REOPENED, map[0 := REFUSED, 1 := Owned(REOPENED, Text(0), None)], map[])
    case 6 => Failing(REOPENED, map[0 := REFUSED, 1 := Prepared(REOPENED, Text(0), None, MISS)], map[])
    case _ =>
      var done := REOPENED.(status := Completed, fileId := Text(0), completedAt := Some(1));
      State(Db(1, map[0 := done], map[0 := Blob(0, PLANNED, Some(HASH), 1, 1, 1, None)],
               map[0 := FileAsset(0, 0, 1, Active, PLANNED, Some(Hex64(0)), None)], map[0 := Usage(1, 0)],
               map[0 := SessionFailed(0, HashMismatch), 1 := SessionCompleted(0, 0)], map[], {}),
            map[0 := REFUSED, 1 := Finished(0, Ok(0), None)], map[], map[])
  }

  function RetryAct(k: nat): Action {
    match k
    case 0 => BeginCompletion(0, 0, Text(0), Some(OTHER))
    case 1 => Prepare(0, Answers(0))
    case 2 => Fail(0, Text(0), 0)
    case 3 => SaveUploading(0)
    case 4 => BeginCompletion(1, 0, Text(0), None)
    case 5 => Prepare(1, Answers(0))
    case _ => Commit(1, 0, 0, 1)
  }

  lemma Retry0()
    ensures Apply(Retry(0), RetryAct(0)) == Retry(1)
  {
  }

  lemma Retry1()
    ensures Apply(Retry(1), RetryAct(1)) == Retry(2)
  {
  }

  lemma FirstFailure()
    ensures FailTx(Retry(2).db, 0, Text(0), HashMismatch, Text(0), 0).db == Retry(3).db
  {
  }

  lemma Retry2()
    ensures Apply(Retry(2), RetryAct(2)) == Retry(3)
  {
    FirstFailure();
  }

  lemma Retry3()
    ensures Apply(Retry(3), RetryAct(3)) == Retry(4)
  {
  }

  lemma Retry4()
    ensures Apply(Retry(4), RetryAct(4)) == Retry(5)
  {
  }

  lemma Retry5()
    ensures Apply(Retry(5), RetryAct(5)) == Retry(6)
  {
  }

  lemma Retry6()
    ensures Apply(Retry(6), RetryAct(6)) == Retry(7)
  {
    SecondCommit();
  }

  lemma SecondCommit()
    ensures CommitTx(Retry(6).db, 0, Text(0), MISS, 0, 0, 1) == Tx(Retry(7).db, Ok(0))
  {
  }

  lemma RetryTaken(k: nat)
    requires k < 7
    ensures Apply(Retry(k), RetryAct(k)) == Retry(k + 1)
  {
    match k
    case 0 => Retry0();
    case 1 => Retry1();
    case 2 => Retry2();
    case 3 => Retry3();
    case 4 => Retry4();
    case 5 => Retry5();
    case _ => Retry6();
  }

  lemma {:induction false} RetryIsReachable(k: nat)
    requires k <= 7
    ensures Reachable(Retry(k))
  {
    if k == 0 {
      StepIsReachable(3);
    } else {
      RetryIsReachable(k - 1);
      RetryTaken(k - 1);
      ReachableStep(Retry(k - 1), RetryAct(k - 1));
    }
  }

  /** Harmless saves do not suffice for one outcome per session: it can fail first and complete later. */
  lemma HarmlessIsNotEnough()
    ensures Reachable(Retry(3)) && Harmless(Retry(3), SaveUploading(0)) && !Undecided(Retry(3), SaveUploading(0))
    ensures Reachable(Retry(7))
    ensures Retry(7).db.outbox == map[0 := SessionFailed(0, HashMismatch), 1 := SessionCompleted(0, 0)]
  {
    RetryIsReachable(3);
    RetryIsReachable(7);
    assert AboutSession(Retry(3).db.outbox[0], 0);
  }

  /** Completing a COMPLETED session under another hash is answered with its file all the same. */
  lemma DeclaredHashIsNotChecked()
    ensures Reachable(Step(7)) && Step(7).db.files[0].hash != DigestOf(Some(OTHER))
    ensures Apply(Step(7), BeginCompletion(1, 0, Text(0), Some(OTHER))).requests[1] == Finished(0, Ok(0), None)
  {
    StepIsReachable(7);
    DoneIgnoresDeclared(Step(7), 1, 0, Text(0), Some(OTHER));
  }

  // ---------------------------------------------------------------------------
  // A write after the completion

  /** The same run, with the content written right after the session was created. */
  lemma {:induction false} WrittenIsReachable(k: nat)
    requires 2 <= k <= 7
    ensures ReachableWorld(World(Step(k), map[PLANNED := Hex64(0)]))
  {
    if k == 2 {
      CreatedIsReachable();
      ReachableMove(World(Step(2), map[]), Put(0, Hex64(0)));
    } else {
      WrittenIsReachable(k - 1);
      StepTaken(k - 1);
      ReachableMove(World(Step(k - 1), map[PLANNED := Hex64(0)]), Do(Act(k - 1)));
    }
  }

  lemma CreatedIsReachable()
    ensures ReachableWorld(World(Step(2), map[]))
  {
    InitialWorld(World(Step(0), map[]));
    Step0();
    ReachableMove(World(Step(0), map[]), Do(Act(0)));
    Step1();
    ReachableMove(World(Step(1), map[]), Do(Act(1)));
  }

  lemma RefusedWriteAt(w: World)
    requires Inv(w.s) && 0 in w.s.db.files && w.s.db.files[0].location == PLANNED
    requires w.s.db.files[0].hash == Some(Hex64(0)) && w.contents == map[PLANNED := Hex64(0)]
    ensures UploadingRow(w.s.db, 0, 1).Err? && Verified(w.contents, PLANNED, w.s.db.files[0].hash)
    ensures !Verified(Next(w, Put(0, Hex64(1))).contents, PLANNED, w.s.db.files[0].hash)
  {
    RefusedWriteOverwrites(w, 0, Hex64(1), 0);
  }

  /** A refused write to a COMPLETED inline session replaces the content of its ACTIVE file. */
  lemma RefusedWriteIsReachable()
    ensures var w := World(Step(7), map[PLANNED := Hex64(0)]);
            && ReachableWorld(w) && UploadingRow(w.s.db, 0, 1).Err?
            && w.s.db.files[0].status.Active? && Verified(w.contents, PLANNED, w.s.db.files[0].hash)
            && !Verified(Next(w, Put(0, Hex64(1))).contents, PLANNED, w.s.db.files[0].hash)
  {
    WrittenIsReachable(7);
    StepSevenInv();
    RefusedWriteAt(World(Step(7), map[PLANNED := Hex64(0)]));
  }

  lemma StepSevenInv()
    ensures Inv(Step(7))
  {
    StepIsReachable(7);
    ReachableInv(Step(7));
  }

  // ---------------------------------------------------------------------------
  // Content whose last file is gone

  /** Deleting the only file of some content leaves a dead blob, and a new upload of that content is refused. */
  lemma DeadContentIsRefused()
    ensures Reachable(Step(8)) && Dead(Step(8), 0) && Step(8).db.blobs[0].hash == Some(HASH)
    ensures Reachable(Step(11)) && Step(11).requests[1] == Prepared(AGAIN, Text(0), None, MISS)
    ensures Apply(Step(11), Commit(1, 1, 1, 2)).requests[1].Finished?
    ensures Apply(Step(11), Commit(1, 1, 1, 2)).requests[1].result.Err?
  {
    StepIsReachable(8);
    StepIsReachable(11);
    RefusedReupload(Step(11));
  }

  lemma RefusedReupload(s: State)
    requires Reachable(s) && 1 in s.requests && s.requests[1] == Prepared(AGAIN, Text(0), None, MISS)
    requires 1 in s.db.sessions && s.db.sessions[1] == AGAIN
    requires 1 !in s.db.blobs && 1 !in s.db.files && 2 !in s.db.outbox
    requires 0 in s.db.blobs && SameContent(0, 0, HASH, s.db.blobs[0])
    ensures var s' := Apply(s, Commit(1, 1, 1, 2)); s'.requests[1].Finished? && s'.requests[1].result.Err?
  {
    MissCommitsOnlyNewContent(s, 1, 1, 1, 2);
    CommitAnswers(s, 1, 1, 1, 2);
  }

  // ---------------------------------------------------------------------------
  // A multipart session after cleanup

  const MULTIPART := SessionState(0, 0, Direct, Initiated, 1, 1, 0, PLANNED, Text(0), Blank, Some(HASH), Blank,
                                  None, 1, 1, None, None, Blank, Blank, None, 2, DETAILS)
  const STOPPED := MULTIPART.(status := Aborted, abortedAt := Some(1))

  function Clean(k: nat): State
    requires k <= 6
  {
    match k
    case 0 => Step(0)
    case 1 => Early(map[], map[], map[], map[])
    case 2 => Early(map[0 := MULTIPART], map[], map[], map[])
    case 3 => Early(map[0 := MULTIPART], map[], map[0 := STOPPED], map[])
    case 4 => Early(map[0 := STOPPED], map[], map[], map[])
    case 5 => var s := Early(map[0 := STOPPED], map[], map[], map[]); s.(db := s.db.(now := 2))
    case _ =>
      var s := Early(map[0 := STOPPED.(providerUploadId := Blank, updatedAt := 2)], map[], map[], map[]);
      s.(db := s.db.(now := 2))
  }

  function CleanAct(k: nat): Action {
    match k
    case 0 => CreateTenant(0)
    case 1 => CreateSession(MULTIPART)
    case 2 => ReadAbort(0, 0)
    case 3 => SaveAbort(0)
    case 4 => Tick(1)
    case _ => CleanMultipart({0}, 1)
  }

  lemma Clean0()
    ensures Apply(Clean(0), CleanAct(0)) == Clean(1)
  {
  }

  lemma Clean1()
    ensures Apply(Clean(1), CleanAct(1)) == Clean(2)
  {
  }

  lemma Clean2()
    ensures Apply(Clean(2), CleanAct(2)) == Clean(3)
  {
  }

  lemma Clean3()
    ensures Apply(Clean(3), CleanAct(3)) == Clean(4)
  {
  }

  lemma Clean4()
    ensures Apply(Clean(4), CleanAct(4)) == Clean(5)
  {
  }

  lemma Clean5()
    ensures Apply(Clean(5), CleanAct(5)) == Clean(6)
  {
  }

  lemma CleanTaken(k: nat)
    requires k < 6
    ensures Apply(Clean(k), CleanAct(k)) == Clean(k + 1)
  {
    match k
    case 0 => Clean0();
    case 1 => Clean1();
    case 2 => Clean2();
    case 3 => Clean3();
    case 4 => Clean4();
    case _ => Clean5();
  }

  lemma {:induction false} CleanIsReachable(k: nat)
    requires k <= 6
    ensures Reachable(Clean(k))
  {
    if k == 0 {
      InitialIsReachable(Clean(0));
    } else {
      CleanIsReachable(k - 1);
      CleanTaken(k - 1);
      ReachableStep(Clean(k - 1), CleanAct(k - 1));
    }
  }

  /** An aborted multipart session can no longer be read once its upload has been cleaned up. */
  lemma CleanedRowDoesNotLoad()
    ensures Reachable(Clean(6)) && 0 in Clean(6).db.sessions
    ensures ReadSession(Clean(6).db, 0).Err? && Load(Save(Clean(6).db.sessions[0])).Err?
  {
    CleanIsReachable(6);
  }
}
