/** Outcome events: exactly when at most one of them is announced for a session. */
module Outcomes {
  import opened Base
  import opened Sessions
  import opened Database
  import opened Lifecycle
  import opened Invariant
  import opened AssetSteps
  import opened GarbageSteps
  import opened Safety
  import opened History
  import opened LateSaves

  /** An outcome of the session has been announced. */
  predicate Decided(outbox: EventTable, sid: Id) {
    exists e :: e in outbox && AboutSession(outbox[e], sid)
  }

  /** No outcome has been announced yet for the session whose row a mark-uploading save overwrites. */
  predicate Undecided(s: State, a: Action) {
    a.SaveUploading? && a.task in s.uploads ==> !Decided(s.db.outbox, s.uploads[a.task].id)
  }

  ghost predicate UndecidedRun(s: State, actions: seq<Action>)
    decreases |actions|
  {
    actions == [] || (Undecided(s, actions[0]) && UndecidedRun(Apply(s, actions[0]), actions[1..]))
  }

  // ---------------------------------------------------------------------------
  // Every other step

  /** What a step adds to the outbox: nothing, a deletion, or the outcome of a session that just ended. */
  predicate Announces(db: Db, db': Db, id: Id) {
    || db'.outbox == db.outbox
    || (&& id !in db.outbox && id in db'.outbox && db'.outbox == db.outbox[id := db'.outbox[id]]
        && (db'.outbox[id].DeleteRequested? || JustEnded(db.sessions, db'.sessions, db'.outbox[id].session)))
  }

  predicate JustEnded(sessions: SessionTable, sessions': SessionTable, sid: Id) {
    && sid in sessions && sessions[sid].status.Completing?
    && sid in sessions' && Terminal(sessions'[sid].status)
  }

  predicate EndingsStay(sessions: SessionTable, sessions': SessionTable) {
    forall sid :: sid in sessions && Terminal(sessions[sid].status) ==>
      sid in sessions' && Terminal(sessions'[sid].status)
  }

  /** Every outcome event is about a session that has ended. */
  predicate OutcomesEnded(sessions: SessionTable, outbox: EventTable) {
    forall e :: e in outbox && (outbox[e].SessionCompleted? || outbox[e].SessionFailed?) ==>
      outbox[e].session in sessions && Terminal(sessions[outbox[e].session].status)
  }

  lemma OutcomesKept(db: Db, db': Db, id: Id)
    requires Outcomes(db.sessions, db.outbox) && OutcomesEnded(db.sessions, db.outbox)
    requires EndingsStay(db.sessions, db'.sessions) && Announces(db, db', id)
    ensures Outcomes(db'.sessions, db'.outbox)
  {
    if db'.outbox != db.outbox {
      forall d, e | d in db'.outbox && e in db'.outbox && SameSubject(db'.outbox[d], db'.outbox[e]) ensures d == e {
        if d != id && e != id { assert SameSubject(db.outbox[d], db.outbox[e]); }
      }
    }
  }

  lemma OutcomesAreEnded(db: Db)
    requires Files(db.sessions, db.blobs, db.files) && Events(db.files, db.outbox) && Outcomes(db.sessions, db.outbox)
    ensures OutcomesEnded(db.sessions, db.outbox)
  {
    forall e | e in db.outbox && db.outbox[e].SessionCompleted?
      ensures db.outbox[e].session in db.sessions && Terminal(db.sessions[db.outbox[e].session].status)
    {
      assert EventOk(db.files, db.outbox[e]);
      FiledIsTerminal(db, db.outbox[e].session);
    }
  }

  lemma CommitAnnounces(db: Db, x: SessionState, token: Text, mat: Materialized, b: Id, f: Id, e: Id)
    requires Rows(db) && Files(db.sessions, db.blobs, db.files) && Identified(db, x) && HitOk(db.blobs, x, mat)
    requires (x.hash.Some? ==> mat.hash == x.hash) && b !in db.blobs
    ensures Announces(db, CommitTx(db, x.id, token, mat, b, f, e).db, e)
  {
    CommitOutcome(db, x, token, mat, b, f, e);
  }

  lemma FailAnnounces(db: Db, sid: Id, token: Text, code: ErrorCode, text: Text, e: Id)
    requires Rows(db)
    ensures Announces(db, FailTx(db, sid, token, code, text, e).db, e)
  {
    FailOutcome(db, sid, token, code, text, e);
  }

  lemma CommitActionAnnounces(s: State, r: Id, b: Id, f: Id, e: Id)
    requires Rows(s.db) && Files(s.db.sessions, s.db.blobs, s.db.files) && Requests(s)
    ensures Announces(s.db, Apply(s, Commit(r, b, f, e)).db, e)
  {
    if r in s.requests && s.requests[r].Prepared? && b !in s.db.blobs {
      var q := s.requests[r];
      assert RequestOk(s.db, q);
      CommitAnnounces(s.db, q.snapshot, q.token, q.mat, b, f, e);
    }
  }

  lemma FailActionAnnounces(s: State, r: Id, text: Text, e: Id)
    requires Rows(s.db)
    ensures Announces(s.db, Apply(s, Fail(r, text, e)).db, e)
  {
    FailActionDb(s, r, text, e);
    if r in s.requests && s.requests[r].Refused? {
      var q := s.requests[r];
      FailAnnounces(s.db, q.snapshot.id, q.token, q.code, text, e);
    }
  }

  lemma DeleteAnnounces(s: State, f: Id, audit: Id, e: Id)
    ensures Announces(s.db, Apply(s, DeleteFile(f, audit, e)).db, e)
  {
  }

  lemma AcquireAnnouncesNothing(s: State, r: Id, sid: Id, token: Text, declared: Option<ContentHash>)
    ensures Apply(s, BeginCompletion(r, sid, token, declared)).db.outbox == s.db.outbox
  {
  }

  lemma OthersAnnounceNothing(s: State, a: Action)
    requires !a.Commit? && !a.Fail? && !a.DeleteFile? && !a.BeginCompletion?
    ensures Apply(s, a).db.outbox == s.db.outbox
  {
  }

  lemma StepAnnounces(s: State, a: Action) returns (id: Id)
    requires Inv(s)
    ensures Announces(s.db, Apply(s, a).db, id)
  {
    match a
    case Commit(r, b, f, e) => CommitActionAnnounces(s, r, b, f, e); id := e;
    case Fail(r, text, e) => FailActionAnnounces(s, r, text, e); id := e;
    case DeleteFile(f, audit, e) => DeleteAnnounces(s, f, audit, e); id := e;
    case BeginCompletion(r, sid, token, declared) => AcquireAnnouncesNothing(s, r, sid, token, declared); id := 0;
    case _ => OthersAnnounceNothing(s, a); id := 0;
  }

  lemma EndingsStayWhenAdvancing(sessions: SessionTable, sessions': SessionTable)
    requires AllAdvance(sessions, sessions')
    ensures EndingsStay(sessions, sessions')
  {
  }

  lemma OtherStepKeepsOutcomes(s: State, a: Action)
    requires Inv(s) && Outcomes(s.db.sessions, s.db.outbox) && !a.SaveUploading?
    ensures var db' := Apply(s, a).db; Outcomes(db'.sessions, db'.outbox)
  {
    StepMoves(s, a);
    EndingsStayWhenAdvancing(s.db.sessions, Apply(s, a).db.sessions);
    OutcomesAreEnded(s.db);
    var id := StepAnnounces(s, a);
    OutcomesKept(s.db, Apply(s, a).db, id);
  }

  // ---------------------------------------------------------------------------
  // A mark-uploading save

  lemma UndecidedIsHarmless(s: State, a: Action)
    requires Inv(s) && Undecided(s, a)
    ensures Harmless(s, a)
  {
    if a.SaveUploading? && a.task in s.uploads { FiledIsDecided(s.db, s.uploads[a.task].id); }
  }

  lemma FiledIsDecided(db: Db, sid: Id)
    requires Events(db.files, db.outbox)
    ensures Filed(db.files, sid) ==> Decided(db.outbox, sid)
  {
    if Filed(db.files, sid) {
      var f :| f in db.files && db.files[f].location.key.session == sid;
      assert Announced(db.outbox, SessionCompleted(sid, f));
    }
  }

  lemma SaveKeepsOutcomes(s: State, task: Id)
    requires Outcomes(s.db.sessions, s.db.outbox) && Undecided(s, SaveUploading(task))
    ensures var db' := Apply(s, SaveUploading(task)).db; Outcomes(db'.sessions, db'.outbox)
  {
    var db' := Apply(s, SaveUploading(task)).db;
    forall e | e in db'.outbox && db'.outbox[e].SessionFailed?
      ensures db'.outbox[e].session in db'.sessions && Terminal(db'.sessions[db'.outbox[e].session].status)
    {
      assert AboutSession(s.db.outbox[e], s.db.outbox[e].session);
    }
  }

  lemma {:induction false} RunKeepsOutcomes(s: State, actions: seq<Action>)
    requires Inv(s) && Outcomes(s.db.sessions, s.db.outbox) && UndecidedRun(s, actions)
    ensures HarmlessRun(s, actions)
    ensures var end := Exec(s, actions).db; Outcomes(end.sessions, end.outbox)
    decreases |actions|
  {
    if actions != [] {
      var a := actions[0];
      UndecidedIsHarmless(s, a);
      StepKeepsInv(s, a);
      if a.SaveUploading? { SaveKeepsOutcomes(s, a.task); } else { OtherStepKeepsOutcomes(s, a); }
      RunKeepsOutcomes(Apply(s, a), actions[1..]);
    }
  }

  predicate AtMostOne(outbox: EventTable, sid: Id) {
    forall d, e :: d in outbox && e in outbox && AboutSession(outbox[d], sid) && AboutSession(outbox[e], sid) ==> d == e
  }

  /**
    * If no save overwrites the row of a session with an announced outcome, at most one outcome, completed or
    * failed, is ever announced for a session.
    */
  lemma OneOutcomePerSession(s0: State, actions: seq<Action>, sid: Id)
    requires Initial(s0) && UndecidedRun(s0, actions)
    ensures AtMostOne(Exec(s0, actions).db.outbox, sid)
  {
    InitialInv(s0);
    RunKeepsOutcomes(s0, actions);
  }

  // ---------------------------------------------------------------------------
  // The guard is exact

  /** A declared hash that is not well-formed. */
  const BAD := ContentHash(NoAlgorithm, NoDigest)

  /** The save, then a completion that fails for good: the declared hash is not well-formed. */
  predicate Refuses(run: seq<Action>, task: Id, sid: Id, r: Id, e: Id) {
    && |run| == 4 && run[0] == SaveUploading(task)
    && run[1] == BeginCompletion(r, sid, Text(0), Some(BAD))
    && run[2].Prepare? && run[2].req == r
    && run[3] == Fail(r, Text(0), e)
  }

  function Turned(s: State, r: Id, y: SessionState): State {
    s.(requests := s.requests[r := Refused(y, Text(0), HashInvalid)])
  }

  lemma PrepareRefuses(s: State, r: Id, y: SessionState, env: Storage)
    requires r in s.requests && s.requests[r] == Owned(y, Text(0), Some(BAD))
    ensures Apply(s, Prepare(r, env)) == Turned(s, r, y)
  {
  }

  lemma FailAnnouncesAlways(db: Db, y: SessionState, e: Id)
    requires y.id in db.sessions && db.sessions[y.id] == y && y == Reacquired(y, db.now) && db.now > 0
    requires WellShaped(y) && UploadIdMatchesMode(y) && e !in db.outbox
    ensures FailTx(db, y.id, Text(0), HashInvalid, Text(0), e).db.outbox
         == db.outbox[e := SessionFailed(y.id, HashInvalid)]
  {
    ValidateAcceptsExactly(y);
    ValidateAcceptsExactly(y.(status := Failed, failureCode := CodeText(HashInvalid), failureMessage := Text(0),
                              failedAt := Some(db.now)));
  }

  lemma TurnedFails(s: State, r: Id, y: SessionState, e: Id)
    requires r in s.requests && s.requests[r] == Refused(y, Text(0), HashInvalid)
    requires y.id in s.db.sessions && s.db.sessions[y.id] == y && y == Reacquired(y, s.db.now) && s.db.now > 0
    requires WellShaped(y) && UploadIdMatchesMode(y) && e !in s.db.outbox
    ensures Apply(s, Fail(r, Text(0), e)).db.outbox == s.db.outbox[e := SessionFailed(y.id, HashInvalid)]
  {
    FailIs(s, r, Text(0), e);
    FailAnnouncesAlways(s.db, y, e);
  }

  lemma SecondHalfAnnounces(s: State, r: Id, y: SessionState, e: Id, run: seq<Action>)
    requires r in s.requests && s.requests[r] == Owned(y, Text(0), Some(BAD))
    requires y.id in s.db.sessions && s.db.sessions[y.id] == y && y == Reacquired(y, s.db.now) && s.db.now > 0
    requires WellShaped(y) && UploadIdMatchesMode(y) && e !in s.db.outbox
    requires |run| == 2 && run[0].Prepare? && run[0].req == r && run[1] == Fail(r, Text(0), e)
    ensures Exec(s, run).db.outbox == s.db.outbox[e := SessionFailed(y.id, HashInvalid)]
  {
    PrepareRefuses(s, r, y, run[0].env);
    TurnedFails(Turned(s, r, y), r, y, e);
    assert run[0..] == run && run[2..] == [];
    ExecFrom(s, run, 0);
    ExecFrom(Turned(s, r, y), run, 1);
  }

  /** From every pending save, whatever the mode of its session, these steps announce a failure of the session. */
  lemma LateSaveAnnouncesFailure(s: State, task: Id, r: Id, e: Id, run: seq<Action>)
    requires Rows(s.db) && Copies(s) && Pending(s, task) && r !in s.requests && e !in s.db.outbox
    requires Refuses(run, task, s.uploads[task].id, r, e)
    ensures Exec(s, run).db.outbox == s.db.outbox[e := SessionFailed(s.uploads[task].id, HashInvalid)]
  {
    PendingRowLoads(s, task);
    SaveThenAcquire(s, task, r, Some(BAD), run);
    SecondHalfAnnounces(Reopened(s, task, r, Some(BAD)), r, Reacquired(s.uploads[task], s.db.now), e, run[2..]);
  }

  lemma OneMoreAnnouncement(outbox: EventTable, e: Id, event: Event, sid: Id)
    requires e !in outbox && AboutSession(event, sid)
    ensures AtMostOne(outbox[e := event], sid) <==> !Decided(outbox, sid)
  {
    var outbox' := outbox[e := event];
    assert AboutSession(outbox'[e], sid);
    if d :| d in outbox && AboutSession(outbox[d], sid) {
      assert d in outbox' && AboutSession(outbox'[d], sid) && d != e;
    }
  }

  /** So the guard is exact: after the save, those steps leave one outcome if and only if none was announced before. */
  lemma OneOutcomeExactly(s: State, task: Id, r: Id, e: Id, run: seq<Action>)
    requires Rows(s.db) && Copies(s) && Pending(s, task) && r !in s.requests && e !in s.db.outbox
    requires Refuses(run, task, s.uploads[task].id, r, e)
    ensures AtMostOne(Exec(s, run).db.outbox, s.uploads[task].id) <==> Undecided(s, SaveUploading(task))
  {
    LateSaveAnnouncesFailure(s, task, r, e, run);
    OneMoreAnnouncement(s.db.outbox, e, SessionFailed(s.uploads[task].id, HashInvalid), s.uploads[task].id);
  }
}
