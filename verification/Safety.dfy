/** The invariant over whole runs, and what it means for the service. */
module Safety {
  import opened Lifecycle
  import opened Invariant
  import opened SessionSteps
  import opened AssetSteps
  import opened GarbageSteps

  predicate SessionAction(a: Action) {
    || a.CreateSession? || a.ReadUploading? || a.SaveUploading? || a.ReadAbort? || a.SaveAbort?
    || a.Expire? || a.Repair? || a.CleanMultipart?
  }

  predicate RequestAction(a: Action) {
    a.BeginCompletion? || a.Prepare? || a.Commit? || a.Fail? || a.Drop?
  }

  lemma SessionActionKeeps(s: State, a: Action)
    requires Inv(s) && Harmless(s, a) && SessionAction(a)
    ensures Inv(Apply(s, a))
  {
    match a
    case CreateSession(x) => CreateSessionKeeps(s, x);
    case ReadUploading(task, sid, parts) => ReadUploadingKeeps(s, task, sid, parts);
    case SaveUploading(task) => SaveUploadingKeeps(s, task);
    case ReadAbort(task, sid) => ReadAbortKeeps(s, task, sid);
    case SaveAbort(task) => SaveAbortKeeps(s, task);
    case Expire(batch, before) => ExpireKeeps(s, batch, before);
    case Repair(batch, before) => RepairKeeps(s, batch, before);
    case CleanMultipart(batch, before) => MultipartKeeps(s, batch, before);
  }

  lemma RequestActionKeeps(s: State, a: Action)
    requires Inv(s) && RequestAction(a)
    ensures Inv(Apply(s, a))
  {
    match a
    case BeginCompletion(r, sid, token, declared) => BeginCompletionKeeps(s, r, sid, token, declared);
    case Prepare(r, env) => PrepareKeeps(s, r, env);
    case Commit(r, b, f, e) => CommitKeeps(s, r, b, f, e);
    case Fail(r, text, e) => FailKeeps(s, r, text, e);
    case Drop(r) => DropKeeps(s, r);
  }

  lemma OtherActionKeeps(s: State, a: Action)
    requires Inv(s) && !SessionAction(a) && !RequestAction(a)
    ensures Inv(Apply(s, a))
  {
    match a
    case Tick(n) => TickKeeps(s, n);
    case CreateTenant(t) => CreateTenantKeeps(s, t);
    case DeleteFile(f, audit, e) => DeleteKeeps(s, f, audit, e);
    case FinalizeDeletes(doomed, before, done, committed) => FinalizeKeeps(s, doomed, before, done, committed);
    case CollectOrphans(doomed, before, done, committed) => OrphansKeep(s, doomed, before, done, committed);
    case Reconcile(t) => ReconcileKeeps(s, t);
  }

  lemma StepKeepsInv(s: State, a: Action)
    requires Inv(s) && Harmless(s, a)
    ensures Inv(Apply(s, a))
  {
    if SessionAction(a) {
      SessionActionKeeps(s, a);
    } else if RequestAction(a) {
      RequestActionKeeps(s, a);
    } else {
      OtherActionKeeps(s, a);
    }
  }

  lemma InitialInv(s: State)
    requires Initial(s)
    ensures Inv(s)
  {
  }

  lemma {:induction false} RunKeepsInv(s: State, actions: seq<Action>)
    requires Inv(s) && HarmlessRun(s, actions)
    ensures Inv(Exec(s, actions))
    decreases |actions|
  {
    if actions != [] {
      StepKeepsInv(s, actions[0]);
      RunKeepsInv(Apply(s, actions[0]), actions[1..]);
    }
  }

  /** Some run of the service from an empty deployment ends in `s`. */
  ghost predicate Reachable(s: State) {
    exists s0, actions :: Initial(s0) && HarmlessRun(s0, actions) && s == Exec(s0, actions)
  }

  lemma ReachableInv(s: State)
    requires Reachable(s)
    ensures Inv(s)
  {
    var s0, actions :| Initial(s0) && HarmlessRun(s0, actions) && s == Exec(s0, actions);
    InitialInv(s0);
    RunKeepsInv(s0, actions);
  }

  lemma {:induction false} ExecAppend(s: State, actions: seq<Action>, a: Action)
    requires HarmlessRun(s, actions) && Harmless(Exec(s, actions), a)
    ensures HarmlessRun(s, actions + [a]) && Exec(s, actions + [a]) == Apply(Exec(s, actions), a)
    decreases |actions|
  {
    if actions == [] {
      assert actions + [a] == [a];
    } else {
      ExecAppend(Apply(s, actions[0]), actions[1..], a);
      assert (actions + [a])[0] == actions[0] && (actions + [a])[1..] == actions[1..] + [a];
    }
  }

  /** One more step from a reachable state. */
  lemma ReachableStep(s: State, a: Action)
    requires Reachable(s) && Harmless(s, a)
    ensures Reachable(Apply(s, a))
  {
    var s0, actions :| Initial(s0) && HarmlessRun(s0, actions) && s == Exec(s0, actions);
    ExecAppend(s0, actions, a);
  }

  lemma InitialIsReachable(s: State)
    requires Initial(s)
    ensures Reachable(s)
  {
    var none: seq<Action> := [];
    assert HarmlessRun(s, none) && Exec(s, none) == s;
  }
}
