/** The Redis lock and the scheduler that runs a job under it. */
module Locks {
  import opened Base

  /** A Redis string with an expiry, in milliseconds. */
  datatype Entry = Entry(owner: Id, expiresAt: Time)

  type Entries = map<Id, Entry>

  predicate Visible(entries: Entries, key: Id, now: Time) {
    key in entries && now < entries[key].expiresAt
  }

  predicate OwnedBy(entries: Entries, key: Id, owner: Id, now: Time) {
    Visible(entries, key, now) && entries[key].owner == owner
  }

  /** SET NX PX */
  function AfterSetNX(entries: Entries, key: Id, owner: Id, ttl: nat, now: Time): Entries {
    if Visible(entries, key, now) then entries else entries[key := Entry(owner, now + ttl)]
  }

  /** The renew script: compare the owner, then PEXPIRE. */
  function AfterRenew(entries: Entries, key: Id, owner: Id, ttl: nat, now: Time): Entries {
    if OwnedBy(entries, key, owner, now) then entries[key := Entry(owner, now + ttl)] else entries
  }

  /** The release script: compare the owner, then DEL. */
  function AfterRelease(entries: Entries, key: Id, owner: Id, now: Time): Entries {
    if OwnedBy(entries, key, owner, now) then entries - {key} else entries
  }

  class Redis {
    var entries: Entries

    constructor ()
      ensures entries == map[]
    {
      entries := map[];
    }

    method Acquire(key: Id, owner: Id, ttl: nat, now: Time) returns (acquired: bool)
      modifies this
      ensures acquired == !(key in old(entries) && now < old(entries)[key].expiresAt)
      ensures entries == if acquired then old(entries)[key := Entry(owner, now + ttl)] else old(entries)
    {
      if key in entries && entries[key].expiresAt <= now { entries := entries - {key}; }
      acquired := key !in entries;
      if acquired { entries := entries[key := Entry(owner, now + ttl)]; }
    }

    method Renew(key: Id, owner: Id, ttl: nat, now: Time) returns (ok: bool)
      modifies this
      ensures ok == (key in old(entries) && now < old(entries)[key].expiresAt && old(entries)[key].owner == owner)
      ensures entries == if ok then old(entries)[key := Entry(owner, now + ttl)] else old(entries)
    {
      ok := false;
      if key in entries && now < entries[key].expiresAt && entries[key].owner == owner {
        entries := entries[key := entries[key].(expiresAt := now + ttl)];
        ok := true;
      }
    }

    method Release(key: Id, owner: Id, now: Time) returns (ok: bool)
      modifies this
      ensures ok == (key in old(entries) && now < old(entries)[key].expiresAt && old(entries)[key].owner == owner)
      ensures entries == if ok then old(entries) - {key} else old(entries)
    {
      ok := false;
      if key in entries && now < entries[key].expiresAt && entries[key].owner == owner {
        entries := entries - {key};
        ok := true;
      }
    }
  }

  // ---------------------------------------------------------------------------
  // Any number of schedulers, interleaved at will

  datatype Phase = Executing | Returned | Done

  /** One RunOnce: executing its job, back from the worker, or done with Release. `until` is its own deadline. */
  datatype Run = Run(job: Id, owner: Id, phase: Phase, until: Time)

  datatype State = State(now: Time, entries: Entries, runs: map<Id, Run>)

  datatype Action =
    | Tick(elapsed: nat)
    | Start(run: Id, job: Id, owner: Id)
    | Renew(run: Id)      // also the last one of a renewing goroutine that outlives Release
    | Return(run: Id)
    | Release(run: Id)
    | Crash(run: Id)      // the process dies; its entry stays until it expires

  predicate Executes(s: State, run: Id, job: Id) {
    run in s.runs && s.runs[run].job == job && s.runs[run].phase.Executing?
  }

  function Apply(ttl: nat, s: State, a: Action): State {
    match a
    case Tick(elapsed) => s.(now := s.now + elapsed)
    case Start(run, job, owner) =>
      if run in s.runs || Visible(s.entries, job, s.now) then s
      else s.(entries := AfterSetNX(s.entries, job, owner, ttl, s.now),
              runs := s.runs[run := Run(job, owner, Executing, s.now + ttl)])
    case Renew(run) =>
      if run !in s.runs then s
      else
        var r := s.runs[run];
        s.(entries := AfterRenew(s.entries, r.job, r.owner, ttl, s.now),
           runs := if OwnedBy(s.entries, r.job, r.owner, s.now) && !r.phase.Done?
                   then s.runs[run := r.(until := s.now + ttl)] else s.runs)
    case Return(run) =>
      if run in s.runs && s.runs[run].phase.Executing?
      then s.(runs := s.runs[run := s.runs[run].(phase := Returned)]) else s
    case Release(run) =>
      if run in s.runs && s.runs[run].phase.Returned?
      then s.(entries := AfterRelease(s.entries, s.runs[run].job, s.runs[run].owner, s.now),
              runs := s.runs[run := s.runs[run].(phase := Done)])
      else s
    case Crash(run) => s.(runs := s.runs - {run})
  }

  /** Starting takes the lock for one TTL, exactly when nobody's entry is visible. */
  lemma StartsExactly(ttl: nat, s: State, run: Id, job: Id, owner: Id)
    ensures Apply(ttl, s, Start(run, job, owner))
         == if run !in s.runs && !(job in s.entries && s.now < s.entries[job].expiresAt)
            then s.(entries := s.entries[job := Entry(owner, s.now + ttl)],
                    runs := s.runs[run := Run(job, owner, Executing, s.now + ttl)])
            else s
  {
  }

  /** Renewing and releasing act exactly on the caller's own visible entry; a run that is done has no deadline. */
  lemma RenewsAndReleasesExactly(ttl: nat, s: State, run: Id)
    requires run in s.runs
    ensures var r := s.runs[run];
            var own := r.job in s.entries && s.now < s.entries[r.job].expiresAt && s.entries[r.job].owner == r.owner;
            && Apply(ttl, s, Renew(run))
               == (if !own then s
                   else s.(entries := s.entries[r.job := Entry(r.owner, s.now + ttl)],
                           runs := if r.phase.Done? then s.runs
                                   else s.runs[run := Run(r.job, r.owner, r.phase, s.now + ttl)]))
            && Apply(ttl, s, Release(run))
               == (if !r.phase.Returned? then s
                   else s.(entries := if own then s.entries - {r.job} else s.entries,
                           runs := s.runs[run := Run(r.job, r.owner, Done, r.until)]))
            && Apply(ttl, s, Return(run))
               == (if !r.phase.Executing? then s
                   else s.(runs := s.runs[run := Run(r.job, r.owner, Returned, r.until)]))
            && Apply(ttl, s, Crash(run)) == s.(runs := s.runs - {run})
  {
  }

  function Exec(ttl: nat, s: State, actions: seq<Action>): State
    decreases |actions|
  {
    if actions == [] then s else Exec(ttl, Apply(ttl, s, actions[0]), actions[1..])
  }

  /** No holder has let its deadline pass: each has renewed, or released, in time. */
  predicate Timely(s: State) {
    forall run :: run in s.runs && !s.runs[run].phase.Done? ==> s.now < s.runs[run].until
  }

  predicate TimelyRun(ttl: nat, s: State, actions: seq<Action>)
    decreases |actions|
  {
    Timely(s) && (actions != [] ==> TimelyRun(ttl, Apply(ttl, s, actions[0]), actions[1..]))
  }

  predicate Initial(s: State) {
    s.entries == map[] && s.runs == map[]
  }

  // ---------------------------------------------------------------------------
  // Timed mutual exclusion

  /** Every holder's entry is in Redis under its own name, at least until its deadline. */
  predicate Backed(s: State) {
    forall run :: run in s.runs && !s.runs[run].phase.Done? ==>
      var r := s.runs[run];
      r.job in s.entries && s.entries[r.job].owner == r.owner && s.entries[r.job].expiresAt >= r.until
  }

  predicate OneHolder(s: State) {
    forall run, other | run in s.runs && other in s.runs && !s.runs[run].phase.Done? && !s.runs[other].phase.Done? ::
      s.runs[run].job == s.runs[other].job ==> run == other
  }

  /** No deadline lies further ahead than one TTL. */
  predicate Bounded(ttl: nat, s: State) {
    forall run :: run in s.runs ==> s.runs[run].until <= s.now + ttl
  }

  predicate Inv(ttl: nat, s: State) {
    Backed(s) && OneHolder(s) && Bounded(ttl, s)
  }

  lemma StepKeepsInv(ttl: nat, s: State, a: Action)
    requires Inv(ttl, s) && Timely(s)
    ensures Inv(ttl, Apply(ttl, s, a))
  {
  }

  lemma {:induction false} RunKeepsInv(ttl: nat, s: State, actions: seq<Action>)
    requires Inv(ttl, s) && TimelyRun(ttl, s, actions)
    ensures Inv(ttl, Exec(ttl, s, actions)) && Timely(Exec(ttl, s, actions))
    decreases |actions|
  {
    if actions != [] {
      StepKeepsInv(ttl, s, actions[0]);
      RunKeepsInv(ttl, Apply(ttl, s, actions[0]), actions[1..]);
    }
  }

  /** If every holder renews before its TTL runs out, at most one RunOnce per job executes, in any process. */
  lemma MutualExclusion(ttl: nat, s0: State, actions: seq<Action>, job: Id, run: Id, other: Id)
    requires Initial(s0) && TimelyRun(ttl, s0, actions)
    requires var s := Exec(ttl, s0, actions); Executes(s, run, job) && Executes(s, other, job)
    ensures run == other
  {
    RunKeepsInv(ttl, s0, actions);
  }

  /** A timely holder never loses ownership: its Renew and its Release succeed. */
  lemma TimelyHolderKeepsLock(ttl: nat, s0: State, actions: seq<Action>, run: Id)
    requires Initial(s0) && TimelyRun(ttl, s0, actions)
    requires var s := Exec(ttl, s0, actions); run in s.runs && !s.runs[run].phase.Done?
    ensures var s := Exec(ttl, s0, actions); OwnedBy(s.entries, s.runs[run].job, s.runs[run].owner, s.now)
  {
    RunKeepsInv(ttl, s0, actions);
  }

  /** While one run executes, another can start exactly when the entry has expired or is gone. */
  lemma ExclusionFailsExactly(ttl: nat, s: State, job: Id, run: Id, other: Id, owner: Id)
    requires Executes(s, run, job) && other !in s.runs
    ensures var s' := Apply(ttl, s, Start(other, job, owner));
            Executes(s', run, job) && (Executes(s', other, job) <==> !Visible(s.entries, job, s.now))
  {
  }

  // ---------------------------------------------------------------------------
  // Other owners' entries

  predicate ActsFor(s: State, a: Action, owner: Id) {
    match a
    case Tick(_) => false
    case Start(_, _, o) => o == owner
    case Renew(run) => run in s.runs && s.runs[run].owner == owner
    case Return(run) => run in s.runs && s.runs[run].owner == owner
    case Release(run) => run in s.runs && s.runs[run].owner == owner
    case Crash(run) => run in s.runs && s.runs[run].owner == owner
  }

  /** Some run of this owner takes a step in the sequence. */
  predicate Involved(ttl: nat, s: State, actions: seq<Action>, owner: Id)
    decreases |actions|
  {
    actions != [] && (ActsFor(s, actions[0], owner) || Involved(ttl, Apply(ttl, s, actions[0]), actions[1..], owner))
  }

  lemma {:induction false} ClockOnlyAdvances(ttl: nat, s: State, actions: seq<Action>)
    ensures s.now <= Exec(ttl, s, actions).now
    decreases |actions|
  {
    if actions != [] { ClockOnlyAdvances(ttl, Apply(ttl, s, actions[0]), actions[1..]); }
  }

  /**
    * In every run, timely or not, an entry that has not expired is never touched by another owner:
    * only its owner's own steps can change it.
    */
  lemma {:induction false} OthersNeverTouchAnEntry(ttl: nat, s: State, actions: seq<Action>, key: Id)
    requires key in s.entries && !Involved(ttl, s, actions, s.entries[key].owner)
    requires Exec(ttl, s, actions).now < s.entries[key].expiresAt
    ensures key in Exec(ttl, s, actions).entries && Exec(ttl, s, actions).entries[key] == s.entries[key]
    decreases |actions|
  {
    ClockOnlyAdvances(ttl, s, actions);
    if actions != [] { OthersNeverTouchAnEntry(ttl, Apply(ttl, s, actions[0]), actions[1..], key); }
  }

  // ---------------------------------------------------------------------------
  // Exclusion between runs that are within their own deadlines

  /** The run has not released its lock and its own deadline lies ahead. */
  predicate Live(s: State, run: Id) {
    run in s.runs && !s.runs[run].phase.Done? && s.now < s.runs[run].until
  }

  /** No start finds an unfinished run of the same job and owner: a process runs each job in one loop. */
  predicate Sequential(s: State, a: Action) {
    a.Start? ==>
      forall run :: run in s.runs && s.runs[run].job == a.job && s.runs[run].owner == a.owner ==>
        s.runs[run].phase.Done?
  }

  predicate SequentialRun(ttl: nat, s: State, actions: seq<Action>)
    decreases |actions|
  {
    actions == [] || (Sequential(s, actions[0]) && SequentialRun(ttl, Apply(ttl, s, actions[0]), actions[1..]))
  }

  /** The entry of every live run is in Redis under its own name, at least until its deadline. */
  predicate LiveBacked(s: State) {
    forall run :: run in s.runs && Live(s, run) ==>
      var r := s.runs[run];
      r.job in s.entries && s.entries[r.job].owner == r.owner && s.entries[r.job].expiresAt >= r.until
  }

  predicate OwnersApart(s: State) {
    forall run, other | run in s.runs && other in s.runs && !s.runs[run].phase.Done? && !s.runs[other].phase.Done? ::
      s.runs[run].job == s.runs[other].job && s.runs[run].owner == s.runs[other].owner ==> run == other
  }

  predicate SequentialInv(ttl: nat, s: State) {
    LiveBacked(s) && OwnersApart(s) && Bounded(ttl, s)
  }

  lemma StepKeepsSequentialInv(ttl: nat, s: State, a: Action)
    requires SequentialInv(ttl, s) && Sequential(s, a)
    ensures SequentialInv(ttl, Apply(ttl, s, a))
  {
  }

  lemma {:induction false} RunKeepsSequentialInv(ttl: nat, s: State, actions: seq<Action>)
    requires SequentialInv(ttl, s) && SequentialRun(ttl, s, actions)
    ensures SequentialInv(ttl, Exec(ttl, s, actions))
    decreases |actions|
  {
    if actions != [] {
      StepKeepsSequentialInv(ttl, s, actions[0]);
      RunKeepsSequentialInv(ttl, Apply(ttl, s, actions[0]), actions[1..]);
    }
  }

  /**
    * However late the other runs are, two runs of a job that are both within their own deadlines are the same run,
    * and that run still owns its entry.
    */
  lemma LiveRunsExclude(ttl: nat, s0: State, actions: seq<Action>, job: Id, run: Id, other: Id)
    requires Initial(s0) && SequentialRun(ttl, s0, actions)
    requires var s := Exec(ttl, s0, actions);
             Live(s, run) && Live(s, other) && s.runs[run].job == job && s.runs[other].job == job
    ensures run == other
    ensures var s := Exec(ttl, s0, actions); OwnedBy(s.entries, job, s.runs[run].owner, s.now)
  {
    RunKeepsSequentialInv(ttl, s0, actions);
  }

  /** Releasing takes away the entry behind another run exactly when both have the same owner. */
  lemma ReleaseHitsSameOwnerExactly(ttl: nat, s: State, job: Id, first: Id, second: Id)
    requires first in s.runs && s.runs[first].job == job && s.runs[first].phase.Returned?
    requires Executes(s, second, job) && OwnedBy(s.entries, job, s.runs[second].owner, s.now)
    ensures var s' := Apply(ttl, s, Release(first));
            && Executes(s', second, job)
            && (!Visible(s'.entries, job, s'.now) <==> s.runs[first].owner == s.runs[second].owner)
  {
  }

  /** The run of two processes that share an owner, and of a third one. */
  function SharedOwner(ttl: nat): seq<Action> {
    [Start(0, 0, 0), Return(0), Tick(ttl), Start(1, 0, 0), Release(0), Start(2, 0, 1)]
  }

  /** If two processes had one host name and process id, two live runs of a job could execute at once. */
  lemma SharedOwnerBreaksExclusion(ttl: nat, s0: State)
    requires ttl > 0 && Initial(s0)
    ensures var s := Exec(ttl, s0, SharedOwner(ttl));
            Live(s, 1) && Live(s, 2) && Executes(s, 1, 0) && Executes(s, 2, 0)
    ensures !SequentialRun(ttl, s0, SharedOwner(ttl))
  {
    var a := SharedOwner(ttl);
    var s1 := Apply(ttl, s0, a[0]);
    var s2 := Apply(ttl, s1, a[1]);
    var s3 := Apply(ttl, s2, a[2]);
    var s4 := Apply(ttl, s3, a[3]);
    var s5 := Apply(ttl, s4, a[4]);
    var s6 := Apply(ttl, s5, a[5]);
    ExecFrom(ttl, s0, a, 0);
    ExecFrom(ttl, s1, a, 1);
    ExecFrom(ttl, s2, a, 2);
    ExecFrom(ttl, s3, a, 3);
    ExecFrom(ttl, s4, a, 4);
    ExecFrom(ttl, s5, a, 5);
    assert a[0..] == a && Exec(ttl, s6, a[6..]) == s6;
    assert !Sequential(s3, a[3]);
  }

  lemma ExecFrom(ttl: nat, s: State, a: seq<Action>, k: nat)
    requires k < |a|
    ensures Exec(ttl, s, a[k..]) == Exec(ttl, Apply(ttl, s, a[k]), a[k + 1..])
    ensures SequentialRun(ttl, s, a[k..]) ==> Sequential(s, a[k]) && SequentialRun(ttl, Apply(ttl, s, a[k]), a[k + 1..])
  {
    assert a[k..][1..] == a[k + 1..];
  }
}
