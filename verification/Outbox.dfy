/** The outbox: claiming events under a lease, marking them, and the consumer's run. */
module Outbox {
  import opened Base
  import Backoff

  datatype Status = Pending | Failed | Published

  datatype Row = Row(kind: Id, status: Status, retryCount: nat, nextAttempt: Option<Time>, createdAt: Time)

  type Rows = map<Id, Row>

  /** Five minutes, in seconds. */
  const LEASE: nat := 300

  datatype Config = Config(kinds: set<Id>, base: int, max: int)

  predicate Configured(c: Config) {
    c.base > 0 && c.max > 0
  }

  function DueAt(row: Row): Time {
    if row.nextAttempt.Some? then row.nextAttempt.value else row.createdAt
  }

  /** An empty list of event types selects all of them. */
  predicate Handles(c: Config, row: Row) {
    c.kinds == {} || row.kind in c.kinds
  }

  predicate Claimable(c: Config, row: Row, dueBefore: Time) {
    !row.status.Published? && DueAt(row) <= dueBefore && Handles(c, row)
  }

  function ClaimedRow(row: Row, dueBefore: Time): Row {
    row.(nextAttempt := Some(dueBefore + LEASE))
  }

  function PublishedRow(row: Row): Row {
    row.(status := Published)
  }

  function FailedRow(row: Row, nextAttempt: Time): Row {
    row.(status := Failed, retryCount := row.retryCount + 1, nextAttempt := Some(nextAttempt))
  }

  function ClaimedRows(rows: Rows, batch: set<Id>, dueBefore: Time): Rows {
    map e | e in rows :: if e in batch then ClaimedRow(rows[e], dueBefore) else rows[e]
  }

  // ---------------------------------------------------------------------------
  // Any number of consumers, interleaved at will

  /** A run between claiming and its last mark: what it still has to mark, with the retry counts it read. */
  datatype Run = Run(dueBefore: Time, startedAt: Time, held: map<Id, nat>)

  datatype State = State(now: Time, rows: Rows, touched: map<Id, Time>, runs: map<Id, Run>)

  datatype Action =
    | Tick(elapsed: nat)
    | Enqueue(event: Id, kind: Id)
    | Claim(run: Id, batch: set<Id>, dueBefore: Time)
    | Publish(run: Id, event: Id)
    | Fail(run: Id, event: Id)
    | Stop(run: Id)

  predicate CanClaim(c: Config, s: State, run: Id, batch: set<Id>, dueBefore: Time) {
    && run !in s.runs && dueBefore <= s.now
    && forall e :: e in batch ==> e in s.rows && Claimable(c, s.rows[e], dueBefore)
  }

  predicate Holds(s: State, run: Id, e: Id) {
    run in s.runs && e in s.runs[run].held && e in s.rows
  }

  function Released(runs: map<Id, Run>, run: Id, e: Id): map<Id, Run>
    requires run in runs
  {
    runs[run := runs[run].(held := runs[run].held - {e})]
  }

  /** The next attempt after a failure counts from the moment right after the claim. */
  function NextAttempt(c: Config, r: Run, e: Id): Time
    requires Configured(c) && e in r.held
  {
    r.startedAt + Backoff.Delay(c.base, c.max, r.held[e])
  }

  function Apply(c: Config, s: State, a: Action): State
    requires Configured(c)
  {
    match a
    case Tick(elapsed) => s.(now := s.now + elapsed)
    case Enqueue(e, kind) =>
      if e in s.rows then s
      else s.(rows := s.rows[e := Row(kind, Pending, 0, None, s.now)], touched := s.touched[e := s.now])
    case Claim(run, batch, dueBefore) =>
      if !CanClaim(c, s, run, batch, dueBefore) then s
      else s.(rows := ClaimedRows(s.rows, batch, dueBefore),
              touched := map e | e in s.touched :: if e in batch then s.now else s.touched[e],
              runs := s.runs[run := Run(dueBefore, s.now, map e | e in batch :: s.rows[e].retryCount)])
    case Publish(run, e) =>
      if !Holds(s, run, e) then s
      else s.(rows := s.rows[e := PublishedRow(s.rows[e])], touched := s.touched[e := s.now],
              runs := Released(s.runs, run, e))
    case Fail(run, e) =>
      if !Holds(s, run, e) then s
      else s.(rows := s.rows[e := FailedRow(s.rows[e], NextAttempt(c, s.runs[run], e))],
              touched := s.touched[e := s.now], runs := Released(s.runs, run, e))
    case Stop(run) => s.(runs := s.runs - {run})
  }

  function Exec(c: Config, s: State, actions: seq<Action>): State
    requires Configured(c)
    decreases |actions|
  {
    if actions == [] then s else Exec(c, Apply(c, s, actions[0]), actions[1..])
  }

  predicate Initial(s: State) {
    s.rows == map[] && s.touched == map[] && s.runs == map[]
  }

  /** The lease of the run has not ended yet. */
  predicate Live(s: State, run: Id) {
    run in s.runs && s.now < s.runs[run].dueBefore + LEASE
  }

  /** A mark is timely if it comes before the claim time plus the lease. */
  predicate Timely(s: State, a: Action) {
    (a.Publish? || a.Fail?) && Holds(s, a.run, a.event) ==> Live(s, a.run)
  }

  predicate TimelyRun(c: Config, s: State, actions: seq<Action>)
    requires Configured(c)
    decreases |actions|
  {
    actions == [] || (Timely(s, actions[0]) && TimelyRun(c, Apply(c, s, actions[0]), actions[1..]))
  }

  // ---------------------------------------------------------------------------
  // At most one live holder

  /** A live holder has the event to itself: it is unpublished and not due before the lease ends. */
  ghost predicate Leased(s: State) {
    forall run, e | Live(s, run) && Holds(s, run, e) ::
      && !s.rows[e].status.Published? && s.rows[e].nextAttempt == Some(s.runs[run].dueBefore + LEASE)
      && s.rows[e].retryCount == s.runs[run].held[e]
  }

  ghost predicate OneHolder(s: State) {
    forall run, other, e | Live(s, run) && Live(s, other) && Holds(s, run, e) && Holds(s, other, e) :: run == other
  }

  /** Events never disappear, and those held exist. */
  predicate Known(s: State) {
    && s.touched.Keys == s.rows.Keys
    && forall run :: run in s.runs ==> s.runs[run].held.Keys <= s.rows.Keys && s.runs[run].startedAt <= s.now
  }

  ghost predicate Inv(s: State) {
    Known(s) && Leased(s) && OneHolder(s)
  }

  lemma ClaimKeepsInv(c: Config, s: State, run: Id, batch: set<Id>, dueBefore: Time)
    requires Configured(c) && Inv(s)
    ensures Inv(Apply(c, s, Claim(run, batch, dueBefore)))
  {
    if CanClaim(c, s, run, batch, dueBefore) {
      var s' := Apply(c, s, Claim(run, batch, dueBefore));
      forall other, e | other != run && Live(s', other) && Holds(s', other, e)
        ensures e !in batch && Live(s, other) && Holds(s, other, e)
      {
        assert s'.runs[other] == s.runs[other];
      }
    }
  }

  lemma MarkKeepsInv(c: Config, s: State, a: Action)
    requires Configured(c) && Inv(s) && Timely(s, a) && (a.Publish? || a.Fail?)
    ensures Inv(Apply(c, s, a))
  {
    if Holds(s, a.run, a.event) {
      var s' := Apply(c, s, a);
      forall other, e | Live(s', other) && Holds(s', other, e)
        ensures Live(s, other) && Holds(s, other, e) && e != a.event
      {
        assert other != a.run ==> s'.runs[other] == s.runs[other];
        assert Live(s, other) && Holds(s, other, e);
        assert Live(s, a.run) && Holds(s, a.run, a.event);
      }
    }
  }

  lemma OtherKeepsInv(c: Config, s: State, a: Action)
    requires Configured(c) && Inv(s) && (a.Tick? || a.Enqueue? || a.Stop?)
    ensures Inv(Apply(c, s, a))
  {
    var s' := Apply(c, s, a);
    forall run, e | Live(s', run) && Holds(s', run, e)
      ensures Live(s, run) && Holds(s, run, e) && s'.rows[e] == s.rows[e]
    {
      assert s'.runs[run] == s.runs[run];
    }
  }

  lemma StepKeepsInv(c: Config, s: State, a: Action)
    requires Configured(c) && Inv(s) && Timely(s, a)
    ensures Inv(Apply(c, s, a))
  {
    match a
    case Claim(run, batch, dueBefore) => ClaimKeepsInv(c, s, run, batch, dueBefore);
    case Publish(_, _) => MarkKeepsInv(c, s, a);
    case Fail(_, _) => MarkKeepsInv(c, s, a);
    case _ => OtherKeepsInv(c, s, a);
  }

  predicate PublishedStays(rows: Rows, rows': Rows) {
    forall e :: e in rows && rows[e].status.Published? ==> e in rows' && rows'[e].status.Published?
  }

  lemma StepKeepsPublished(c: Config, s: State, a: Action)
    requires Configured(c) && Inv(s) && Timely(s, a)
    ensures PublishedStays(s.rows, Apply(c, s, a).rows)
  {
  }

  lemma {:induction false} RunKeepsInv(c: Config, s: State, actions: seq<Action>)
    requires Configured(c) && Inv(s) && TimelyRun(c, s, actions)
    ensures Inv(Exec(c, s, actions)) && PublishedStays(s.rows, Exec(c, s, actions).rows)
    decreases |actions|
  {
    if actions != [] {
      StepKeepsInv(c, s, actions[0]);
      StepKeepsPublished(c, s, actions[0]);
      RunKeepsInv(c, Apply(c, s, actions[0]), actions[1..]);
    }
  }

  /** With timely marks no event is ever held by two runs within their leases. */
  lemma NoEventHeldTwice(c: Config, s0: State, actions: seq<Action>, run: Id, other: Id, e: Id)
    requires Configured(c) && Initial(s0) && TimelyRun(c, s0, actions)
    requires var s := Exec(c, s0, actions);
             Live(s, run) && Live(s, other) && Holds(s, run, e) && Holds(s, other, e)
    ensures run == other
  {
    RunKeepsInv(c, s0, actions);
  }

  /** With timely marks PUBLISHED is never left. */
  lemma PublishedIsFinal(c: Config, s0: State, before: seq<Action>, after: seq<Action>)
    requires Configured(c) && Initial(s0) && TimelyRun(c, s0, before) && TimelyRun(c, Exec(c, s0, before), after)
    ensures PublishedStays(Exec(c, s0, before).rows, Exec(c, Exec(c, s0, before), after).rows)
  {
    RunKeepsInv(c, s0, before);
    RunKeepsInv(c, Exec(c, s0, before), after);
  }

  /** Another run can claim the event of its last claimant exactly when that one's lease has ended. */
  lemma SecondClaimExactly(c: Config, s: State, run: Id, other: Id, e: Id)
    requires Configured(c) && Holds(s, run, e) && other !in s.runs
    requires !s.rows[e].status.Published? && Handles(c, s.rows[e])
    requires s.rows[e].nextAttempt == Some(s.runs[run].dueBefore + LEASE)
    ensures Holds(Apply(c, s, Claim(other, {e}, s.now)), other, e) <==> !Live(s, run)
  {
    assert CanClaim(c, s, other, {e}, s.now) <==> Claimable(c, s.rows[e], s.now);
  }

  /** And once it can, the late mark of the old holder can undo PUBLISHED. */
  lemma LateMarkUndoesPublished(c: Config, s: State, run: Id, other: Id, e: Id)
    requires Configured(c) && Holds(s, run, e) && other !in s.runs && Claimable(c, s.rows[e], s.now)
    ensures var published := Exec(c, s, [Claim(other, {e}, s.now), Publish(other, e)]);
            && e in published.rows && published.rows[e].status.Published?
            && e in Apply(c, published, Fail(run, e)).rows
            && Apply(c, published, Fail(run, e)).rows[e].status.Failed?
  {
    var s1 := Apply(c, s, Claim(other, {e}, s.now));
    var s2 := Apply(c, s1, Publish(other, e));
    assert Holds(s1, other, e);
    var actions := [Claim(other, {e}, s.now), Publish(other, e)];
    assert actions[1..] == [Publish(other, e)];
    assert Exec(c, s, actions) == Exec(c, s1, actions[1..]) == s2;
    assert s2.runs[run] == s.runs[run];
  }

  /** A run claims an event and lets its lease end. */
  function Oversleep(kind: Id, now: Time): seq<Action> {
    [Enqueue(0, kind), Claim(0, {0}, now), Tick(LEASE)]
  }

  lemma OversleepReached(c: Config, s0: State, kind: Id)
    requires Configured(c) && Initial(s0) && (c.kinds == {} || kind in c.kinds)
    ensures var s := Exec(c, s0, Oversleep(kind, s0.now));
            Holds(s, 0, 0) && s.runs.Keys == {0} && Claimable(c, s.rows[0], s.now)
  {
    var run := Oversleep(kind, s0.now);
    var s1 := Apply(c, s0, run[0]);
    var s2 := Apply(c, s1, run[1]);
    assert CanClaim(c, s1, 0, {0}, s0.now);
    assert run[1..][1..] == run[2..] && run[2..][1..] == [];
    assert Exec(c, s0, run) == Exec(c, s1, run[1..]) == Exec(c, s2, run[2..]) == Apply(c, s2, run[2]);
  }

  /** So PUBLISHED can be undone from the start: the late mark comes after another run has published. */
  lemma PublishedIsUndone(c: Config, s0: State, kind: Id)
    requires Configured(c) && Initial(s0) && (c.kinds == {} || kind in c.kinds)
    ensures var s := Exec(c, s0, Oversleep(kind, s0.now));
            var published := Exec(c, s, [Claim(1, {0}, s.now), Publish(1, 0)]);
            && 0 in published.rows && published.rows[0].status.Published?
            && 0 in Apply(c, published, Fail(0, 0)).rows
            && Apply(c, published, Fail(0, 0)).rows[0].status.Failed?
  {
    OversleepReached(c, s0, kind);
    LateMarkUndoesPublished(c, Exec(c, s0, Oversleep(kind, s0.now)), 0, 1, 0);
  }

  // ---------------------------------------------------------------------------
  // Steps, field by field

  /** Unpublished, of a type the consumer handles, and due: at its next attempt or, before the first, since creation. */
  predicate Due(c: Config, row: Row, dueBefore: Time) {
    && (row.status.Pending? || row.status.Failed?)
    && (match row.nextAttempt case Some(at) => at <= dueBefore case None => row.createdAt <= dueBefore)
    && (c.kinds == {} || row.kind in c.kinds)
  }

  /** A claim takes its batch exactly when every event in it is due, and postpones each by five minutes. */
  lemma ClaimsExactly(c: Config, s: State, run: Id, batch: set<Id>, dueBefore: Time)
    requires Configured(c)
    ensures var s' := Apply(c, s, Claim(run, batch, dueBefore));
            if run !in s.runs && dueBefore <= s.now
               && forall e :: e in batch ==> e in s.rows && Due(c, s.rows[e], dueBefore)
            then
              && s'.now == s.now && s'.rows.Keys == s.rows.Keys
              && (forall e :: e in s.rows ==>
                    s'.rows[e] == if e in batch then s.rows[e].(nextAttempt := Some(dueBefore + 300)) else s.rows[e])
              && s'.runs == s.runs[run := Run(dueBefore, s.now, map e | e in batch :: s.rows[e].retryCount)]
            else s' == s
  {
    forall e | e in s.rows ensures Due(c, s.rows[e], dueBefore) <==> Claimable(c, s.rows[e], dueBefore) {
    }
  }

  /** Marks take effect exactly on events the run holds, and use up the hold. */
  lemma MarksExactly(c: Config, s: State, run: Id, e: Id)
    requires Configured(c)
    ensures var held := run in s.runs && e in s.runs[run].held && e in s.rows;
            var published, failed := Apply(c, s, Publish(run, e)), Apply(c, s, Fail(run, e));
            if !held then published == s && failed == s
            else
              var row, r := s.rows[e], s.runs[run];
              var released := s.runs[run := Run(r.dueBefore, r.startedAt, r.held - {e})];
              && published.rows == s.rows[e := Row(row.kind, Published, row.retryCount, row.nextAttempt, row.createdAt)]
              && failed.rows
                 == s.rows[e := Row(row.kind, Failed, row.retryCount + 1,
                                    Some(r.startedAt + Backoff.Delay(c.base, c.max, r.held[e])), row.createdAt)]
              && published.runs == released && failed.runs == released
              && published.now == s.now && failed.now == s.now
  {
  }

  lemma EnqueuesExactly(c: Config, s: State, e: Id, kind: Id)
    requires Configured(c)
    ensures var s' := Apply(c, s, Enqueue(e, kind));
            if e in s.rows then s' == s
            else s'.rows == s.rows[e := Row(kind, Pending, 0, None, s.now)] && s'.runs == s.runs && s'.now == s.now
  {
  }

  /** A run may stop at any point, and what it held is left to its lease. */
  lemma StopsExactly(c: Config, s: State, run: Id, elapsed: nat)
    requires Configured(c)
    ensures Apply(c, s, Stop(run)) == s.(runs := s.runs - {run})
    ensures Apply(c, s, Tick(elapsed)) == s.(now := s.now + elapsed)
  {
  }

  // ---------------------------------------------------------------------------
  // Retry counts and backoff

  /** The number of failed marks the event receives in a run. */
  function Failures(c: Config, s: State, actions: seq<Action>, e: Id): nat
    requires Configured(c)
    decreases |actions|
  {
    if actions == [] then 0
    else
      var a := actions[0];
      (if a.Fail? && a.event == e && Holds(s, a.run, e) then 1 else 0)
      + Failures(c, Apply(c, s, a), actions[1..], e)
  }

  function CountOf(s: State, e: Id): nat {
    if e in s.rows then s.rows[e].retryCount else 0
  }

  lemma StepCounts(c: Config, s: State, a: Action, e: Id)
    requires Configured(c)
    ensures e in s.rows ==> e in Apply(c, s, a).rows
    ensures CountOf(Apply(c, s, a), e) == CountOf(s, e) + if a.Fail? && a.event == e && Holds(s, a.run, e) then 1 else 0
  {
  }

  lemma {:induction false} RunCounts(c: Config, s: State, actions: seq<Action>, e: Id)
    requires Configured(c)
    ensures CountOf(Exec(c, s, actions), e) == CountOf(s, e) + Failures(c, s, actions, e)
    decreases |actions|
  {
    if actions != [] {
      StepCounts(c, s, actions[0], e);
      RunCounts(c, Apply(c, s, actions[0]), actions[1..], e);
    }
  }

  /** In every run the retry count of an event is the number of failed marks it has received. */
  lemma RetryCountIsFailures(c: Config, s0: State, actions: seq<Action>, e: Id)
    requires Configured(c) && Initial(s0) && e in Exec(c, s0, actions).rows
    ensures Exec(c, s0, actions).rows[e].retryCount == Failures(c, s0, actions, e)
  {
    RunCounts(c, s0, actions, e);
  }

  /**
    * With timely marks, the next failure of an event after n failures puts its next attempt at the start of the
    * failing run plus the delay for n retries.
    */
  lemma BackoffFollowsFailures(c: Config, s0: State, actions: seq<Action>, run: Id, e: Id)
    requires Configured(c) && Initial(s0) && TimelyRun(c, s0, actions)
    requires var s := Exec(c, s0, actions); Live(s, run) && Holds(s, run, e)
    ensures var s, n := Exec(c, s0, actions), Failures(c, s0, actions, e);
            var row := Apply(c, s, Fail(run, e)).rows[e];
            && row.status.Failed? && row.retryCount == n + 1
            && row.nextAttempt == Some(s.runs[run].startedAt + Backoff.Delay(c.base, c.max, n))
  {
    RunKeepsInv(c, s0, actions);
    RetryCountIsFailures(c, s0, actions, e);
  }

  // ---------------------------------------------------------------------------
  // No event is forgotten

  function Patience(c: Config): int {
    MaxInt(LEASE, c.max)
  }

  /** Every unpublished event is due again within max(lease, maximum backoff) of its last touch. */
  predicate DueSoon(c: Config, s: State) {
    forall e :: e in s.rows && e in s.touched && !s.rows[e].status.Published? ==>
      DueAt(s.rows[e]) <= s.touched[e] + Patience(c) && s.touched[e] <= s.now
  }

  lemma StepKeepsDueSoon(c: Config, s: State, a: Action)
    requires Configured(c) && Known(s) && DueSoon(c, s)
    ensures Known(Apply(c, s, a)) && DueSoon(c, Apply(c, s, a))
  {
  }

  lemma {:induction false} RunKeepsDueSoon(c: Config, s: State, actions: seq<Action>)
    requires Configured(c) && Known(s) && DueSoon(c, s)
    ensures Known(Exec(c, s, actions)) && DueSoon(c, Exec(c, s, actions))
    decreases |actions|
  {
    if actions != [] {
      StepKeepsDueSoon(c, s, actions[0]);
      RunKeepsDueSoon(c, Apply(c, s, actions[0]), actions[1..]);
    }
  }

  /** In every run, timely or not, an event left alone for that long can be claimed by a consumer of its type. */
  lemma UnpublishedComesBack(c: Config, s0: State, actions: seq<Action>, e: Id)
    requires Configured(c) && Initial(s0)
    requires var s := Exec(c, s0, actions);
             && e in s.rows && e in s.touched && !s.rows[e].status.Published? && Handles(c, s.rows[e])
             && s.touched[e] + Patience(c) <= s.now
    ensures var s := Exec(c, s0, actions);
            e in s.rows && Claimable(c, s.rows[e], s.now)
  {
    RunKeepsDueSoon(c, s0, actions);
  }

  // ---------------------------------------------------------------------------
  // One run of the consumer

  /** How the handling of one event ends, and whether its mark reaches the database. */
  datatype Handling = NoHandler(marked: bool) | HandlerFails(marked: bool) | HandlerSucceeds(marked: bool)

  datatype Counts = Counts(claimed: nat, published: nat, failed: nat)

  /** The number of events marked before the first mark that does not reach the database. */
  function MarksMade(handlings: seq<Handling>): (n: nat)
    ensures n <= |handlings|
    ensures forall i :: 0 <= i < n ==> handlings[i].marked
    ensures n < |handlings| ==> !handlings[n].marked
  {
    if handlings == [] || !handlings[0].marked then 0 else 1 + MarksMade(handlings[1..])
  }

  function Successes(handlings: seq<Handling>): (n: nat)
    ensures n <= |handlings|
  {
    if handlings == [] then 0
    else Successes(handlings[..|handlings| - 1]) + if handlings[|handlings| - 1].HandlerSucceeds? then 1 else 0
  }

  /** The row an event has after a run claimed it at `dueBefore` and marked it once. */
  function MarkedRow(c: Config, row: Row, dueBefore: Time, now: Time, h: Handling): Row
    requires Configured(c)
  {
    var claimed := ClaimedRow(row, dueBefore);
    if h.HandlerSucceeds? then PublishedRow(claimed)
    else FailedRow(claimed, now + Backoff.Delay(c.base, c.max, row.retryCount))
  }

  predicate Distinct(batch: seq<Id>) {
    forall i, j :: 0 <= i < j < |batch| ==> batch[i] != batch[j]
  }

  predicate ClaimableBatch(c: Config, rows: Rows, batch: seq<Id>, dueBefore: Time) {
    Distinct(batch) && forall i :: 0 <= i < |batch| ==> batch[i] in rows && Claimable(c, rows[batch[i]], dueBefore)
  }

  /** The whole batch was claimed, its first `n` events were marked once, and no other event was touched. */
  predicate Marked(c: Config, rows: Rows, rows': Rows, batch: seq<Id>, dueBefore: Time, now: Time,
                   handlings: seq<Handling>, n: nat)
    requires Configured(c) && n <= |handlings| == |batch|
  {
    && rows'.Keys == rows.Keys
    && (forall i :: 0 <= i < |batch| ==> batch[i] in rows)
    && (forall i :: 0 <= i < n ==> rows'[batch[i]] == MarkedRow(c, rows[batch[i]], dueBefore, now, handlings[i]))
    && (forall i :: n <= i < |batch| ==> rows'[batch[i]] == ClaimedRow(rows[batch[i]], dueBefore))
    && (forall e :: e in rows && e !in batch ==> rows'[e] == rows[e])
  }

  lemma MarkedOneMore(c: Config, rows: Rows, rows': Rows, batch: seq<Id>, dueBefore: Time, now: Time,
                      handlings: seq<Handling>, n: nat)
    requires Configured(c) && n < |handlings| == |batch| && Distinct(batch)
    requires Marked(c, rows, rows', batch, dueBefore, now, handlings, n)
    ensures Marked(c, rows, rows'[batch[n] := MarkedRow(c, rows[batch[n]], dueBefore, now, handlings[n])],
                   batch, dueBefore, now, handlings, n + 1)
  {
  }

  lemma SuccessesOneMore(handlings: seq<Handling>, n: nat)
    requires n < |handlings|
    ensures Successes(handlings[..n + 1]) == Successes(handlings[..n]) + if handlings[n].HandlerSucceeds? then 1 else 0
  {
    assert handlings[..n + 1][..n] == handlings[..n];
  }

  /** Successes counts the events whose handler succeeded. */
  lemma {:induction false} SuccessesIsCount(handlings: seq<Handling>)
    ensures Successes(handlings) == |set i | 0 <= i < |handlings| && handlings[i].HandlerSucceeds?|
    decreases |handlings|
  {
    if handlings != [] {
      var n := |handlings| - 1;
      SuccessesIsCount(handlings[..n]);
      var before := set i | 0 <= i < n && handlings[..n][i].HandlerSucceeds?;
      var all := set i | 0 <= i < |handlings| && handlings[i].HandlerSucceeds?;
      assert all == if handlings[n].HandlerSucceeds? then before + {n} else before;
    }
  }

  lemma ClaimedIsMarked(c: Config, rows: Rows, batch: seq<Id>, dueBefore: Time, now: Time, handlings: seq<Handling>)
    requires Configured(c) && |handlings| == |batch| && ClaimableBatch(c, rows, batch, dueBefore)
    ensures Marked(c, rows, ClaimedRows(rows, (set e | e in batch), dueBefore), batch, dueBefore, now, handlings, 0)
  {
  }

  /** Marked says everything about the rows. */
  lemma MarkedIsUnique(c: Config, rows: Rows, a: Rows, b: Rows, batch: seq<Id>, dueBefore: Time, now: Time,
                       handlings: seq<Handling>, n: nat)
    requires Configured(c) && n <= |handlings| == |batch|
    requires Marked(c, rows, a, batch, dueBefore, now, handlings, n)
    requires Marked(c, rows, b, batch, dueBefore, now, handlings, n)
    ensures a == b
  {
    forall e | e in rows ensures a[e] == b[e] {
      if e in batch {
        var i :| 0 <= i < |batch| && batch[i] == e;
        assert i < n || n <= i;
      }
    }
  }

  function MarkOf(run: Id, e: Id, h: Handling): Action {
    if h.HandlerSucceeds? then Publish(run, e) else Fail(run, e)
  }

  /** The marks of a run as actions of the transition system. */
  function Marks(run: Id, batch: seq<Id>, handlings: seq<Handling>, n: nat): seq<Action>
    requires n <= |handlings| == |batch|
  {
    if n == 0 then []
    else Marks(run, batch, handlings, n - 1) + [MarkOf(run, batch[n - 1], handlings[n - 1])]
  }

  /** After `n` marks the run still holds the rest of its batch, with the retry counts it read. */
  predicate Midway(c: Config, s: State, t: State, run: Id, batch: seq<Id>, dueBefore: Time, handlings: seq<Handling>,
                   n: nat)
    requires Configured(c) && n <= |handlings| == |batch|
  {
    && Marked(c, s.rows, t.rows, batch, dueBefore, s.now, handlings, n)
    && run in t.runs && t.runs[run].startedAt == s.now
    && forall i :: n <= i < |batch| ==>
         batch[i] in t.runs[run].held && t.runs[run].held[batch[i]] == s.rows[batch[i]].retryCount
  }

  lemma ClaimIsMidway(c: Config, s: State, run: Id, batch: seq<Id>, dueBefore: Time, handlings: seq<Handling>)
    requires Configured(c) && |handlings| == |batch| && ClaimableBatch(c, s.rows, batch, dueBefore)
    requires run !in s.runs && dueBefore <= s.now
    ensures Midway(c, s, Apply(c, s, Claim(run, (set e | e in batch), dueBefore)), run, batch, dueBefore, handlings, 0)
  {
    ClaimedIsMarked(c, s.rows, batch, dueBefore, s.now, handlings);
    assert CanClaim(c, s, run, (set e | e in batch), dueBefore);
  }

  lemma MarkIsMidway(c: Config, s: State, t: State, run: Id, batch: seq<Id>, dueBefore: Time,
                     handlings: seq<Handling>, n: nat)
    requires Configured(c) && n < |handlings| == |batch| && Distinct(batch)
    requires Midway(c, s, t, run, batch, dueBefore, handlings, n)
    ensures Midway(c, s, Apply(c, t, MarkOf(run, batch[n], handlings[n])), run, batch, dueBefore, handlings, n + 1)
  {
    MarkedOneMore(c, s.rows, t.rows, batch, dueBefore, s.now, handlings, n);
    assert Holds(t, run, batch[n]) && t.rows[batch[n]] == ClaimedRow(s.rows[batch[n]], dueBefore);
  }

  lemma {:induction false} ExecAppend(c: Config, s: State, actions: seq<Action>, a: Action)
    requires Configured(c)
    ensures Exec(c, s, actions + [a]) == Apply(c, Exec(c, s, actions), a)
    decreases |actions|
  {
    if actions == [] {
      assert actions + [a] == [a];
    } else {
      ExecAppend(c, Apply(c, s, actions[0]), actions[1..], a);
      assert (actions + [a])[0] == actions[0] && (actions + [a])[1..] == actions[1..] + [a];
    }
  }

  lemma {:induction false} MarksTaken(c: Config, s: State, s1: State, run: Id, batch: seq<Id>, dueBefore: Time,
                                      handlings: seq<Handling>, n: nat)
    requires Configured(c) && n <= |handlings| == |batch| && Distinct(batch)
    requires Midway(c, s, s1, run, batch, dueBefore, handlings, 0)
    ensures Midway(c, s, Exec(c, s1, Marks(run, batch, handlings, n)), run, batch, dueBefore, handlings, n)
  {
    if n > 0 {
      MarksTaken(c, s, s1, run, batch, dueBefore, handlings, n - 1);
      var before := Marks(run, batch, handlings, n - 1);
      MarkIsMidway(c, s, Exec(c, s1, before), run, batch, dueBefore, handlings, n - 1);
      ExecAppend(c, s1, before, MarkOf(run, batch[n - 1], handlings[n - 1]));
    }
  }

  /** The rows RunOnce leaves are those of the transition system after its claim and its marks, alone. */
  lemma RunOnceIsARun(c: Config, s: State, run: Id, batch: seq<Id>, dueBefore: Time, handlings: seq<Handling>, n: nat,
                      rows': Rows)
    requires Configured(c) && n <= |handlings| == |batch| && ClaimableBatch(c, s.rows, batch, dueBefore)
    requires run !in s.runs && dueBefore <= s.now
    requires Marked(c, s.rows, rows', batch, dueBefore, s.now, handlings, n)
    ensures Exec(c, s, [Claim(run, (set e | e in batch), dueBefore)] + Marks(run, batch, handlings, n)).rows == rows'
  {
    var claim, marks := Claim(run, (set e | e in batch), dueBefore), Marks(run, batch, handlings, n);
    var s1 := Apply(c, s, claim);
    ClaimIsMidway(c, s, run, batch, dueBefore, handlings);
    MarksTaken(c, s, s1, run, batch, dueBefore, handlings, n);
    MarkedIsUnique(c, s.rows, rows', Exec(c, s1, marks).rows, batch, dueBefore, s.now, handlings, n);
    assert ([claim] + marks)[0] == claim && ([claim] + marks)[1..] == marks;
  }

  class Reader {
    var rows: Rows

    constructor (initial: Rows)
      ensures rows == initial
    {
      rows := initial;
    }

    /** ClaimPending for the rows its query selects; the retry counts are those of the rows returned. */
    method ClaimPending(c: Config, batch: seq<Id>, dueBefore: Time) returns (retryCounts: seq<nat>)
      requires ClaimableBatch(c, rows, batch, dueBefore)
      modifies this
      ensures rows == ClaimedRows(old(rows), (set e | e in batch), dueBefore)
      ensures |retryCounts| == |batch|
      ensures forall i :: 0 <= i < |batch| ==> retryCounts[i] == old(rows)[batch[i]].retryCount
    {
      var before := rows;
      retryCounts := seq(|batch|, i requires 0 <= i < |batch| && batch[i] in before => before[batch[i]].retryCount);
      rows := ClaimedRows(rows, (set e | e in batch), dueBefore);
    }

    method MarkPublished(e: Id)
      requires e in rows
      modifies this
      ensures rows == old(rows)[e := PublishedRow(old(rows)[e])]
    {
      rows := rows[e := PublishedRow(rows[e])];
    }

    method MarkFailed(e: Id, nextAttempt: Time)
      requires e in rows
      modifies this
      ensures rows == old(rows)[e := FailedRow(old(rows)[e], nextAttempt)]
    {
      rows := rows[e := FailedRow(rows[e], nextAttempt)];
    }

    /** The body of RunOnce's loop for an event whose mark reaches the database; `before` are the unclaimed rows. */
    method MarkNext(c: Config, ghost before: Rows, batch: seq<Id>, retryCount: nat, ghost dueBefore: Time, now: Time,
                    handlings: seq<Handling>, n: nat)
      requires Configured(c) && n < |handlings| == |batch| && Distinct(batch)
      requires Marked(c, before, rows, batch, dueBefore, now, handlings, n) && retryCount == before[batch[n]].retryCount
      modifies this
      ensures Marked(c, before, rows, batch, dueBefore, now, handlings, n + 1)
    {
      MarkedOneMore(c, before, rows, batch, dueBefore, now, handlings, n);
      if handlings[n].HandlerSucceeds? {
        MarkPublished(batch[n]);
      } else {
        MarkFailed(batch[n], now + Backoff.Delay(c.base, c.max, retryCount));
      }
    }

    /** The loop of RunOnce. */
    method MarkAll(c: Config, ghost before: Rows, batch: seq<Id>, retryCounts: seq<nat>, ghost dueBefore: Time,
                   now: Time, handlings: seq<Handling>) returns (result: Counts, n: nat)
      requires Configured(c) && |handlings| == |batch| == |retryCounts| && Distinct(batch)
      requires Marked(c, before, rows, batch, dueBefore, now, handlings, 0)
      requires forall i :: 0 <= i < |batch| ==> retryCounts[i] == before[batch[i]].retryCount
      modifies this
      ensures n == MarksMade(handlings)
      ensures Marked(c, before, rows, batch, dueBefore, now, handlings, n)
      ensures result == Counts(|batch|, Successes(handlings[..n]), n - Successes(handlings[..n]))
    {
      result, n := Counts(|batch|, 0, 0), 0;
      while n < |batch| && handlings[n].marked
        invariant n <= MarksMade(handlings)
        invariant result == Counts(|batch|, Successes(handlings[..n]), n - Successes(handlings[..n]))
        invariant Marked(c, before, rows, batch, dueBefore, now, handlings, n)
      {
        MarkNext(c, before, batch, retryCounts[n], dueBefore, now, handlings, n);
        SuccessesOneMore(handlings, n);
        result := if handlings[n].HandlerSucceeds? then result.(published := result.published + 1)
                  else result.(failed := result.failed + 1);
        n := n + 1;
      }
    }

    /**
      * RunOnce: every claimed event is marked exactly once, unless a mark fails and ends the run; a claim that fails
      * leaves everything as it was.
      */
    method RunOnce(c: Config, claims: bool, batch: seq<Id>, dueBefore: Time, now: Time, handlings: seq<Handling>)
      returns (result: Counts, failed: bool)
      requires Configured(c) && |handlings| == |batch| && ClaimableBatch(c, rows, batch, dueBefore)
      modifies this
      ensures !claims ==> failed && rows == old(rows) && result == Counts(0, 0, 0)
      ensures claims ==>
                var n := MarksMade(handlings);
                && failed == (n < |batch|)
                && Marked(c, old(rows), rows, batch, dueBefore, now, handlings, n)
                && result == Counts(|batch|, Successes(handlings[..n]), n - Successes(handlings[..n]))
      ensures !failed ==> result.claimed == result.published + result.failed
    {
      if !claims { return Counts(0, 0, 0), true; }
      ClaimedIsMarked(c, rows, batch, dueBefore, now, handlings);
      var retryCounts := ClaimPending(c, batch, dueBefore);
      var n;
      result, n := MarkAll(c, old(rows), batch, retryCounts, dueBefore, now, handlings);
      failed := n < |batch|;
    }
  }
}
