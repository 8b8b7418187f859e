/** Idempotent issuing of access tickets over an expiring put-if-absent store. */
module Tickets {
  import opened Base

  /** What a request is answered with; only the expiry of a ticket matters here. */
  datatype Ticket = Ticket(value: Id, expiresAt: int)

  datatype Record = Record(fingerprint: Id, ticket: Ticket)

  datatype Stored = Stored(record: Record, expiresAt: int)

  type Records = map<Id, Stored>

  /** One second, in milliseconds. */
  const SECOND: int := 1000

  function NormalizeTTL(ttl: int): (r: int)
    ensures r > 0 && r >= ttl
    ensures ttl > 0 ==> r == ttl
    ensures ttl <= 0 ==> r == 1000
  {
    if ttl <= 0 then SECOND else ttl
  }

  predicate Kept(records: Records, key: Id, now: int) {
    key in records && records[key].expiresAt > now
  }

  function Unexpired(records: Records, now: int): Records {
    map key | key in records && records[key].expiresAt > now :: records[key]
  }

  function AfterPut(records: Records, key: Id, record: Record, ttl: int, now: int): Records {
    var kept := Unexpired(records, now);
    if key in kept then kept else kept[key := Stored(record, now + NormalizeTTL(ttl))]
  }

  class MemoryStore {
    var records: Records

    constructor ()
      ensures records == map[]
    {
      records := map[];
    }

    method CleanupExpired(now: int)
      modifies this
      ensures records == Unexpired(old(records), now)
      ensures forall key :: key in records <==> key in old(records) && now < old(records)[key].expiresAt
      ensures forall key :: key in records ==> records[key] == old(records)[key]
    {
      var pending := records.Keys;
      while pending != {}
        invariant pending <= old(records).Keys
        invariant records == map key | key in old(records)
                                       && (key in pending || old(records)[key].expiresAt > now) :: old(records)[key]
        decreases |pending|
      {
        var key :| key in pending;
        if records[key].expiresAt <= now { records := records - {key}; }
        pending := pending - {key};
      }
    }

    method Get(key: Id, now: int) returns (found: Option<Record>)
      modifies this
      ensures records == Unexpired(old(records), now)
      ensures found == if key in old(records) && now < old(records)[key].expiresAt
                       then Some(old(records)[key].record) else None
    {
      CleanupExpired(now);
      return if key in records then Some(records[key].record) else None;
    }

    method PutIfAbsent(key: Id, record: Record, ttl: int, now: int) returns (stored: bool)
      modifies this
      ensures records == AfterPut(old(records), key, record, ttl, now)
      ensures stored == !(key in old(records) && now < old(records)[key].expiresAt)
      ensures key in records
      ensures stored ==> records[key] == Stored(record, now + if ttl > 0 then ttl else 1000)
      ensures !stored ==> records[key] == old(records)[key]
      ensures forall k :: k != key ==> (k in records <==> k in old(records) && now < old(records)[k].expiresAt)
      ensures forall k :: k != key && k in records ==> records[k] == old(records)[k]
    {
      CleanupExpired(now);
      if key in records { return false; }
      records := records[key := Stored(record, now + NormalizeTTL(ttl))];
      return true;
    }
  }

  // ---------------------------------------------------------------------------
  // Any number of requests, interleaved at will

  datatype Request = Request(key: Id, fingerprint: Id, ttl: int)

  /** Where a request stands; a granted one also keeps when the record behind it expires. */
  datatype Progress =
    | Missed
    | Issued(ticket: Ticket)
    | Beaten
    | Granted(ticket: Ticket, recordUntil: int)
    | Refused(conflict: bool)    // another fingerprint has the key, or the record is gone after all

  datatype Session = Session(request: Request, progress: Progress)

  datatype State = State(now: int, records: Records, sessions: map<Id, Session>)

  datatype Action =
    | Tick(elapsed: nat)
    | Look(id: Id, request: Request)
    | Issue(id: Id, value: Id)
    | Put(id: Id)
    | Reload(id: Id)
    | Crash(id: Id)

  /** resolveExistingIdempotentResult */
  function Resolve(stored: Stored, fingerprint: Id): Progress {
    if stored.record.fingerprint != fingerprint then Refused(true) else Granted(stored.record.ticket, stored.expiresAt)
  }

  predicate At(s: State, id: Id, progress: Progress) {
    id in s.sessions && s.sessions[id].progress == progress
  }

  function Advance(s: State, id: Id, records: Records, progress: Progress): State
    requires id in s.sessions
  {
    s.(records := records, sessions := s.sessions[id := s.sessions[id].(progress := progress)])
  }

  function Apply(s: State, a: Action): State {
    match a
    case Tick(elapsed) => s.(now := s.now + elapsed)
    case Look(id, q) =>
      if id in s.sessions then s
      else
        var kept := Unexpired(s.records, s.now);
        var progress := if q.key in kept then Resolve(kept[q.key], q.fingerprint) else Missed;
        s.(records := kept, sessions := s.sessions[id := Session(q, progress)])
    case Issue(id, value) =>
      if !At(s, id, Missed) then s
      else Advance(s, id, s.records, Issued(Ticket(value, s.now + s.sessions[id].request.ttl)))
    case Put(id) =>
      if id !in s.sessions || !s.sessions[id].progress.Issued? then s
      else
        var q, ticket := s.sessions[id].request, s.sessions[id].progress.ticket;
        var records := AfterPut(s.records, q.key, Record(q.fingerprint, ticket), q.ttl, s.now);
        Advance(s, id, records, if Kept(s.records, q.key, s.now) then Beaten
                                else Granted(ticket, s.now + NormalizeTTL(q.ttl)))
    case Reload(id) =>
      if !At(s, id, Beaten) then s
      else
        var q, kept := s.sessions[id].request, Unexpired(s.records, s.now);
        Advance(s, id, kept, if q.key in kept then Resolve(kept[q.key], q.fingerprint) else Refused(false))
    case Crash(id) =>
      if id in s.sessions && s.sessions[id].progress.Granted? then s else s.(sessions := s.sessions - {id})
  }

  function Exec(s: State, actions: seq<Action>): State
    decreases |actions|
  {
    if actions == [] then s else Exec(Apply(s, actions[0]), actions[1..])
  }

  // ---------------------------------------------------------------------------
  // Steps, field by field

  /** Only expired records are dropped. */
  ghost predicate Swept(records: Records, records': Records, now: int) {
    && (forall key :: key in records' <==> key in records && now < records[key].expiresAt)
    && (forall key :: key in records' ==> records'[key] == records[key])
  }

  /** What a request gets from an unexpired record: its ticket if the fingerprints agree, else a conflict. */
  predicate AnsweredFrom(stored: Stored, fingerprint: Id, progress: Progress) {
    progress == if stored.record.fingerprint == fingerprint then Granted(stored.record.ticket, stored.expiresAt)
                else Refused(true)
  }

  /** A new request is answered from an unexpired record of its key, and goes on to issue a ticket if there is none. */
  lemma LooksExactly(s: State, id: Id, q: Request)
    requires id !in s.sessions
    ensures var s' := Apply(s, Look(id, q));
            && s'.now == s.now && Swept(s.records, s'.records, s.now)
            && id in s'.sessions && s'.sessions == s.sessions[id := Session(q, s'.sessions[id].progress)]
            && (if q.key in s.records && s.now < s.records[q.key].expiresAt
                then AnsweredFrom(s.records[q.key], q.fingerprint, s'.sessions[id].progress)
                else s'.sessions[id].progress == Missed)
  {
  }

  /** A ticket is issued for the lifetime of the request, counted from now. */
  lemma IssuesExactly(s: State, id: Id, value: Id)
    ensures Apply(s, Issue(id, value))
         == if id in s.sessions && s.sessions[id].progress.Missed?
            then s.(sessions := s.sessions[id := Session(s.sessions[id].request,
                                                         Issued(Ticket(value, s.now + s.sessions[id].request.ttl)))])
            else s
  {
  }

  /** The issued ticket is stored and granted unless an unexpired record has the key. */
  lemma PutsExactly(s: State, id: Id)
    requires id in s.sessions && s.sessions[id].progress.Issued?
    ensures var q, ticket := s.sessions[id].request, s.sessions[id].progress.ticket;
            var s' := Apply(s, Put(id));
            var until := s.now + if q.ttl > 0 then q.ttl else 1000;
            && s'.now == s.now && id in s'.sessions
            && s'.sessions == s.sessions[id := Session(q, s'.sessions[id].progress)]
            && (if q.key in s.records && s.now < s.records[q.key].expiresAt
                then s'.sessions[id].progress == Beaten && Swept(s.records, s'.records, s.now)
                else
                  && s'.sessions[id].progress == Granted(ticket, until)
                  && q.key in s'.records && s'.records[q.key] == Stored(Record(q.fingerprint, ticket), until)
                  && Swept(s.records, s'.records - {q.key}, s.now))
  {
  }

  /** A request that was beaten is answered from the record that beat it, if it has not expired meanwhile. */
  lemma ReloadsExactly(s: State, id: Id)
    requires id in s.sessions && s.sessions[id].progress.Beaten?
    ensures var q, s' := s.sessions[id].request, Apply(s, Reload(id));
            && s'.now == s.now && Swept(s.records, s'.records, s.now) && id in s'.sessions
            && s'.sessions == s.sessions[id := Session(q, s'.sessions[id].progress)]
            && (if q.key in s.records && s.now < s.records[q.key].expiresAt
                then AnsweredFrom(s.records[q.key], q.fingerprint, s'.sessions[id].progress)
                else s'.sessions[id].progress == Refused(false))
  {
  }

  /** A request that has no ticket yet may be given up. */
  lemma CrashesExactly(s: State, id: Id, elapsed: nat)
    ensures Apply(s, Crash(id))
         == if id in s.sessions && s.sessions[id].progress.Granted? then s else s.(sessions := s.sessions - {id})
    ensures Apply(s, Tick(elapsed)) == s.(now := s.now + elapsed)
  {
  }

  predicate Initial(s: State) {
    s.records == map[] && s.sessions == map[]
  }

  // ---------------------------------------------------------------------------
  // What holds in every run

  /** A record never expires before its ticket. */
  predicate RecordsOutliveTickets(records: Records) {
    forall key :: key in records ==> records[key].record.ticket.expiresAt <= records[key].expiresAt
  }

  /** A ticket issued but not stored yet does not outlive a record put now. */
  predicate IssuedInTime(s: State) {
    forall id :: id in s.sessions && s.sessions[id].progress.Issued? ==>
      s.sessions[id].progress.ticket.expiresAt <= s.now + s.sessions[id].request.ttl
  }

  /** As long as the record behind a granted request lives, it is still the one in the store. */
  predicate GrantsBacked(s: State) {
    forall id :: id in s.sessions && s.sessions[id].progress.Granted? ==>
      && s.sessions[id].progress.ticket.expiresAt <= s.sessions[id].progress.recordUntil
      && (s.now < s.sessions[id].progress.recordUntil ==> Backs(s, id))
  }

  predicate Backs(s: State, id: Id)
    requires id in s.sessions && s.sessions[id].progress.Granted?
  {
    var q, p := s.sessions[id].request, s.sessions[id].progress;
    q.key in s.records && s.records[q.key] == Stored(Record(q.fingerprint, p.ticket), p.recordUntil)
  }

  predicate Inv(s: State) {
    RecordsOutliveTickets(s.records) && IssuedInTime(s) && GrantsBacked(s)
  }

  lemma StepKeepsInv(s: State, a: Action)
    requires Inv(s)
    ensures Inv(Apply(s, a))
  {
  }

  lemma {:induction false} RunKeepsInv(s: State, actions: seq<Action>)
    requires Inv(s)
    ensures Inv(Exec(s, actions))
    decreases |actions|
  {
    if actions != [] {
      StepKeepsInv(s, actions[0]);
      RunKeepsInv(Apply(s, actions[0]), actions[1..]);
    }
  }

  predicate Returned(s: State, id: Id, key: Id) {
    id in s.sessions && s.sessions[id].progress.Granted? && s.sessions[id].request.key == key
  }

  /** At any instant at most one distinct unexpired ticket has been returned under one idempotency key. */
  lemma OneTicketPerKey(s0: State, actions: seq<Action>, key: Id, a: Id, b: Id)
    requires Initial(s0)
    requires var s := Exec(s0, actions);
             && Returned(s, a, key) && Returned(s, b, key)
             && s.now < s.sessions[a].progress.ticket.expiresAt && s.now < s.sessions[b].progress.ticket.expiresAt
    ensures var s := Exec(s0, actions);
            && s.sessions[a].progress.ticket == s.sessions[b].progress.ticket
            && s.sessions[a].request.fingerprint == s.sessions[b].request.fingerprint
  {
    RunKeepsInv(s0, actions);
    var s := Exec(s0, actions);
    assert Backs(s, a) && Backs(s, b);
  }

  /** A success whose record is still live has the fingerprint and the ticket of that record. */
  lemma SuccessMatchesLiveRecord(s0: State, actions: seq<Action>, key: Id, id: Id)
    requires Initial(s0)
    requires var s := Exec(s0, actions); Returned(s, id, key) && s.now < s.sessions[id].progress.recordUntil
    ensures var s := Exec(s0, actions);
            && Kept(s.records, key, s.now)
            && s.records[key].record == Record(s.sessions[id].request.fingerprint, s.sessions[id].progress.ticket)
  {
    RunKeepsInv(s0, actions);
    assert Backs(Exec(s0, actions), id);
  }

  /** In every run, no stored record expires before its ticket. */
  lemma RecordNeverExpiresFirst(s0: State, actions: seq<Action>, key: Id)
    requires Initial(s0) && key in Exec(s0, actions).records
    ensures var stored := Exec(s0, actions).records[key]; stored.record.ticket.expiresAt <= stored.expiresAt
  {
    RunKeepsInv(s0, actions);
  }

  /** So a lookup can answer with a ticket that has expired: exactly between the two expiries. */
  lemma ExpiredTicketIsReturnedExactly(s: State, id: Id, q: Request)
    requires id !in s.sessions && q.key in s.records && s.records[q.key].record.fingerprint == q.fingerprint
    ensures var s' := Apply(s, Look(id, q));
            Returned(s', id, q.key) && s'.sessions[id].progress.ticket.expiresAt <= s'.now <==>
            s.records[q.key].record.ticket.expiresAt <= s.now < s.records[q.key].expiresAt
  {
  }

  /** A request stores its record some time after issuing its ticket, and is repeated at the last moment. */
  function LateRetry(q: Request, value: Id, delay: nat): seq<Action>
    requires q.ttl > 0
  {
    [Look(0, q), Issue(0, value), Tick(delay), Put(0), Tick(q.ttl - 1), Look(1, q)]
  }

  lemma ExecFrom(s: State, run: seq<Action>, k: nat)
    requires k < |run|
    ensures Exec(s, run[k..]) == Exec(Apply(s, run[k]), run[k + 1..])
  {
    assert run[k..][1..] == run[k + 1..];
  }

  /** Whatever the lifetime and however short the delay, this is reached from the start. */
  lemma ExpiredTicketIsReturned(s0: State, q: Request, value: Id, delay: nat)
    requires Initial(s0) && q.ttl > 0 && delay > 0
    ensures var s := Exec(s0, LateRetry(q, value, delay));
            Returned(s, 1, q.key) && s.sessions[1].progress.ticket.expiresAt <= s.now
  {
    var run := LateRetry(q, value, delay);
    var s1 := Apply(s0, run[0]);
    var s2 := Apply(s1, run[1]);
    var s3 := Apply(s2, run[2]);
    var s4 := Apply(s3, run[3]);
    var s5 := Apply(s4, run[4]);
    ExecFrom(s0, run, 0);
    ExecFrom(s1, run, 1);
    ExecFrom(s2, run, 2);
    ExecFrom(s3, run, 3);
    ExecFrom(s4, run, 4);
    ExecFrom(s5, run, 5);
    assert run[0..] == run && run[6..] == [];
    assert s5.records[q.key] == Stored(Record(q.fingerprint, Ticket(value, s0.now + q.ttl)), s0.now + delay + q.ttl);
    ExpiredTicketIsReturnedExactly(s5, 1, q);
  }
}
