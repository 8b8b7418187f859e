/** internal/services/upload/domain: upload sessions and their state machine. */
module Sessions {
  import opened Base

  datatype Mode = Inline | PresignedSingle | Direct

  datatype Status = Initiated | Uploading | Completing | Completed | Aborted | Expired | Failed

  predicate Terminal(status: Status) {
    status.Completed? || status.Aborted? || status.Expired? || status.Failed?
  }

  /** Position in INITIATED < UPLOADING < COMPLETING < terminal. */
  function Rank(status: Status): nat {
    match status
    case Initiated => 0
    case Uploading => 1
    case Completing => 2
    case _ => 3
  }

  datatype Algorithm = NoAlgorithm | Sha256 | OtherAlgorithm(n: nat)

  /** A normalized hash value: blank, 64 lower-case hex digits, or anything else. */
  datatype Digest = NoDigest | Hex64(n: nat) | OtherDigest(n: nat)

  datatype ContentHash = ContentHash(algorithm: Algorithm, digest: Digest)

  datatype ErrorCode =
    | SessionInvalid
    | SessionNotFound
    | SessionStateConflict
    | CompletionOwnershipInvalid
    | CompleteInProgress
    | PartsMissing
    | HashRequired
    | HashInvalid
    | HashUnsupported
    | HashMismatch
    | MultipartNotFound
    | MultipartConflict
    | InvalidArgument
    | ServiceUnavailable

  datatype Result<+T> = Ok(value: T) | Err(code: ErrorCode)

  function ValidateHash(h: ContentHash): Option<ErrorCode> {
    if h.algorithm.NoAlgorithm? || h.digest.NoDigest? then Some(HashInvalid)
    else if !h.algorithm.Sha256? then Some(HashUnsupported)
    else if !h.digest.Hex64? then Some(HashInvalid)
    else None
  }

  /** The object key is planned from the tenant and the session id. */
  datatype ObjectKey = ObjectKey(tenant: Id, session: Id)

  datatype ObjectRef = ObjectRef(provider: Id, bucket: Id, key: ObjectKey)

  datatype AccessLevel = PublicLevel | PrivateLevel | OtherLevel(n: nat)

  /** The descriptive fields of a session, which no transition changes. */
  datatype Details = Details(
    owner: Text,
    fileName: Text,
    contentType: Text,
    accessLevel: AccessLevel,
    chunkSize: int,
    resumedFrom: Text,
    idempotencyKey: Text)

  predicate DetailsAccepted(d: Details) {
    && !d.owner.Blank? && !d.fileName.Blank? && !d.contentType.Blank?
    && !d.accessLevel.OtherLevel?
    && d.chunkSize >= 0
  }

  /** The value of a session object: Go zero values stand for what is not set. */
  datatype SessionState = SessionState(
    id: Id,
    tenant: Id,
    mode: Mode,
    status: Status,
    sizeBytes: int,
    totalParts: int,
    completedParts: int,
    location: ObjectRef,
    providerUploadId: Text,
    fileId: Text,
    hash: Option<ContentHash>,
    completionToken: Text,
    completionStartedAt: Option<Time>,
    createdAt: Time,
    updatedAt: Time,
    completedAt: Option<Time>,
    abortedAt: Option<Time>,
    failureCode: Text,
    failureMessage: Text,
    failedAt: Option<Time>,
    expiresAt: Time,
    details: Details)

  /** What a method leaves in the object, and the error it returns, if any. */
  datatype Outcome = Outcome(state: SessionState, error: Option<ErrorCode>)

  predicate TimeSet(t: Option<Time>) {
    t.Some? && t.value != 0
  }

  function RequiresContentHash(mode: Mode): bool {
    mode.PresignedSingle? || mode.Direct?
  }

  /** Session.Validate, in the order in which the checks run; it may set TotalParts. */
  function Validate(x: SessionState): (r: Outcome) {
    if !DetailsAccepted(x.details) || x.sizeBytes <= 0 || x.createdAt == 0
       || x.updatedAt == 0 || x.updatedAt < x.createdAt
       || x.expiresAt == 0 || x.expiresAt <= x.createdAt then Outcome(x, Some(SessionInvalid))
    else if RequiresContentHash(x.mode) && x.hash.None? then Outcome(x, Some(HashRequired))
    else if x.hash.Some? && ValidateHash(x.hash.value).Some? then Outcome(x, ValidateHash(x.hash.value))
    else if x.mode.Direct? then
      if x.providerUploadId.Blank? || x.totalParts < 1 then Outcome(x, Some(SessionInvalid))
      else ValidateProgress(x)
    else if !x.providerUploadId.Blank? then Outcome(x, Some(SessionInvalid))
    else
      var y := if x.totalParts == 0 then x.(totalParts := 1) else x;
      if y.totalParts != 1 then Outcome(y, Some(SessionInvalid)) else ValidateProgress(y)
  }

  function ValidateProgress(x: SessionState): (r: Outcome)
    ensures r.state == x
  {
    if x.completedParts < 0 || (x.totalParts > 0 && x.completedParts > x.totalParts) then
      Outcome(x, Some(SessionInvalid))
    else if x.status.Completing? && !OwnershipSet(x.completionToken, x.completionStartedAt) then
      Outcome(x, Some(CompletionOwnershipInvalid))
    else if x.status.Completed? && (x.fileId.Blank? || !TimeSet(x.completedAt)) then
      Outcome(x, Some(SessionInvalid))
    else if x.status.Aborted? && !TimeSet(x.abortedAt) then Outcome(x, Some(SessionInvalid))
    else if x.status.Failed?
            && (!TimeSet(x.failedAt) || x.failureCode.Blank? || x.failureMessage.Blank?) then
      Outcome(x, Some(SessionInvalid))
    else Outcome(x, None)
  }

  predicate OwnershipSet(token: Text, startedAt: Option<Time>) {
    !token.Blank? && TimeSet(startedAt)
  }

  function MarkUploading(x: SessionState, completedParts: int): Outcome {
    if !x.status.Initiated? && !x.status.Uploading? then Outcome(x, Some(SessionStateConflict))
    else Outcome(x.(status := Uploading, completedParts := MaxInt(x.completedParts, completedParts)), None)
  }

  datatype Ownership = Acquired | HeldByCaller | HeldByAnother | AlreadyDone

  function AcquireCompletion(x: SessionState, token: Text, startedAt: Time): (Outcome, Ownership) {
    if !OwnershipSet(token, Some(startedAt)) then
      (Outcome(x, Some(CompletionOwnershipInvalid)), HeldByAnother)
    else match x.status
      case Initiated | Uploading =>
        (Outcome(x.(status := Completing, completionToken := token,
                    completionStartedAt := Some(startedAt), updatedAt := startedAt), None), Acquired)
      case Completing =>
        if !OwnershipSet(x.completionToken, x.completionStartedAt) then
          (Outcome(x, Some(CompletionOwnershipInvalid)), HeldByAnother)
        else (Outcome(x, None), if x.completionToken == token then HeldByCaller else HeldByAnother)
      case Completed => (Outcome(x, None), AlreadyDone)
      case _ => (Outcome(x, Some(SessionStateConflict)), HeldByAnother)
  }

  function MarkCompleted(x: SessionState, fileId: Text, at: Time): Outcome {
    if x.status.Completed? then
      Outcome(x, if !x.fileId.Blank? && x.fileId != fileId then Some(SessionStateConflict) else None)
    else if !x.status.Completing? then Outcome(x, Some(SessionStateConflict))
    else Validate(x.(status := Completed, fileId := fileId, completedAt := Some(at), updatedAt := at))
  }

  function MarkFailed(x: SessionState, code: Text, message: Text, at: Time): Outcome {
    if x.status.Failed? then Outcome(x, None)
    else if !x.status.Completing? then Outcome(x, Some(SessionStateConflict))
    else Validate(x.(status := Failed, failureCode := code, failureMessage := message,
                     failedAt := Some(at), updatedAt := at))
  }

  function Abort(x: SessionState, at: Time): Outcome {
    match x.status
    case Aborted | Expired | Failed => Outcome(x, None)
    case Initiated | Uploading =>
      Outcome(x.(status := Aborted, abortedAt := Some(at), updatedAt := at), None)
    case _ => Outcome(x, Some(SessionStateConflict))
  }

  // ---------------------------------------------------------------------------
  // What a stored session must look like, independently of the order of checks.

  /** Every requirement of Validate except the one on the provider's upload id. */
  predicate WellShaped(x: SessionState) {
    && DetailsAccepted(x.details)
    && x.sizeBytes > 0
    && 0 < x.createdAt <= x.updatedAt
    && x.createdAt < x.expiresAt
    && (RequiresContentHash(x.mode) ==> x.hash.Some?)
    && (x.hash.Some? ==> x.hash.value.algorithm.Sha256? && x.hash.value.digest.Hex64?)
    && (if x.mode.Direct? then x.totalParts >= 1 else x.totalParts == 1)
    && 0 <= x.completedParts <= x.totalParts
    && (x.status.Completing? ==> OwnershipSet(x.completionToken, x.completionStartedAt))
    && (x.status.Completed? ==> !x.fileId.Blank? && TimeSet(x.completedAt))
    && (x.status.Aborted? ==> TimeSet(x.abortedAt))
    && (x.status.Failed? ==> TimeSet(x.failedAt) && !x.failureCode.Blank? && !x.failureMessage.Blank?)
  }

  /** Only a multipart upload carries a provider upload id. */
  predicate UploadIdMatchesMode(x: SessionState) {
    x.mode.Direct? <==> !x.providerUploadId.Blank?
  }

  predicate Loadable(x: SessionState) {
    Validate(x).error.None?
  }

  /** Validate accepts exactly the well-shaped sessions, filling in TotalParts when it is zero. */
  lemma ValidateAcceptsExactly(x: SessionState)
    ensures Loadable(x) <==> WellShaped(Validate(x).state) && UploadIdMatchesMode(x)
    ensures Loadable(x) && x.totalParts != 0 ==> Validate(x).state == x
    ensures WellShaped(x) ==> Validate(x).state == x
  {
  }

  /** The fields that are checked before the content hash. */
  predicate BasicsInOrder(x: SessionState) {
    && x.sizeBytes > 0 && 0 < x.createdAt <= x.updatedAt && x.createdAt < x.expiresAt
    && !x.details.owner.Blank? && !x.details.fileName.Blank? && !x.details.contentType.Blank?
    && (x.details.accessLevel.PublicLevel? || x.details.accessLevel.PrivateLevel?) && x.details.chunkSize >= 0
  }

  /** Which error Validate reports: a hash error before any other that comes after the basics. */
  lemma ValidateReports(x: SessionState)
    ensures var error := Validate(x).error;
            && (error == Some(HashRequired) <==>
                  BasicsInOrder(x) && (x.mode.PresignedSingle? || x.mode.Direct?) && x.hash.None?)
            && (error == Some(HashUnsupported) <==>
                  && BasicsInOrder(x) && x.hash.Some? && !x.hash.value.digest.NoDigest?
                  && x.hash.value.algorithm.OtherAlgorithm?)
            && (error == Some(HashInvalid) <==>
                  && BasicsInOrder(x) && x.hash.Some?
                  && (|| x.hash.value.algorithm.NoAlgorithm? || x.hash.value.digest.NoDigest?
                      || (x.hash.value.algorithm.Sha256? && x.hash.value.digest.OtherDigest?)))
            && (error == Some(CompletionOwnershipInvalid) ==>
                  && x.status.Completing?
                  && (x.completionToken.Blank? || x.completionStartedAt.None? || x.completionStartedAt == Some(0)))
            && (error.Some? ==> error.value in {HashRequired, HashUnsupported, HashInvalid, CompletionOwnershipInvalid,
                                                SessionInvalid})
  {
  }

  /** If a missing owner is all that is wrong with a COMPLETING session, that is what is reported. */
  lemma MissingOwnerIsReported(x: SessionState)
    requires x.status.Completing? && UploadIdMatchesMode(x)
    requires WellShaped(x.(status := Uploading))
    ensures Validate(x).error
         == if x.completionToken.Blank? || x.completionStartedAt.None? || x.completionStartedAt == Some(0)
            then Some(CompletionOwnershipInvalid) else None
  {
  }

  /** The transitions that are refused, and those that have happened already, leave the session alone. */
  lemma ClosedTransitions(x: SessionState, file: Text, code: Text, text: Text, parts: int, at: Time)
    ensures x.status.Completed? ==>
              MarkCompleted(x, file, at)
              == Outcome(x, if x.fileId.Text? && x.fileId != file then Some(SessionStateConflict) else None)
    ensures !x.status.Completed? && !x.status.Completing? ==>
              MarkCompleted(x, file, at) == Outcome(x, Some(SessionStateConflict))
    ensures x.status.Failed? ==> MarkFailed(x, code, text, at) == Outcome(x, None)
    ensures !x.status.Failed? && !x.status.Completing? ==>
              MarkFailed(x, code, text, at) == Outcome(x, Some(SessionStateConflict))
    ensures x.status.Completing? || x.status.Completed? ==> Abort(x, at) == Outcome(x, Some(SessionStateConflict))
    ensures x.status.Aborted? || x.status.Expired? || x.status.Failed? ==> Abort(x, at) == Outcome(x, None)
    ensures !x.status.Initiated? && !x.status.Uploading? ==>
              MarkUploading(x, parts) == Outcome(x, Some(SessionStateConflict))
  {
  }

  // ---------------------------------------------------------------------------
  // Columns of upload.upload_sessions, and the round trip through them.

  datatype DetailColumns = DetailColumns(
    owner: Text,
    fileName: Text,
    contentType: Option<nat>,
    accessLevel: AccessLevel,
    chunkSize: int,
    resumedFrom: Option<nat>,
    idempotencyKey: Option<nat>)

  datatype Columns = Columns(
    id: Id,
    tenant: Id,
    mode: Mode,
    status: Status,
    expectedSize: int,
    totalParts: int,
    completedParts: int,
    location: ObjectRef,
    providerUploadId: Option<nat>,
    fileId: Option<nat>,
    hashValue: Option<Digest>,
    hashAlgorithm: Option<Algorithm>,
    completionToken: Option<nat>,
    completionStartedAt: Option<Time>,
    createdAt: Time,
    updatedAt: Time,
    completedAt: Option<Time>,
    abortedAt: Option<Time>,
    failureCode: Option<nat>,
    failureMessage: Option<nat>,
    failedAt: Option<Time>,
    expiresAt: Time,
    details: DetailColumns)

  function NullString(t: Text): Option<nat> {
    if t.Blank? then None else Some(t.n)
  }

  function StringOf(c: Option<nat>): Text {
    if c.None? then Blank else Text(c.value)
  }

  function NullTime(t: Option<Time>): Option<Time> {
    if TimeSet(t) then t else None
  }

  function SaveDetails(d: Details): DetailColumns {
    DetailColumns(d.owner, d.fileName, NullString(d.contentType), d.accessLevel, d.chunkSize,
                  NullString(d.resumedFrom), NullString(d.idempotencyKey))
  }

  function LoadDetails(c: DetailColumns): Details {
    Details(c.owner, c.fileName, StringOf(c.contentType), c.accessLevel, c.chunkSize, StringOf(c.resumedFrom),
            StringOf(c.idempotencyKey))
  }

  /** Session.Save: the columns written for a session. */
  function Save(x: SessionState): Columns {
    Columns(x.id, x.tenant, x.mode, x.status, x.sizeBytes, x.totalParts, x.completedParts, x.location,
            NullString(x.providerUploadId), NullString(x.fileId),
            if x.hash.None? then None else Some(x.hash.value.digest),
            if x.hash.None? then None else Some(x.hash.value.algorithm),
            NullString(x.completionToken), NullTime(x.completionStartedAt), x.createdAt, x.updatedAt,
            NullTime(x.completedAt), NullTime(x.abortedAt), NullString(x.failureCode),
            NullString(x.failureMessage), NullTime(x.failedAt), x.expiresAt, SaveDetails(x.details))
  }

  /** querySession: rebuild the session from its columns and validate it. */
  function Load(c: Columns): Result<SessionState> {
    var hash := if c.hashValue.Some? && c.hashAlgorithm.Some?
                then Some(ContentHash(c.hashAlgorithm.value, c.hashValue.value)) else None;
    var x := SessionState(
               c.id, c.tenant, c.mode, c.status, c.expectedSize, c.totalParts, c.completedParts, c.location,
               StringOf(c.providerUploadId), StringOf(c.fileId), hash, StringOf(c.completionToken),
               c.completionStartedAt, c.createdAt, c.updatedAt, c.completedAt, c.abortedAt,
               StringOf(c.failureCode), StringOf(c.failureMessage), c.failedAt, c.expiresAt,
               LoadDetails(c.details));
    var checked := Validate(x);
    if checked.error.Some? then Err(checked.error.value) else Ok(checked.state)
  }

  /** No optional timestamp points to the zero time. */
  predicate NoZeroTimes(x: SessionState) {
    && (x.completionStartedAt.Some? ==> TimeSet(x.completionStartedAt))
    && (x.completedAt.Some? ==> TimeSet(x.completedAt))
    && (x.abortedAt.Some? ==> TimeSet(x.abortedAt))
    && (x.failedAt.Some? ==> TimeSet(x.failedAt))
  }

  /** The columns cannot tell a zero timestamp from an absent one. */
  function DropZeroTimes(x: SessionState): (y: SessionState)
    ensures y == x <==> NoZeroTimes(x)
    ensures NoZeroTimes(y)
  {
    x.(completionStartedAt := NullTime(x.completionStartedAt), completedAt := NullTime(x.completedAt),
       abortedAt := NullTime(x.abortedAt), failedAt := NullTime(x.failedAt))
  }

  lemma LoadOfSave(x: SessionState)
    ensures var checked := Validate(DropZeroTimes(x));
            Load(Save(x)) == if checked.error.Some? then Err(checked.error.value) else Ok(checked.state)
  {
    var c, y := Save(x), DropZeroTimes(x);
    var hash := if c.hashValue.Some? && c.hashAlgorithm.Some?
                then Some(ContentHash(c.hashAlgorithm.value, c.hashValue.value)) else None;
    assert hash == x.hash;
    assert y == SessionState(
               c.id, c.tenant, c.mode, c.status, c.expectedSize, c.totalParts, c.completedParts, c.location,
               StringOf(c.providerUploadId), StringOf(c.fileId), hash, StringOf(c.completionToken),
               c.completionStartedAt, c.createdAt, c.updatedAt, c.completedAt, c.abortedAt,
               StringOf(c.failureCode), StringOf(c.failureMessage), c.failedAt, c.expiresAt,
               LoadDetails(c.details));
  }

  /** Validate changes nothing but TotalParts. */
  lemma ValidateTouchesOnlyTotalParts(x: SessionState)
    ensures Validate(x).state == x.(totalParts := Validate(x).state.totalParts)
  {
  }

  /** Saving and loading gives the session back exactly when it is valid and has no zero timestamps. */
  lemma SaveLoadRoundTrip(x: SessionState)
    ensures Load(Save(x)) == Ok(x) <==> NoZeroTimes(x) && WellShaped(x) && UploadIdMatchesMode(x)
  {
    var y := DropZeroTimes(x);
    LoadOfSave(x);
    ValidateTouchesOnlyTotalParts(y);
    ValidateAcceptsExactly(y);
    assert Validate(y).state == x ==> NoZeroTimes(x);
  }

  // ---------------------------------------------------------------------------
  // The session object itself.

  class Session {
    const id: Id
    const tenant: Id
    const mode: Mode
    var status: Status
    const sizeBytes: int
    var totalParts: int
    var completedParts: int
    const location: ObjectRef
    const providerUploadId: Text
    var fileId: Text
    const hash: Option<ContentHash>
    var completionToken: Text
    var completionStartedAt: Option<Time>
    const createdAt: Time
    var updatedAt: Time
    var completedAt: Option<Time>
    var abortedAt: Option<Time>
    var failureCode: Text
    var failureMessage: Text
    var failedAt: Option<Time>
    const expiresAt: Time
    const details: Details

    function State(): SessionState
      reads this
    {
      SessionState(id, tenant, mode, status, sizeBytes, totalParts, completedParts, location, providerUploadId,
                   fileId, hash, completionToken, completionStartedAt, createdAt, updatedAt, completedAt,
                   abortedAt, failureCode, failureMessage, failedAt, expiresAt, details)
    }

    constructor (x: SessionState)
      ensures State() == x
    {
      id, tenant, mode, status, sizeBytes := x.id, x.tenant, x.mode, x.status, x.sizeBytes;
      totalParts, completedParts, location := x.totalParts, x.completedParts, x.location;
      providerUploadId, fileId, hash := x.providerUploadId, x.fileId, x.hash;
      completionToken, completionStartedAt := x.completionToken, x.completionStartedAt;
      createdAt, updatedAt, completedAt, abortedAt := x.createdAt, x.updatedAt, x.completedAt, x.abortedAt;
      failureCode, failureMessage, failedAt := x.failureCode, x.failureMessage, x.failedAt;
      expiresAt, details := x.expiresAt, x.details;
    }

    method CheckValid() returns (error: Option<ErrorCode>)
      modifies this`totalParts
      ensures Outcome(State(), error) == Validate(old(State()))
    {
      if details.owner.Blank? || details.fileName.Blank? || details.contentType.Blank? { return Some(SessionInvalid); }
      if details.accessLevel.OtherLevel? { return Some(SessionInvalid); }
      if sizeBytes <= 0 || createdAt == 0 || updatedAt == 0 || updatedAt < createdAt {
        return Some(SessionInvalid);
      }
      if expiresAt == 0 || expiresAt <= createdAt { return Some(SessionInvalid); }
      if details.chunkSize < 0 { return Some(SessionInvalid); }
      if RequiresContentHash(mode) && hash.None? { return Some(HashRequired); }
      if hash.Some? {
        var invalid := ValidateHash(hash.value);
        if invalid.Some? { return invalid; }
      }
      if mode.Direct? {
        if providerUploadId.Blank? { return Some(SessionInvalid); }
        if totalParts < 1 { return Some(SessionInvalid); }
      } else {
        if !providerUploadId.Blank? { return Some(SessionInvalid); }
        if totalParts == 0 { totalParts := 1; }
        if totalParts != 1 { return Some(SessionInvalid); }
      }
      if completedParts < 0 { return Some(SessionInvalid); }
      if totalParts > 0 && completedParts > totalParts { return Some(SessionInvalid); }
      if status.Completing? && !OwnershipSet(completionToken, completionStartedAt) {
        return Some(CompletionOwnershipInvalid);
      }
      match status {
        case Completed =>
          if fileId.Blank? || !TimeSet(completedAt) { return Some(SessionInvalid); }
        case Aborted =>
          if !TimeSet(abortedAt) { return Some(SessionInvalid); }
        case Failed =>
          if !TimeSet(failedAt) || failureCode.Blank? || failureMessage.Blank? { return Some(SessionInvalid); }
        case _ =>
      }
      return None;
    }

    method Upload(parts: int) returns (error: Option<ErrorCode>)
      modifies this`status, this`completedParts
      ensures Outcome(State(), error) == MarkUploading(old(State()), parts)
    {
      if !status.Initiated? && !status.Uploading? { return Some(SessionStateConflict); }
      status := Uploading;
      if parts > completedParts { completedParts := parts; }
      return None;
    }

    method Acquire(token: Text, startedAt: Time) returns (error: Option<ErrorCode>, ownership: Ownership)
      modifies this`status, this`completionToken, this`completionStartedAt, this`updatedAt
      ensures (Outcome(State(), error), ownership) == AcquireCompletion(old(State()), token, startedAt)
    {
      if !OwnershipSet(token, Some(startedAt)) { return Some(CompletionOwnershipInvalid), HeldByAnother; }
      match status {
        case Initiated | Uploading =>
          status := Completing;
          completionToken := token;
          completionStartedAt := Some(startedAt);
          updatedAt := startedAt;
          return None, Acquired;
        case Completing =>
          if !OwnershipSet(completionToken, completionStartedAt) {
            return Some(CompletionOwnershipInvalid), HeldByAnother;
          }
          if completionToken == token { return None, HeldByCaller; }
          return None, HeldByAnother;
        case Completed => return None, AlreadyDone;
        case _ => return Some(SessionStateConflict), HeldByAnother;
      }
    }

    method Complete(file: Text, at: Time) returns (error: Option<ErrorCode>)
      modifies this
      ensures Outcome(State(), error) == MarkCompleted(old(State()), file, at)
    {
      if status.Completed? {
        if !fileId.Blank? && fileId != file { return Some(SessionStateConflict); }
        return None;
      }
      if !status.Completing? { return Some(SessionStateConflict); }
      status := Completed;
      fileId := file;
      completedAt := Some(at);
      updatedAt := at;
      error := CheckValid();
    }

    method Fail(code: Text, message: Text, at: Time) returns (error: Option<ErrorCode>)
      modifies this
      ensures Outcome(State(), error) == MarkFailed(old(State()), code, message, at)
    {
      if status.Failed? { return None; }
      if !status.Completing? { return Some(SessionStateConflict); }
      status := Failed;
      failureCode := code;
      failureMessage := message;
      failedAt := Some(at);
      updatedAt := at;
      error := CheckValid();
    }

    method Cancel(at: Time) returns (error: Option<ErrorCode>)
      modifies this`status, this`abortedAt, this`updatedAt
      ensures Outcome(State(), error) == Abort(old(State()), at)
    {
      match status {
        case Aborted | Expired | Failed => return None;
        case Initiated | Uploading =>
          status := Aborted;
          abortedAt := Some(at);
          updatedAt := at;
          return None;
        case _ => return Some(SessionStateConflict);
      }
    }
  }
}
