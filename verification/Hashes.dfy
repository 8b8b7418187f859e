/** complete_upload_session.go: which content hash a completed upload is filed under. */
module Hashes {
  import opened Base
  import opened Sessions

  function ResolveExpected(session: Option<ContentHash>, command: Option<ContentHash>)
    : Result<Option<ContentHash>>
  {
    if command.Some? && ValidateHash(command.value).Some? then Err(ValidateHash(command.value).value)
    else if session.Some? && command.Some? && session.value != command.value then Err(HashMismatch)
    else if command.Some? then Ok(command)
    else Ok(session)
  }

  function ResolveCanonical(expected: Option<ContentHash>, checksum: Digest): Result<Option<ContentHash>> {
    if expected.Some? then
      if checksum.NoDigest? || checksum != expected.value.digest then Err(HashMismatch) else Ok(expected)
    else if checksum.NoDigest? then Ok(None)
    else
      var derived := ContentHash(Sha256, checksum);
      if ValidateHash(derived).Some? then Ok(None) else Ok(Some(derived))
  }

  function Resolve(session: Option<ContentHash>, command: Option<ContentHash>, checksum: Digest)
    : Result<Option<ContentHash>>
  {
    var expected := ResolveExpected(session, command);
    if expected.Err? then Err(expected.code) else ResolveCanonical(expected.value, checksum)
  }

  /** The code finalizeFailure turns into a FAILED session. */
  predicate IsTerminalFailure(code: ErrorCode) {
    code in {HashMismatch, HashUnsupported, HashInvalid, MultipartNotFound, MultipartConflict}
  }

  predicate Sound(h: Option<ContentHash>) {
    h.Some? ==> ValidateHash(h.value).None?
  }

  /**
    * An upload is filed under a hash only if every declared hash is that hash and the verified
    * checksum is its value; with nothing declared it is filed under the checksum, if that is a SHA-256.
    */
  lemma FiledUnderTheVerifiedHash(session: Option<ContentHash>, command: Option<ContentHash>, checksum: Digest)
    requires Sound(session)
    ensures Resolve(session, command, checksum).Ok? <==>
            && Sound(command)
            && (session.Some? && command.Some? ==> session == command)
            && (session.Some? ==> session.value.digest == checksum)
            && (command.Some? ==> command.value.digest == checksum)
    ensures var r := Resolve(session, command, checksum);
            r.Ok? ==>
              && Sound(r.value)
              && (session.Some? ==> r.value == session)
              && (command.Some? ==> r.value == command)
              && (r.value.Some? <==> checksum.Hex64?)
              && (r.value.Some? ==> r.value.value == ContentHash(Sha256, checksum))
    ensures var r := Resolve(session, command, checksum);
            r.Err? ==>
              && IsTerminalFailure(r.code)
              && (r.code == HashMismatch <==> Sound(command))
  {
  }
}
