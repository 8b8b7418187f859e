/** Vocabulary shared by the whole model. */
module Base {

  datatype Option<+T> = None | Some(value: T)

  /** Identifiers only matter up to equality; a generated identifier is never blank. */
  type Id = nat

  /** Instants of one monotone clock; 0 is Go's zero time. */
  type Time = nat

  /** A trimmed Go string, `Blank` being the empty one. */
  datatype Text = Blank | Text(n: nat)

  function MaxInt(a: int, b: int): int {
    if a < b then b else a
  }
}
