/** Bytes, byte strings and the ASCII constants of topic names and filters.
    A Go string or byte slice is a sequence of bytes; lengths are byte counts. */
module Bytes {
  type byte = b: int | 0 <= b < 256
  type bytes = seq<byte>

  const DOLLAR: byte := 36
  const HASH: byte := 35
  const PLUS: byte := 43
  const SLASH: byte := 47
  const LOWER_X: byte := 120
  const LOWER_Y: byte := 121

  /** The largest length of a length-prefixed field and the largest packet identifier. */
  const MAX_UINT16: nat := 65535

  /** Zero is no packet identifier. */
  predicate Identifier(id: nat) {
    1 <= id <= MAX_UINT16
  }

  datatype Option<+T> = None | Some(value: T)

  function Bit(b: bool): nat {
    if b then 1 else 0
  }
}
