/** What several components share. */
module Basics {
  datatype Option<+T> = None | Some(value: T)

  /** A byte of a stream, a packet or a stored item. */
  type Byte = b: int | 0 <= b < 256

  /** The depth at which an in-place run turns into a posted one (`kMaxInlineDepth`). */
  const MaxInlineDepth: nat := 64
}
