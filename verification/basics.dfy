/** Small shared vocabulary: bytes and optional values. */
module Basics {

  /** One octet, as Go's `byte`. */
  type byte = x: int | 0 <= x < 256

  /** A value that may be absent, e.g. Go's `error` (nil or an error message). */
  datatype Option<+T> = None | Some(value: T)
}
