/** Small shared vocabulary: optional values, results, and Go's fixed-width integers. */
module Common {

  /** A value that may be absent (a Go nil pointer or a nil error). */
  datatype Option<+T> = None | Some(value: T)

  /** A value or an error, as in Go's `(T, error)` return pairs. */
  datatype Result<+T, +E> = Ok(value: T) | Err(error: E)

  /** Go's `byte`. */
  newtype byte = x: int | 0 <= x < 0x100

  /** Go's `uint32`, used for RTMP timestamps and the chunk size. */
  newtype uint32 = x: int | 0 <= x < 0x1_0000_0000
}
