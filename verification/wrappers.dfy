/** Optional values and fallible results, used for Go's nil pointers and panics. */
module Wrappers {

  /** A value that may be absent: Go's `*T` read as "nil or a value". */
  datatype Option<+T> = None | Some(value: T)

  /** The outcome of a computation that either returns a value or fails with `error`. */
  datatype Result<+T, +E> = Ok(value: T) | Fail(error: E)
}
