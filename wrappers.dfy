/** Optional values and value-or-error results, shared by the other modules. */
module Wrappers {

  /** A value that may be missing: Go's `(value, ok)` lookups. */
  datatype Option<+T> = None | Some(value: T)

  /** A value or an error: Go's `(value, err)` returns. */
  datatype Result<+T, +E> = Ok(value: T) | Err(error: E)
}
