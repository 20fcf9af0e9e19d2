/** Optional values and fallible results, used for Go's comma-ok reads and
    its (value, error) returns. */
module Wrappers {

  datatype Option<+T> = None | Some(value: T)

  datatype Result<+R, +E> = Success(value: R) | Failure(error: E)

  /** The first of two optional values that is present. */
  ghost function FirstOf<T>(preferred: Option<T>, fallback: Option<T>): Option<T>
  {
    if preferred.Some? then preferred else fallback
  }
}
