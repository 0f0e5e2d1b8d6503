/** Optional values (Python's `None`) and results of operations that can raise. */
module Wrappers {

  /** A value that may be absent; `None` models Python's `None`. */
  datatype Option<+T> = None | Some(value: T) {

    /** This value if present, otherwise `other`: the first of two rules that produced something. */
    function Or(other: Option<T>): Option<T> {
      if Some? then this else other
    }
  }

  /** The outcome of a computation that either returns a value or raises an error. */
  datatype Result<+T, +E> = Ok(value: T) | Err(error: E)
}
