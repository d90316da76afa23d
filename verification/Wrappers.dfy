/** Optional values, used wherever the source returns `None`, and the outcome of operations. */
module Wrappers {
  datatype Option<+T> = None | Some(value: T)

  /** The result of an operation that the source aborts with an exception. */
  datatype Outcome<+E> = Pass | Fail(error: E)
}
