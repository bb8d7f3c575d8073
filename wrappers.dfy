/** Failure-compatible wrappers used across the builders. */
module Wrappers {

  datatype Option<+T> = None | Some(value: T)

  /** The outcome of a setter that may throw instead of updating the document. */
  datatype Outcome<+E> = Pass | Fail(error: E)
}
