/** Small failure-carrying datatypes shared by the other modules. */
module Wrappers {

  /** A value that may be absent: a missing message field, a failed lookup. */
  datatype Option<+T> = None | Some(value: T)

  /** The outcome of a remote call that returns nothing useful but may throw
      an error carrying a message. */
  datatype Outcome = Pass | Fail(error: string)
}
