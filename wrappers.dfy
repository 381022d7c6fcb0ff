/** Small failure-carrying datatypes shared by the other modules. */
module Wrappers {

  /** A value that may be absent (a missing attribute, a failed lookup). */
  datatype Option<+T> = None | Some(value: T)

  /** The outcome of a check that either passes or fails with a message
      (a JavaScript `throw new Error(message)`). */
  datatype Outcome = Pass | Fail(error: string)
}
