/** Option and Outcome datatypes shared by the other modules. */
module Wrappers {

  /** A value that may be absent: JavaScript's `undefined` in the server's state and payloads. */
  datatype Option<+T> = None | Some(value: T)

  /** The outcome of an operation that either completes or throws an error. */
  datatype Outcome<+E> = Pass | Fail(error: E)
}
