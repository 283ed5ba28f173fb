/** Option and Result, the two failure-carrying values the widgets need. */
module Wrappers {

  datatype Option<+T> = None | Some(value: T)

  /** The result of a computation that may throw a JavaScript exception. */
  datatype Result<+T> = Ok(value: T) | Threw
}
