/** Small failure-carrying wrappers shared by the handlers. */
module Basics {

  datatype Option<+T> = None | Some(value: T)

  /** The outcome of a step that either yields a value or throws an error carrying a message. */
  datatype Result<+T> = Success(value: T) | Failure(error: string)

  /** The outcome of a step that yields nothing or throws. */
  datatype Outcome = Pass | Fail(error: string)
}
