/** Failure-carrying values used across the model. */
module Outcomes {

  /** A value that may be missing, as a DOM query that may find no element. */
  datatype Option<+T> = None | Some(value: T)

  /** The result of JavaScript code that either yields a value or throws a
      `TypeError` (reading a property of `undefined`). */
  datatype Result<+T> = Ok(value: T) | TypeError
}
