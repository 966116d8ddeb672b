/** Optional values and results, standing for Ruby's nil and raised exceptions. */
module Wrappers {

  /** `None` is Ruby's nil (or false, for a configuration value used as a condition). */
  datatype Option<+T> = None | Some(value: T)

  /** The outcome of a call that may raise: `Err` carries the exception. */
  datatype Result<+T, +E> = Ok(value: T) | Err(error: E)
}
