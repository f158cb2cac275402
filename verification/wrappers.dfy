/** Optional values and the outcome of a call that may throw. */
module Wrappers {

  /** `None` stands for JavaScript's `undefined` (an absent property or an absent value). */
  datatype Option<+T> = None | Some(value: T)

  /** The outcome of an awaited call: its value, or an exception that propagates to the caller. */
  datatype Result<+T> = Success(value: T) | Failure
}
