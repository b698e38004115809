/** Optional values and the outcome of an operation that can throw. */
module Outcomes {

  /** A value that may be missing (`undefined` / `null` on the JavaScript side). */
  datatype Option<+T> = None | Some(value: T)

  /** The outcome of a call that returns nothing but may throw `error`. */
  datatype Outcome<+E> = Returned | Threw(error: E)
}
