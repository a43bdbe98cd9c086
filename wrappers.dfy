/** Optional values and success-or-error results shared by the other modules. */
module Wrappers {

  /** A value that may be absent. An `Option<real>` stands for the result of
      `parseFloat`: `None` is `NaN`, `Some(x)` is the number `x`. */
  datatype Option<+T> = None | Some(value: T)

  /** The outcome of an operation that either succeeds with a value or is
      rejected with one of the operation's errors. */
  datatype Result<+T, +E> = Ok(value: T) | Err(error: E)
}
