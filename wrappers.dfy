/** Option and Result, used for JavaScript's `undefined`/`null` and for
    outcomes of calls into code outside the model. */
module Wrappers {

  datatype Option<+T> = None | Some(value: T)

  /** The outcome of a call to the external issue tracker: a value, or the
      error message that `String(error)` would produce. */
  datatype Result<+R> = Success(value: R) | Failure(error: string)
}
