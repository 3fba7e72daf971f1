/** Option and Result, used for JavaScript's `undefined`/`null` and for thrown exceptions. */
module Wrappers {

  datatype Option<+T> = None | Some(value: T)

  /** `Failure` stands for a JavaScript exception carrying its message. */
  datatype Result<+R, +E> = Success(value: R) | Failure(error: E)
}
