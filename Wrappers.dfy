/** Option and Result, used for absent values and for thrown exceptions. */
module Wrappers {

  /** None stands for an absent value: `undefined`, a `null` token, or the -1 of indexOf. */
  datatype Option<+T> = None | Some(value: T)

  /** Failure carries the exception a JavaScript expression would throw. */
  datatype Result<+R, +E> = Success(value: R) | Failure(error: E)
}
