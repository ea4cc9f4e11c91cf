/** Success, failure and absence, as the rest of the model returns them. */
module Wrappers {

  datatype Option<+T> = None | Some(value: T)

  /** Either a value or the reason there is none; usable with `:-`. */
  datatype Result<+R, +E> = Success(value: R) | Failure(error: E) {
    predicate IsFailure() {
      Failure?
    }

    function PropagateFailure<U>(): Result<U, E>
      requires Failure?
    {
      Failure(error)
    }

    function Extract(): R
      requires Success?
    {
      value
    }
  }
}
