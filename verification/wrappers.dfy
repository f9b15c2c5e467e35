/** The two sum types the model is written with. */
module Wrappers {

  /**
   * A value that may be absent. The readers of `Messages` use it with `:-`,
   * which gives up on the first absent part.
   */
  datatype Option<+T> = None | Some(value: T) {
    predicate IsFailure() { None? }

    function PropagateFailure<U>(): Option<U>
      requires None?
    {
      None
    }

    function Extract(): T
      requires Some?
    {
      value
    }
  }

  /** Go's `(value, err)` return pair: the value when `err` is nil, the error otherwise. */
  datatype Result<+T, +E> = Success(value: T) | Failure(error: E)
}
