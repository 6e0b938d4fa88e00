/** Shared result types: an optional value, and a computation that either returns or raises. */
module Outcome {

  datatype Option<+T> = None | Some(value: T)

  datatype Result<+T> = Raised | Returned(value: T) {
    predicate IsFailure() { Raised? }
    function PropagateFailure<U>(): Result<U> requires Raised? { Raised }
    function Extract(): T requires Returned? { value }
  }
}
