// Option, the failure-compatible reply of an operation that may raise, and the ways a
// durable write ends.
module Wrappers {

  datatype Option<+T> = None | Some(value: T)

  // The result of an operation that may raise: `:-` propagates the error, as an
  // exception would.
  datatype Reply<+T, +E> = Value(value: T) | Raised(error: E) {
    predicate IsFailure() {
      Raised?
    }

    function PropagateFailure<U>(): (r: Reply<U, E>)
      requires Raised?
    {
      Raised(error)
    }

    function Extract(): T
      requires Value?
    {
      value
    }
  }

  // How a durable write ends: completed, or raised with the old or the new content in place.
  datatype WriteOutcome = Done | Failed(landed: bool) {
    predicate Lands() {
      Done? || landed
    }
  }
}
