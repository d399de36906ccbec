/** Optional values, the one error the statistics core can raise, and a
    failure-compatible result type so that `:-` plays the part of Rust's `?`. */
module Outcomes {

  datatype Option<+T> = None | Some(value: T) {

    /** `Option::unwrap_or`: the carried value, or `default` when absent. */
    function UnwrapOr(default: T): (r: T) {
      match this
      case Some(v) => v
      case None => default
    }
  }

  /** The differencer's only failure: the two vectors it is given have
      different lengths. Carries both lengths, as the message does. */
  datatype Error = LengthMismatch(v1Length: nat, v2Length: nat)

  datatype Result<+T> = Success(value: T) | Failure(error: Error) {

    predicate IsFailure() {
      Failure?
    }

    function PropagateFailure<U>(): (r: Result<U>)
      requires Failure?
    {
      Failure(error)
    }

    function Extract(): (r: T)
      requires Success?
    {
      value
    }
  }
}
