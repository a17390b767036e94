/** Option and Result, the two shapes the model uses for nullable values and
    for calls that either succeed or throw. */
module Wrappers {

  datatype Option<+T> = None | Some(value: T) {
    /** JavaScript's `x || d` for a value that is either present or null/undefined. */
    function GetOr(default: T): T {
      match this
      case Some(v) => v
      case None => default
    }
  }

  /** `x || 0` for a number that may be null, undefined or not a number:
      the number itself when there is one, 0 otherwise. */
  function OrZero(x: Option<int>): (v: int)
    ensures x.None? ==> v == 0
    ensures x.Some? ==> v == x.value
  {
    x.GetOr(0)
  }

  datatype Result<+R, +E> = Success(value: R) | Failure(error: E)

  /** The outcome of a call whose only result is whether it threw. */
  datatype Outcome<+E> = Pass | Fail(error: E)
}
