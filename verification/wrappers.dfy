/** Option and Result values used for the Python code's `None` and raised exceptions. */
module Wrappers {

  /** `None` or a present value. */
  datatype Option<+T> = None | Some(value: T) {
    function GetOr(default: T): T {
      if Some? then value else default
    }
  }

  /** A normal return (`Success`) or a raised exception (`Failure`). */
  datatype Result<+T, +E> = Success(value: T) | Failure(error: E)
}
