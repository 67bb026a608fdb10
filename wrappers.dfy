/** Option and Result: PHP's nullable values and thrown exceptions. */
module Wrappers {

  /** A nullable value: `None` stands for PHP's `null` (or an absent array key). */
  datatype Option<+T> = None | Some(value: T) {

    /** `$x ?? $default` */
    function GetOr(default: T): T {
      match this
      case Some(v) => v
      case None => default
    }

    /** `$x ?? $y` where `$y` is itself nullable. */
    function OrElse(other: Option<T>): Option<T> {
      if Some? then this else other
    }
  }

  /** The value an operation returns, or the exception it throws. */
  datatype Result<+R, +E> = Success(value: R) | Failure(error: E)
}
