/** Failure-aware wrappers shared by the whole model: an absent JavaScript value
    (`undefined`) is `None`, and a thrown `Error` is a `Failure` carrying its message. */
module Wrappers {

  datatype Option<+T> = None | Some(value: T) {

    /** The value, or `default` when absent (the `x || default` idiom on non-falsy values). */
    function GetOr(default: T): T {
      match this
      case Some(v) => v
      case None => default
    }
  }

  datatype Result<+R, +E> = Success(value: R) | Failure(error: E) {

    /** Keeps a success, rewrites the error of a failure. */
    function MapFailure<E2>(f: E -> E2): Result<R, E2> {
      match this
      case Success(v) => Success(v)
      case Failure(e) => Failure(f(e))
    }
  }
}
