/** Optional values and success/failure results, the two shapes the app's
    Swift code uses for `T?` and for a publisher that either delivers a value
    or completes with a `NetworkError`. */
module Wrappers {

  /** Swift's `Optional<T>`: `nil` or a wrapped value. */
  datatype Option<+T> = None | Some(value: T) {

    /** Swift's nil-coalescing `self ?? default`. */
    function GetOr(default: T): T {
      match this
      case Some(v) => v
      case None => default
    }
  }

  /** The outcome of one network request: the decoded value or the error it failed with. */
  datatype Result<+R, +E> = Success(value: R) | Failure(error: E)
}
