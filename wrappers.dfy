/** Optional values and success/failure results, standing in for Java's
    `Optional`, `null` and thrown exceptions. */
module Wrappers {

  /** `Optional<T>` (or a nullable reference): absent or present. */
  datatype Option<+T> = None | Some(value: T) {
    /** The present value, or `default` (`Optional.orElse`). */
    function GetOr(default: T): T {
      match this
      case Some(v) => v
      case None => default
    }
  }

  /** The outcome of a call that either returns normally or throws `error`. */
  datatype Outcome<+E> = Pass | Fail(error: E)

  /** A value, or the `error` thrown instead of producing it. */
  datatype Result<+T, +E> = Success(value: T) | Failure(error: E)
}
