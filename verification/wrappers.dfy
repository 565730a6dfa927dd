/** Optional values and success/failure results used throughout the model. */
module Wrappers {

  /** A value that may be missing: a TypeScript `T | undefined` after parsing. */
  datatype Option<+T> = None | Some(value: T) {

    /** The value when present, otherwise `default` (a destructuring default). */
    function GetOr(default: T): T {
      if Some? then value else default
    }
  }

  /** The outcome of an operation that either produces a value or fails. */
  datatype Result<+T, +E> = Success(value: T) | Failure(error: E)
}
