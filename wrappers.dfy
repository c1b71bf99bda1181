/** Optional values and success-or-error results, the two wrappers the source
    uses (Swift's `Optional` and `Result`). */
module Wrappers {

  datatype Option<+T> = None | Some(value: T)

  datatype Result<+T, +E> = Success(value: T) | Failure(error: E)
}
