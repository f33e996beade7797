/** Optional values and error-carrying results shared by every module of the model.
    Java's `Optional` and nullable references become `Option`; an operation that
    either returns or throws becomes a `Result` (or an `Outcome` when it returns nothing). */
module Wrappers {

  datatype Option<+T> = None | Some(value: T)

  datatype Result<+R, +E> = Success(value: R) | Failure(error: E)

  datatype Outcome<+E> = Pass | Fail(error: E)

  /** `java.net.URI` is treated as its opaque string form. */
  type Uri = string
}
