/** Optional and failure-carrying result types used by the catalog and the converters. */
module Wrappers {

  /** A value that may be absent; `None` stands for the C# `null` a converter returns. */
  datatype Option<+T> = None | Some(value: T)

  /** The outcome of an operation that may raise one of the errors in `E`. */
  datatype Result<+R, +E> = Success(value: R) | Failure(error: E)
}
