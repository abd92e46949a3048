/** Option and Result, the two wrappers the model uses for Python's `None` and for raised exceptions. */
module Wrappers {

  /** A value that may be absent, as `dict.get` and `os.getenv` return `None` for a missing key. */
  datatype Option<+T> = None | Some(value: T)

  /** Either a value or the exception that was raised instead of returning it. */
  datatype Result<+T, +E> = Success(value: T) | Failure(error: E)
}
