/** Option and Result types standing in for Python's None and raised exceptions. */
module Wrappers {

  datatype Option<+T> = None | Some(value: T)

  /** The outcome of a step that may raise: a value, or the exception it raised. */
  datatype Result<+T, +E> = Success(value: T) | Failure(error: E)

  /**
   * The Python exceptions the integration lets escape: a missing key, `None`
   * used as a value (or a string given to `timedelta`), `next` on an empty
   * generator, a missing attribute on an enum, and a `timedelta` beyond its
   * range.
   */
  datatype Raised =
    | KeyError(key: string) | TypeError | StopIteration | AttributeError(name: string) | OverflowError
}
