/** Option and Result wrappers shared by the other modules. */
module Wrappers {

  /** A value that may be absent; models Python's `None` sentinel. */
  datatype Option<+T> = None | Some(value: T)

  /** Either a value or the exception the source would raise. */
  datatype Result<+T, +E> = Success(value: T) | Failure(error: E)
}
