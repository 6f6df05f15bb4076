/** The two result types the other modules share. */
module Wrappers {

  /** A value the source may leave at None. */
  datatype Option<+T> = None | Some(value: T)

  /** A value, or the error the source raises instead. */
  datatype Result<+T, +E> = Success(value: T) | Failure(error: E)
}
