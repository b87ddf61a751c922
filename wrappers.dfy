/** Option and Result for the host's nullable values and thrown syntax errors. */
module Wrappers {

  /** A Java reference that may be `null`. */
  datatype Option<+T> = None | Some(value: T)

  /** A host call that either returns a value or throws a `CommandSyntaxException`. */
  datatype Result<+R, +E> = Success(value: R) | Failure(error: E)
}
