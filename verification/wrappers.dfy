/** Failure-carrying datatypes shared by the other modules. */
module Wrappers {

  /** A value that may be absent: a regular-expression match that found
      nothing, or a settings key the parsed modification leaves undefined. */
  datatype Option<+T> = None | Some(value: T)

  /** Either a value or the error the source would throw instead. */
  datatype Result<+R, +E> = Success(value: R) | Failure(error: E)
}
