/** Result types shared by both programs. */
module Wrappers {

  datatype Option<+T> = None | Some(value: T)

  /** A value, or the error reported instead of producing it. */
  datatype Result<+T, +E> = Success(value: T) | Failure(error: E)

  /** An event handler either completes or reports an error dialog and changes nothing. */
  datatype Outcome<+E> = Pass | Fail(error: E)
}
