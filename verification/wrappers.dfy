/** Option and Result used by the model.
  - Option stands for Python's "value or None".
  - Result carries either a constructed value or the error that stopped construction.
 */
module Wrappers {

  /** A value that may be absent, as Python's `None` placeholder. */
  datatype Option<+T> = None | Some(value: T)

  /** Either a successfully built value or the error that was raised instead. */
  datatype Result<+T, +E> = Success(value: T) | Failure(error: E)
}
