/** Optional values and results with an error side, shared by the client and the server model. */
module Wrappers {

  /** An absent (`undefined`, `None`, a missing JSON key) or present value. */
  datatype Option<+T> = None | Some(value: T)

  /** A value, or the reason it could not be produced. */
  datatype Result<+T, +E> = Success(value: T) | Failure(error: E)
}
