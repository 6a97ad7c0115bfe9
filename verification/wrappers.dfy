/** Option and Result wrappers shared by the other modules. */
module Wrappers {

  /** A value that may be absent; models a Chef property that may be nil. */
  datatype Option<+T> = None | Some(value: T)

  /** Either a computed value or the error that stopped the computation. */
  datatype Result<+R, +E> = Success(value: R) | Failure(error: E)
}
