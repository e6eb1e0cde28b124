/** Option and Result datatypes shared by the model. */
module Wrappers {

  /** An optional value: the payload field that the catalog service may omit or send as null. */
  datatype Option<+T> = None | Some(value: T)

  /** The outcome of a remote call: the parsed payload or the transport/HTTP error. */
  datatype Result<+T, +E> = Success(value: T) | Failure(error: E)
}
