/** Option and Result values shared by the modules of the model. */
module Wrappers {

  /** A value that may be absent (a TypeScript `undefined`). */
  datatype Option<+T> = None | Some(value: T)

  /** The outcome of an operation that throws in the source. */
  datatype Result<+T, +E> = Success(value: T) | Failure(error: E)
}
