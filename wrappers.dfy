/** Option and Result values standing in for C# nullable references and thrown exceptions. */
module Wrappers {

  /** A C# reference that may be null: `None` is null, `Some(v)` a present value. */
  datatype Option<+T> = None | Some(value: T)

  /** The outcome of a constructor that either returns its object or throws. */
  datatype Result<+R, +E> = Success(value: R) | Failure(error: E)
}
