/** Option and Result datatypes shared by the other modules. */
module Wrappers {

  /** An optional value; `None` stands for an absent JSON key. */
  datatype Option<+T> = None | Some(value: T)

  /** Either a computed value or the error that stopped the computation. */
  datatype Result<+R, +E> = Success(value: R) | Failure(error: E)
}
