/** Optional and failure-carrying values. In the model `None` stands for a
    NaN the source lets flow through its arithmetic, and `Failure` for an
    exception it raises. */
module Wrappers {

  datatype Option<+T> = None | Some(value: T)

  datatype Result<+T, +E> = Success(value: T) | Failure(error: E)
}
