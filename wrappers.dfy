/** Stock wrappers used across the model: Java's nullable
    references become Option, thrown exceptions become the Failure arm of Result. */
module Wrappers {

  datatype Option<+T> = None | Some(value: T)

  datatype Result<+T, +E> = Success(value: T) | Failure(error: E)
}
