/** Optional values and results with an error, used where the Java code returns null or throws. */
module Wrappers {

  /** `None` stands for Java's `null`. */
  datatype Option<+T> = None | Some(value: T)

  /** `Failure` stands for an exception thrown out of an operation. */
  datatype Result<+T, +E> = Success(value: T) | Failure(error: E)
}
