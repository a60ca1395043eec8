/** Optional values (Java's nullable references) and results that carry either a value or a failure. */
module Wrappers {

  /** `None` stands for a Java `null` reference. */
  datatype Option<T> = None | Some(value: T)

  /** The outcome of an operation that may throw: `Err` carries the exception. */
  datatype Result<R, E> = Ok(value: R) | Err(error: E)
}
