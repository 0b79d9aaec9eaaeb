/** Optional values and results that may fail: the model's stand-ins for Java's
    `Optional`/nullable references and for methods that throw. */
module Wrappers {

  /** An optional value: `None` for an absent `Optional` or a null reference. */
  datatype Option<+T> = None | Some(value: T)

  /** The outcome of an operation that either yields a value or fails with an error. */
  datatype Result<+T, +E> = Ok(value: T) | Err(error: E)
}
