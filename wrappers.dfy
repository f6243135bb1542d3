/** The two small result types the model uses in place of Java's `null` and of
    an early `return` after an error message. */
module Wrappers {

  /** A value that may be absent, as a Java field that starts out `null`. */
  datatype Option<+T> = None | Some(value: T)

  /** The outcome of an operation that either produces a value or stops on an error. */
  datatype Result<+T, +E> = Ok(value: T) | Err(error: E)
}
