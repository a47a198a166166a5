/** Failure-carrying wrappers shared by the storage model and the keyword tables. */
module Wrappers {

  /** An optional value; `None` stands for Java's and JavaScript's `null`. */
  datatype Option<+T> = None | Some(value: T)

  /** The outcome of an operation that either returns a value or raises an error. */
  datatype Result<+T, +E> = Ok(value: T) | Err(error: E)
}
