/** Failure-carrying values used across the model in place of Java's null and exceptions. */
module Wrappers {

  /** A value that may be absent (Java `null`, or a parse that threw). */
  datatype Option<T> = None | Some(value: T)

  /** A computation that either produced a value or raised the error it carries. */
  datatype Result<T, E> = Ok(value: T) | Err(error: E) {
    /** An exception propagates through `:-` as it does through a Java call. */
    predicate IsFailure() {
      Err?
    }

    function PropagateFailure<U>(): Result<U, E>
      requires Err?
    {
      Err(error)
    }

    function Extract(): T
      requires Ok?
    {
      value
    }
  }
}
