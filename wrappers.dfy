/** Optional values and results with a typed failure: the Java code signals absence with
  * `null` and failure with an exception, which the model returns as a value instead. */
module Wrappers {
  datatype Option<T> = None | Some(value: T)

  /** A value or the exception that replaced it; usable with `:-`, which propagates the
    * exception as the Java code does. */
  datatype Result<T, E> = Ok(value: T) | Err(error: E)
  {
    predicate IsFailure() { Err? }

    function PropagateFailure<U>(): Result<U, E>
      requires Err?
    {
      Err(error)
    }

    function Extract(): T
      requires Ok?
    {
      value
    }
  }
}
