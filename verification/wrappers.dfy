/** Failure-carrying values for the record pipeline.

  A Python exception that escapes an operation is modelled as an `Err`
  carrying the name of the exception's class; `:-` propagates it the way
  an uncaught exception unwinds the caller.
 */
module Wrappers {

  datatype Option<+T> = None | Some(value: T)

  /** A Python exception, identified by the name of its class. */
  datatype Exception = Exception(kind: string)

  const TypeError := Exception("TypeError")
  const ValueError := Exception("ValueError")
  const IndexError := Exception("IndexError")
  const AttributeError := Exception("AttributeError")

  /** The value of an operation, or the exception it raised. */
  datatype Result<+T> = Ok(value: T) | Err(error: Exception) {

    predicate IsFailure() {
      Err?
    }

    function PropagateFailure<U>(): Result<U>
      requires Err?
    {
      Err(error)
    }

    function Extract(): T
      requires Ok?
    {
      value
    }
  }
}
