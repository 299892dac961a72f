/** Shared value types: nullable values, the exceptions the domain throws,
    and the result of an operation that either returns or throws. */
module Common {

  /** A reference or value that may be null. */
  datatype Option<+T> = None | Some(value: T)

  /** The exceptions the modelled code throws, with the parameter name they
      carry. An empty parameter name stands for an exception built without one.
      Exception messages are not modelled. */
  datatype Exception =
    | ArgumentNull(paramName: string)
    | Argument(paramName: string)
    | ArgumentOutOfRange(paramName: string)
    | InvalidOperation
    | NullReference

  /** An operation that returns a value or throws. */
  datatype Result<+T> = Ok(value: T) | Err(error: Exception)

  /** An operation that returns nothing or throws. */
  datatype Outcome = Pass | Fail(error: Exception)

  /** The argument of an `Equals(object? obj)` override: null, an instance of
      the class being compared, or an object of some other class. */
  datatype Object<+T> = Null | Instance(value: T) | Foreign
}
