/** The outcome of an operation that raises an exception on bad input:
    the value it returns, or the message it raises. */
module Wrappers {
  datatype Result<T> = Success(value: T) | Failure(error: string)
}
