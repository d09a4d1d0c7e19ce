/** Java null, exceptions and fallible results, as values. */
module Wrappers {

  /** A reference or value that may be Java `null` (None). */
  datatype Option<+T> = None | Some(value: T)

  /** The exceptions the modelled library code raises. */
  datatype Exception =
    | NullPointer(what: string)
    | UnsupportedOperation(operation: string)
    | IndexOutOfBounds(index: int, size: int)

  /** How a call that returns no value ends: normally, or by throwing. */
  datatype Outcome = Normal | Threw(exception: Exception)

  /** How a call that returns a value ends. */
  datatype Result<+T> = Success(value: T) | Failure(exception: Exception)
}
