/** Null-able values, results and the exceptions the library raises. */
module Wrappers {

  /** A value that may be missing; stands for a C# reference or value that may be null. */
  datatype Option<+T> = None | Some(value: T)

  /** The exceptions the modelled code throws on purpose. */
  datatype Error =
    | ArgumentNull(parameter: string)   // ArgumentNullException(nameof(parameter))
    | InvalidOperation(reason: string)  // InvalidOperationException(reason)

  /** Either a returned value or a thrown exception. */
  datatype Result<+R, +E> = Success(value: R) | Failure(error: E)

  /** Either normal completion of a void call or a thrown exception. */
  datatype Outcome<+E> = Pass | Fail(error: E)
}
