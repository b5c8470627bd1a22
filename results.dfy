/** Nullable references and thrown exceptions of the Java client, as values. */
module Results {

  /** A nullable Java reference: `None` stands for `null`. */
  datatype Option<+T> = None | Some(value: T)

  /** The exception a client operation raises, by its Java exception class. */
  datatype Error =
    | NullPointer(message: string)          // Preconditions.checkNotNull, or dereferencing null
    | MissingLink(rel: string)              // checkNotNull on a link lookup (also a NullPointerException)
    | IllegalArgument(message: string)      // Preconditions.checkArgument
    | UnsupportedOperation(message: string)
    | Remote(detail: string)                // the server or the transport reported a failure

  /** The value an operation returns, or the exception it throws. */
  datatype Result<+T> = Success(value: T) | Failure(error: Error)

  /** A `void` operation: it returns normally or throws. */
  datatype Outcome = Pass | Fail(error: Error)
}
