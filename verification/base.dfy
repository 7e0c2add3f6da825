/** Optional values, results, and the exceptions the Python code can raise. */
module Base {

  datatype Option<+T> = None | Some(value: T) {

    /** Turns a missing value into the given exception. */
    function ToResult(e: Error): Result<T>
    {
      match this
      case Some(v) => Ok(v)
      case None => Err(e)
    }
  }

  /** Why a `LockError` was raised. */
  datatype LockFault =
    | Corrupt              // the token does not hold a non-negative integer
    | HeldBy(owner: int)   // the token names another process
    | Reentrant            // safe mode saw its own token again
    | TokenMissing         // safe mode found no token to release
    | TimedOut             // every attempt of the retry loop failed

  /** The exceptions that escape the modelled code. */
  datatype Error =
    | LockError(fault: LockFault)
    | ServerError(message: string)
    | KeyError(key: string)
    | TypeError            // subscripting a non-object, or a non-integer section count
    | AttributeError       // `update` called on a non-dict
    | ValueError           // json rejected the text
    | UnicodeDecodeError   // a received chunk is not decodable text
    | AssertionError       // Lock built with a negative timeout
    | IOError              // a file to import is missing
    | ProtocolError        // the client saw an acknowledgement other than "ok"

  /** A value or the exception raised instead; usable with `:-`. */
  datatype Result<+T> = Ok(value: T) | Err(error: Error) {

    predicate IsFailure() {
      Err?
    }

    function PropagateFailure<U>(): Result<U>
      requires Err?
    {
      Err(error)
    }

    function Extract(): T
      requires Ok?
    {
      value
    }
  }
}
