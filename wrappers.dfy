/** Option and Result, as returned by the session layer's operations. */
module Wrappers {

  datatype Option<T> = None | Some(value: T)

  datatype Result<T, E> = Success(value: T) | Failure(error: E)
}

/** The error kinds that the session layer produces (src/error.rs is not part of this model). */
module RedoErrors {

  datatype RedoError =
    | Usage(message: string)          // a plain error with a message
    | InvalidTarget(target: string)   // RedoErrorKind::InvalidTarget with the offending raw value
    | MalformedDepth(depth: string)   // REDO_DEPTH holds something other than spaces
    | Opaque(reason: string)          // an operating-system failure, wrapped as it is

  /** The outcome of an operating-system call that the model takes as an input. */
  datatype IoResult<T> = IoOk(value: T) | IoErr(reason: string)
}
