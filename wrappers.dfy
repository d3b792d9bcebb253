/** Failure-carrying wrappers: the model's stand-in for Python's `None` and raised exceptions. */
module Wrappers {

  /** A value that may be absent (Python's `X | None`). */
  datatype Option<+T> = None | Some(value: T)

  /** The outcome of an operation that either returns a value or raises an error. */
  datatype Result<+T, +E> = Ok(value: T) | Err(error: E)

  /** The Python exception classes the engine raises, each with its message. */
  datatype Exception =
    | ValueError(message: string)
    | KeyError(message: string)
    | TypeError(message: string)
    | RuntimeError(message: string)
    | FileNotFoundError(message: string)
    | ZeroDivisionError(message: string)
    /** Raised by the job scheduler when it is shut down while not running. */
    | SchedulerNotRunningError(message: string)
    /** A value the model does not render: Python's `str()` of a float, a list or a dict. */
    | Unmodelled(message: string)
}
