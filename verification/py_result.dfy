/** Failure-compatible wrappers for the Python exceptions the modelled code raises.
    Every operation that can raise returns a `Result`; the `Error` records which
    exception class would have propagated to the caller. */
module PyResult {

  datatype Option<+T> = None | Some(value: T)

  /** The distinct situations in which the modelled code raises `ValueError`. */
  datatype ValueReason =
    | MissingSequenceIdInfo    // a sequence-aware mask was called without sequence metadata
    | MissingPromptFilePrefix  // a prompt path that does not start with `file::`
    | EmptySeparator           // `str.split` called with the empty string as separator

  datatype Error =
    | AssertionError
    | NotImplementedError
    | TypeError
    | KeyError(key: string)
    | IndexError
    | RuntimeError
    | ValueError(reason: ValueReason)
    | FileNotFoundError(path: string)

  datatype Result<+T> = Ok(value: T) | Err(error: Error) {

    predicate IsFailure() {
      Err?
    }

    function PropagateFailure<U>(): Result<U>
      requires Err?
    {
      Err(error)
    }

    function Extract(): T
      requires Ok?
    {
      value
    }
  }
}
