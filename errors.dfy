/** Outcomes shared by every layer of the driver model. */
module Errors {

  datatype Option<T> = None | Some(value: T)

  /** The ways an operation of the driver can fail. */
  datatype Error =
    | EncodingError(width: int)               // a byte width other than 1, 2 or 4
    | ProtocolError(command: int)             // an unknown operation in a command batch
    | TransportError(value: int, index: int)  // a control IN transfer that did not complete
    | BulkError(length: int)                  // a bulk IN transfer that did not complete
    | UnsupportedTuner                        // no R820T answered the probe
    | PllNotLocked                            // the PLL failed to lock during filter calibration

  /** A failure-compatible result, so that `:-` propagates errors like a thrown exception. */
  datatype Result<T> = Ok(value: T) | Err(error: Error) {
    predicate IsFailure() { Err? }

    function PropagateFailure<U>(): Result<U>
      requires Err?
    {
      Err(error)
    }

    function Extract(): T
      requires Ok?
    {
      value
    }
  }
}
