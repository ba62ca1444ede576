/** Failure-compatible result type used for every operation that throws in the library. */
module Wrappers {

  datatype Option<+T> = None | Some(value: T)

  datatype Result<+R, +E> = Ok(value: R) | Err(error: E) {
    predicate IsFailure() {
      Err?
    }

    function PropagateFailure<U>(): Result<U, E>
      requires Err?
    {
      Err(error)
    }

    function Extract(): R
      requires Ok?
    {
      value
    }
  }
}

/** The exceptions the library raises, one constructor per failure the caller can observe. */
module Errors {

  datatype Error =
    | DerivativeTooSmall       // NewtonSolver: SystemException "derivative too small"
    | DidNotConverge           // NewtonSolver: SystemException "did not converge"
    | ParityViolation          // implied vol from a put: ArgumentException
    | InvalidParameterRange    // Ssvi.Phi: ArgumentOutOfRangeException
    | UnrecognizedOptionType   // calibrator: CalibrationFailedException; host: ArgumentException
    | InvalidBarrierDirection  // barrier pricer: ArgumentException "D or U"
    | InvalidKnockType         // barrier pricer: ArgumentException "I or O"
    | NoCalibrationData        // calibrator: ArgumentNullException
    | CalibrationFailed        // calibrator: CalibrationFailedException after a bad optimizer run
    | IndexOutOfRange          // IndexOutOfRangeException: path array or SSVI parameter vector
}
