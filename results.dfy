/** Option and Result values used by the hypothesis-test engine. */
module Results {

  datatype Option<+T> = None | Some(value: T)

  /** Why a test produced no verdict. In the original program each of these
      cases either ends the computation early or makes the floating-point
      arithmetic produce nan or an infinity. */
  datatype TestError =
    | TooFewObservations   // a sample too short for its mean or its ddof=1 variance
    | LengthMismatch       // paired samples of different lengths
    | ZeroStandardError    // the standard error is zero (or its radicand is not positive)
    | ZeroVariance         // a sample variance of zero in the denominator of the F ratio

  datatype Result<+T> = Success(value: T) | Failure(error: TestError)
}
