/** Error kinds and the result type shared by every package of the library
    (errors.go and zfactor.go). Each error value the Go code can return has
    one constructor here; wrapped errors keep their cause. */
module Errors {

  datatype Error =
    // input validation (errors.go)
    | ErrTemp
    | ErrPressure
    | ErrCriticalProp
    | ErrUniversalConst
    | ErrVirialCoeff
    | ErrVolume
    | ErrHighPressureTwoTerm
    | ErrInvalidTr
    // the cubic solver and the saturation iteration
    | NotCubic
    | CubicFailed(cause: Error)
    | NoRealRoots
    | NotConverged
    // Lee-Kesler tables
    | PrOutOfRange
    | TrOutOfRange
    // Lydersen chart
    | LydersenEmpty
    | TrAboveChart
    | TrBelowChart
    | IsothermEmpty
    | PrAboveIsotherm
    | PrBelowIsotherm
    | AtLowerIsotherm(cause: Error)
    | AtHigherIsotherm(cause: Error)
    // Antoine equation
    | TempOutOfRange
    // PV diagram front end
    | ConfigNil
    | ModelMissing
    | InvalidExtension(suggestion: string)
    | SubstanceMismatch
    | DrawFailed(cause: Error)

  /** The (value, error) pair of a Go function: exactly one of the two is meaningful. */
  datatype Result<+T> = Ok(value: T) | Err(error: Error)

  datatype Option<+T> = None | Some(value: T)

  /** The universal gas constant in SI units, J/(mol K). */
  const RSI: real := 8.314

  /** Absolute value over the reals (Go's math.Abs). */
  function Abs(x: real): (r: real)
    ensures r >= 0.0 && (r == x || r == -x)
  {
    if x < 0.0 then -x else x
  }
}
