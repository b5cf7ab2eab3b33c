/** Shared vocabulary: failure-compatible wrappers, the exceptions the modelled
    code raises, and numpy's extended reals (bounds and the failure residual use
    +/- infinity). */
module Common {

  datatype Option<T> = None | Some(value: T)

  /** A value, or the exception that replaced it. */
  datatype Result<T> = Ok(value: T) | Err(error: Error)

  /** The outcome of a call that returns nothing but may raise. */
  datatype Outcome = Pass | Fail(error: Error)

  /** One constructor per cause of an exception in the modelled code. */
  datatype Error =
    | NotFitted                        // sklearn's NotFittedError from check_is_fitted
    | MissingAttribute(name: string)   // AttributeError: `X` or `parameters` never assigned
    | PhiMaxTooSmall                   // ValueError: the upper threshold cuts nothing
    | PhiMinTooLarge                   // ValueError: the lower threshold cuts nothing
    | UnknownFitMethod(name: string)   // ValueError: neither derivation nor integration
    | MissingColumn(name: string)      // KeyError on a frame column
    | MissingKey(name: string)         // KeyError on a metadata entry
    | EmptySeries                      // idxmax / iloc[0] / t[0] / argmax of nothing
    | BadArguments                     // TypeError calling a lambdified law
    | SimulationFailed                 // ValueError: the ODE solver reported failure
    | LengthMismatch                   // solver output not one value per requested time
    | IndexOutOfRange                  // a position past the end of a frequency list
    | BoundNotPair(name: string)       // AssertionError: a bound whose length is not 2
    | NotConverged                     // AssertionError: least_squares reported failure
    | SolverRaised                     // an exception raised inside least_squares

  /** A float that may be infinite. */
  datatype Ext = Fin(r: real) | PosInf | NegInf

  /** Observed value minus an estimate, with IEEE rules for a finite minuend. */
  function Minus(y: real, e: Ext): (d: Ext)
    ensures d.Fin? <==> e.Fin?
    ensures d == Fin(0.0) <==> e == Fin(y)
    ensures e == PosInf <==> d == NegInf
    ensures e.Fin? ==> d.Fin? && d.r + e.r == y
  {
    match e
    case Fin(v) => Fin(y - v)
    case PosInf => NegInf
    case NegInf => PosInf
  }

  function Abs(x: real): (a: real)
    ensures a >= 0.0 && (a == x || a == -x)
  {
    if x < 0.0 then -x else x
  }
}
