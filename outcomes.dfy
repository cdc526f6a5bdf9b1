/** Failure-carrying results for the pair-counter configuration layer.
    Every `raise PairCounterError(...)` of the source, and the few Python
    errors the source lets escape (an index into an empty edge array, `len(None)`,
    a numpy broadcast that cannot happen), becomes an `Err` naming its cause. */
module Outcomes {

  datatype Option<+T> = None | Some(value: T)

  /** One constructor per distinct failure the configuration layer can report. */
  datatype Error =
    | EmptyEdges                  // `edges[0]` on an empty sequence (IndexError)
    | EdgesDimension              // edge dimensionality does not match the mode
    | BinTypeNotAllowed           // bin type outside lin/custom/auto
    | PositionTypeNotAllowed      // position type not supported for the mode
    | PositionCount               // wrong number of position arrays for the mode
    | PositionSize                // position arrays of different lengths
    | PositionDtype               // position arrays of different element types
    | WeightTypeNotAllowed        // weight type outside None/auto/pair_product
    | Weights2WithoutPositions2   // weights2 given for an autocorrelation
    | Weights2WithoutWeights1     // weights2 given, weights1 missing
    | Weights1WithoutWeights2     // cross-correlation with weights1 only
    | WeightsMissing              // pair_product requested but no weights (len(None))
    | WeightLength                // weight array length differs from catalog size
    | LosNotAllowed               // line of sight outside the allowed list
    | BoxShape                    // box size cannot be broadcast to three sides
    | NegativeDimension           // np.empty with a negative bin count
    | BroadcastMismatch           // numpy cannot broadcast one array onto another
    | RebinFactorCount            // not one rebinning factor per dimension
    | RebinFactorNotDividing      // a factor is not positive or does not divide the bin count
    | LosNotAxis                  // `'xyz'.index(los)` on a non-axis line of sight
    | NoAnalyticSolution          // analytic randoms for an unsupported mode
    | UnknownEngine               // engine name other than corrfunc

  datatype Result<+T> = Ok(value: T) | Err(error: Error) {
    predicate IsFailure() { Err? }
    function PropagateFailure<U>(): Result<U>
      requires Err?
    {
      Err(error)
    }
    function Extract(): T
      requires Ok?
    {
      value
    }
  }

  /** A check that either passes or reports an error (a setter that may raise). */
  datatype Outcome = Pass | Fail(error: Error) {
    predicate IsFailure() { Fail? }
    function PropagateFailure<U>(): Result<U>
      requires Fail?
    {
      Err(error)
    }
  }

  function Need(condition: bool, error: Error): (o: Outcome)
    ensures o.Pass? <==> condition
  {
    if condition then Pass else Fail(error)
  }
}
