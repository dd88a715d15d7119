/** Error values and the failure-compatible wrappers every engine returns.

    The engines return `(value, error)` pairs; here an engine returns a
    `Result`, and the error is one of the kinds below. The kinds follow the
    messages the engines produce; their text is not modelled. */
module Outcomes {

  datatype Error =
    | EmptyDataset                                  // "dataset is empty"
    | NonPositivePeriod                             // "period(s) must be greater than 0"
    | PeriodExceedsLength(period: int, length: int) // "period (%d) cannot be greater than dataset length (%d)"
    | PeriodNotBelowLength(period: int, length: int)// "period (%d) must be less than dataset length (%d)"
    | NonPositiveMultiplier                         // "multiplier must be greater than 0"
    | FastNotBelowSlow                              // "fast period must be less than slow period"
    | InsufficientCrossoverData                     // "insufficient data for crossover analysis"
    | InsufficientSqueezeData                       // "insufficient data for squeeze analysis"
    | InsufficientVolumeData(maxPeriod: int)        // "insufficient data: need more than %d candles"
    | AtPeriod(period: int, cause: Error)           // "error calculating SMA-%d: %w"

  datatype Option<+T> = None | Some(value: T)

  datatype Result<+T> = Ok(value: T) | Err(error: Error) {
    predicate IsFailure() {
      Err?
    }

    function PropagateFailure<U>(): Result<U>
      requires Err?
    {
      Err(error)
    }

    function Extract(): T
      requires Ok?
    {
      value
    }

    /** The value a Go caller sees when it discards the error: `None` stands
        for the zero value. */
    function ToOption(): (o: Option<T>)
      ensures o.Some? <==> Ok?
    {
      match this
      case Ok(v) => Some(v)
      case Err(_) => None
    }
  }
}
