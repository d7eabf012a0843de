/** Failure outcomes of the "Predict" action. Python raises an exception at the
    first failing step; the handler around the action catches every exception and
    shows it instead of a prediction. Here each step returns a Result instead. */
module Outcome {

  /** The two ways the feature steps can fail. */
  datatype PredictError =
    | ZeroDivision(feature: string)   // ZeroDivisionError while computing this derived feature
    | MissingFeature(name: string)    // KeyError: this schema name is not a key of the feature map

  datatype Result<T> = Ok(value: T) | Err(error: PredictError)
}
