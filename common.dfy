/** Shared wrappers and the error taxonomy of pulsar_metrics.
    `Error` is every exception the modelled code raises or lets escape: the package's own
    CustomExceptionPulsarMetric (a plain value/message record), black's InvalidInput raised by
    the metric-name checks, and the built-in Python exceptions the code runs into. */
module Common {

  datatype Option<+T> = None | Some(value: T)

  /** Either a value or the exception that was raised instead. */
  datatype Result<+T> = Ok(value: T) | Err(error: Error)

  /** Pass, or the exception raised by a procedure that returns nothing. */
  datatype Outcome = Pass | Fail(error: Error)

  datatype Error =
    | PulsarError(value: Option<string>, message: string)  // CustomExceptionPulsarMetric(value, message)
    | InvalidInput(message: string)                        // black.InvalidInput
    | ValueError(message: string)
    | TypeError                                            // bad comparison, unhashable element, bad unpacking or call
    | KeyError(key: string)                                // a column that is not in the data frame
    | AttributeError(attribute: string)                    // an attribute that was never assigned
    | LibraryError                                         // a failure inside scipy, sklearn or numpy
    | ValidationError(field: string)                       // pydantic's rejection of a record field
}
