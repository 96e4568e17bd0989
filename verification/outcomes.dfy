/** Error outcomes of the engine: the Python exceptions the core raises,
    as values. */
module Outcomes {

  datatype Option<+T> = None | Some(value: T)

  datatype Error =
    | PydykitException(reason: string)   // utils.PydykitException
    | AssertionError(reason: string)     // a failed `assert`
    | IndexError                         // indexing out of range
    | ValueError(reason: string)         // numpy refusing an argument
    | KeyError(key: string)              // a missing dictionary entry
    | LinAlgError                        // singular or ill-shaped linear solve
    | CallbackError                      // a system callback raised
    | TypeError(reason: string)          // a call with clashing keyword arguments
    | ZeroDivisionError                  // an integer division or modulo by zero

  datatype Result<+T> = Ok(value: T) | Err(error: Error)

  datatype Outcome = Pass | Fail(error: Error)
}
