/** Optional values, results and the errors the distillation core can raise. */
module Outcomes {

  datatype Option<+T> = None | Some(value: T)

  /** Which construction-time `assert` of a predictor failed. */
  datatype ConfigCheck =
    | StudentSampler
    | TeacherSampler
    | ScaleDirNonNegative
    | ScaleTimeNonNegative
    | NumStepsAtLeastOne

  datatype Error =
    | WrongSolverName(name: string)        // the ValueError of the solver lookup
    | AssertionFailed(check: ConfigCheck)  // an AssertionError in a predictor constructor
    | NegativeDimension                    // a parameter table asked for with a negative size

  datatype Result<+T> = Ok(value: T) | Err(error: Error)
}
