/** Errors of the apperrors package that the filter code can return, and
    the pass/fail outcome of a validation step. */
module AppErrors {

  /** The one error the filter code produces: a `filter` query value that
      is not one of the known content types. */
  datatype AppError = FilterNotFound

  /** Outcome of a validation step: `Pass` stands for Go's `nil` error. */
  datatype Outcome = Pass | Fail(error: AppError)
}
