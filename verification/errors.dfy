/** The error kinds a running application can raise. */
module AppErrors {

  /** `AppError` is the marker exception for expected, user-facing failures
      (`CliAppException`); `Fault` stands for every other exception, which the
      application does not handle. Both carry their message. */
  datatype Err = AppError(msg: string) | Fault(msg: string)

  /** True of the errors an entry point is meant to catch and report. */
  predicate IsExpected(e: Err) {
    e.AppError?
  }
}
