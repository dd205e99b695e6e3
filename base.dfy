/** Shared vocabulary of the backend: optional values, the structured error that
    `appAssert` throws (status, message, optional app error code), and the
    HTTP status values the handlers use. */
module Base {

  datatype Option<+T> = None | Some(value: T)

  /** A MongoDB ObjectId. Every table draws its ids from one counter. */
  type Id = nat

  /** A configuration string that `getEnv` accepted: it throws on a missing or empty value. */
  type NonEmptyString = s: string | |s| > 0 witness "k"

  const OK := 200
  const CREATED := 201
  const UNAUTHORIZED := 401
  const NOT_FOUND := 404
  const CONFLICT := 409
  const TOO_MANY_REQUESTS := 429
  const INTERNAL_SERVER_ERROR := 500

  datatype AppErrorCode = InvalidAccessToken

  /** The AppError that a failing `appAssert` throws. */
  datatype AppError = AppError(status: int, message: string, code: Option<AppErrorCode>)

  /** A flow either completes with a value or stops at the first failed guard. */
  datatype Result<+T> = Ok(value: T) | Err(error: AppError)

  /** `appAssert(cond, status, message)` failing, without an app error code. */
  function Fail<T>(status: int, message: string): Result<T>
  {
    Err(AppError(status, message, None))
  }
}

/** The durations the backend works with, in milliseconds. */
module Time {

  const FIVE_MINUTES_MS := 5 * 60 * 1000
  const FIFTEEN_MINUTES_MS := 15 * 60 * 1000
  const ONE_HOUR_MS := 60 * 60 * 1000
  const ONE_DAY_MS := 24 * 60 * 60 * 1000
  const THIRTY_DAYS_MS := 30 * ONE_DAY_MS
  const ONE_YEAR_MS := 365 * ONE_DAY_MS
}
