/**
 * The domain error kinds of the logging service, and the Result / Outcome
 * datatypes through which operations report them instead of Go's `error`.
 */
module DomainErrors {

  /** One constructor per sentinel error; `Other` is any error the domain does not name. */
  datatype DomainError =
    | LogNotFound
    | InvalidLogEntry
    | InvalidLogLevel
    | InvalidFilter
    | StorageUnavailable
    | AlertServiceUnavailable
    | IdGenerationFailed
    | Unauthorized
    | RateLimitExceeded
    | Other(message: string)

  /** The text `err.Error()` yields. */
  function Message(e: DomainError): string
  {
    match e
    case LogNotFound => "log entry not found"
    case InvalidLogEntry => "invalid log entry"
    case InvalidLogLevel => "invalid log level"
    case InvalidFilter => "invalid filter parameters"
    case StorageUnavailable => "storage unavailable"
    case AlertServiceUnavailable => "alert service unavailable"
    case IdGenerationFailed => "ID generation failed"
    case Unauthorized => "unauthorized access"
    case RateLimitExceeded => "rate limit exceeded"
    case Other(m) => m
  }

  /** A value or the error that replaced it. */
  datatype Result<+T> = Ok(value: T) | Err(error: DomainError)

  /** A Go function that returns only `error`: nil is `Pass`. */
  datatype Outcome = Pass | Fail(error: DomainError)
}
