/**
 * The domain error (`AppError`): an internal failure with a stable code,
 * a developer-facing message and optional metadata. Each concrete subclass
 * fixes `code`; here that constant is the `code` argument of `NewAppError`.
 */
module AppErrors {
  import opened Wrappers
  import opened JsonApiTypes

  datatype AppError = AppError(
    code: string,
    message: string,
    meta: Option<Meta>,
    isOperational: bool)

  /**
   * `new SomeAppError(message, meta?)`: message and meta are kept exactly as
   * passed, and the error is operational.
   */
  function NewAppError(code: string, message: string, meta: Option<Meta>): (a: AppError)
    ensures a.code == code && a.message == message && a.meta == meta
    ensures a.isOperational
  {
    AppError(code, message, meta, true)
  }
}
