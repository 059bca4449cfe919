/** Helpers over thrown values: retryability and the operational/programmer split. */
module Utils {
  import opened Wrappers
  import opened ApiErrors
  import opened Normalizer

  /** The statuses a client may retry on: 429, 502, 503 and 504. */
  const RetryableStatuses: seq<int> := [429, 502, 503, 504]

  /** `isRetryable(error)`: only an ApiError can be retryable, by flag or by status. */
  function IsRetryable(x: Unknown): (r: bool)
    ensures !x.ApiErr? ==> !r
    ensures x.ApiErr? ==>
      (r <==> x.api.retryable || x.api.status == 429 || x.api.status == 502
                              || x.api.status == 503 || x.api.status == 504)
  {
    match x
    case ApiErr(e) => e.retryable || e.status in RetryableStatuses
    case _ => false
  }

  datatype Category = Operational | Programmer

  /** `classify(error)`: the category of the normalised error. */
  function Classify(x: Unknown): (c: Category)
    ensures c == Operational <==> NormalizeError(x).isOperational
  {
    if NormalizeError(x).isOperational then Operational else Programmer
  }

  /**
   * The constructor never sets `retryable`, so on a constructed ApiError the
   * test reduces to the status set.
   */
  lemma ConstructedRetryableIffStatus(o: ApiErrorOptions)
    ensures IsRetryable(ApiErr(NewApiError(o))) <==> o.status in RetryableStatuses
  {
  }

  /** A plain 400 is not retryable, and neither is a 500. */
  lemma ClientAndServerErrorsNotRetryable(title: string, detail: string, code: string)
    ensures !IsRetryable(ApiErr(NewApiError(BasicOptions(400, title, detail, code))))
    ensures !IsRetryable(ApiErr(NewApiError(BasicOptions(500, title, detail, code))))
  {
  }

  /** Everything that is not an ApiError classifies as operational. */
  lemma NonApiErrorsAreOperational(x: Unknown)
    requires !x.ApiErr?
    ensures Classify(x) == Operational
  {
  }

  /** An ApiError classifies by its own flag. */
  lemma ApiErrorClassifiedByFlag(e: ApiError)
    ensures Classify(ApiErr(e)) == Programmer <==> !e.isOperational
  {
  }
}
