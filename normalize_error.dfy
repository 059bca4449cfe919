/**
 * `normalizeError`: the total fallback from any thrown value to an ApiError.
 * ApiErrors pass through; every other Error becomes an opaque 500 carrying
 * its message; anything else becomes an "Unknown Error" 500 carrying its
 * text. The input is kept as the cause.
 */
module Normalizer {
  import opened Wrappers
  import opened JsonApiTypes
  import opened ApiErrors

  const UnknownTitle: string := "Unknown Error"
  const UnknownCode: string := "UNKNOWN_ERROR"

  function NormalizeError(x: Unknown): (e: ApiError)
    ensures x.ApiErr? ==> e == x.api
    ensures !x.ApiErr? ==>
      && e.status == 500 && e.cause == Some(x)
      && !e.expose && e.isOperational && e.headers == map[]
      && e.source.None? && e.meta.None? && e.id.None? && e.links.None?
    ensures x.AppErr? ==>
      e.code == SanitizedCode && e.title == SanitizedTitle && e.detail == x.app.message
    ensures x.GenericErr? ==>
      e.code == SanitizedCode && e.title == SanitizedTitle && e.detail == x.message
    ensures x.Other? ==> e.code == UnknownCode && e.title == UnknownTitle && e.detail == x.repr
  {
    match x
    case ApiErr(api) => api
    case AppErr(app) => NewApiError(BasicOptions(500, SanitizedTitle, app.message, SanitizedCode).(cause := Some(x)))
    case GenericErr(message) => NewApiError(BasicOptions(500, SanitizedTitle, message, SanitizedCode).(cause := Some(x)))
    case Other(repr) => NewApiError(BasicOptions(500, UnknownTitle, repr, UnknownCode).(cause := Some(x)))
  }

  /** Normalising an already normalised value changes nothing. */
  lemma NormalizeIdempotent(x: Unknown)
    ensures NormalizeError(ApiErr(NormalizeError(x))) == NormalizeError(x)
  {
  }

  /** Whatever was thrown, if it was not an ApiError its wire form is the sanitised view. */
  lemma NormalizedNeverLeaks(x: Unknown)
    requires !x.ApiErr?
    ensures IsSanitizedView(ToObject(NormalizeError(x), None))
  {
  }
}
