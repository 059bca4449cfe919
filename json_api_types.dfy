/**
 * The JSON:API wire shapes: the error object and the error document, with
 * every optional key an `Option`. `meta` and the free-form part of `source`
 * are open records whose values are kept opaque (as their text).
 */
module JsonApiTypes {
  import opened Wrappers

  /** Non-standard meta-information: an open string-keyed record. */
  type Meta = map<string, string>

  /** References to the part of the request that caused the error. */
  datatype Source = Source(
    pointer: Option<string>,
    parameter: Option<string>,
    header: Option<string>,
    extra: map<string, string>)

  /** Links to further information; `typeLink` is the JSON:API `type` member. */
  datatype Links = Links(about: Option<string>, typeLink: Option<string>)

  /** A JSON:API error object; an absent key is `None`. */
  datatype ErrorObject = ErrorObject(
    id: Option<string>,
    links: Option<Links>,
    status: Option<string>,
    code: Option<string>,
    title: Option<string>,
    detail: Option<string>,
    source: Option<Source>,
    meta: Option<Meta>)

  /** A JSON:API error document. */
  datatype ErrorDocument = ErrorDocument(errors: seq<ErrorObject>)

  /** The generic texts that replace an error's own when it is sanitised. */
  const SanitizedTitle: string := "Internal Server Error"
  const SanitizedDetail: string := "An unexpected error occurred on the server."
  const SanitizedCode: string := "INTERNAL_SERVER_ERROR"

  /** The client-safe view: generic title, detail and code, and no source or meta key. */
  predicate IsSanitizedView(o: ErrorObject) {
    && o.title == Some(SanitizedTitle)
    && o.detail == Some(SanitizedDetail)
    && o.code == Some(SanitizedCode)
    && o.source.None?
    && o.meta.None?
  }

  /** JavaScript truthiness of an optional id: present and not the empty string. */
  function TruthyId(id: Option<string>): Option<string> {
    if id.Some? && id.value != "" then id else None
  }
}
