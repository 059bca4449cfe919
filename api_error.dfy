/**
 * The API-facing error (`ApiError`): an immutable record built from an
 * options record with defaults, copied by the `With*` operations, and
 * serialised to a JSON:API error object under the sanitisation rule.
 */
module ApiErrors {
  import opened Wrappers
  import opened JsonApiTypes
  import opened Decimal
  import opened AppErrors

  /**
   * Any value a caller may hand to the normaliser, the mapper or the
   * collector. The variant stands for the `instanceof` test the source
   * makes: an ApiError, an AppError, any other Error (its message), or
   * anything else (its `String(...)` form).
   */
  datatype Unknown =
    | ApiErr(api: ApiError)
    | AppErr(app: AppError)
    | GenericErr(message: string)
    | Other(repr: string)

  /**
   * A constructed ApiError. `retryable` stands for an own `retryable`
   * property: the class neither declares nor sets one, so every error the
   * constructor builds has it false.
   */
  datatype ApiError = ApiError(
    status: int,
    title: string,
    detail: string,
    code: string,
    source: Option<Source>,
    meta: Option<Meta>,
    id: Option<string>,
    links: Option<Links>,
    isOperational: bool,
    headers: map<string, string>,
    expose: bool,
    cause: Option<Unknown>,
    retryable: bool)

  /** The constructor's options: four required fields, the rest optional. */
  datatype ApiErrorOptions = ApiErrorOptions(
    status: int,
    title: string,
    detail: string,
    code: string,
    source: Option<Source>,
    meta: Option<Meta>,
    id: Option<string>,
    links: Option<Links>,
    headers: Option<map<string, string>>,
    expose: Option<bool>,
    isOperational: Option<bool>,
    cause: Option<Unknown>)

  /** Options holding only the four required fields. */
  function BasicOptions(status: int, title: string, detail: string, code: string): ApiErrorOptions {
    ApiErrorOptions(status, title, detail, code, None, None, None, None, None, None, None, None)
  }

  /**
   * `new ApiError(options)`: the given fields are stored as they are;
   * `isOperational` defaults to true, `headers` to the empty record and
   * `expose` to `status < 500`, and an explicit value always wins.
   */
  function NewApiError(o: ApiErrorOptions): (e: ApiError)
    ensures e.status == o.status && e.title == o.title && e.detail == o.detail && e.code == o.code
    ensures e.source == o.source && e.meta == o.meta && e.id == o.id && e.links == o.links
    ensures e.cause == o.cause
    ensures e.isOperational <==> o.isOperational != Some(false)
    ensures o.headers.None? ==> e.headers == map[]
    ensures o.headers.Some? ==> e.headers == o.headers.value
    ensures o.expose.None? ==> (e.expose <==> o.status < 500)
    ensures o.expose.Some? ==> e.expose == o.expose.value
    ensures !e.retryable
  {
    ApiError(
      o.status, o.title, o.detail, o.code, o.source, o.meta, o.id, o.links,
      o.isOperational.GetOr(true), o.headers.GetOr(map[]), o.expose.GetOr(o.status < 500),
      o.cause, false)
  }

  /**
   * `toOptions()`: the options that rebuild this error. Rebuilding gives back
   * the same error except for `retryable`, which the options cannot carry.
   */
  function ToOptions(e: ApiError): (o: ApiErrorOptions)
    ensures NewApiError(o) == e.(retryable := false)
    ensures o.expose.Some? && o.isOperational.Some? && o.headers.Some?
  {
    ApiErrorOptions(
      e.status, e.title, e.detail, e.code, e.source, e.meta, e.id, e.links,
      Some(e.headers), Some(e.expose), Some(e.isOperational), e.cause)
  }

  /** `withSource(source)`: a copy with only `source` replaced. */
  function WithSource(e: ApiError, source: Option<Source>): (r: ApiError)
    ensures r == e.(source := source, retryable := false)
  {
    NewApiError(ToOptions(e).(source := source))
  }

  /** `withMeta(meta)`: a copy with only `meta` replaced. */
  function WithMeta(e: ApiError, meta: Option<Meta>): (r: ApiError)
    ensures r == e.(meta := meta, retryable := false)
  {
    NewApiError(ToOptions(e).(meta := meta))
  }

  /** `withId(id)`: a copy with only `id` replaced. */
  function WithId(e: ApiError, id: string): (r: ApiError)
    ensures r == e.(id := Some(id), retryable := false)
  {
    NewApiError(ToOptions(e).(id := Some(id)))
  }

  /** `withLinks(links)`: a copy with only `links` replaced. */
  function WithLinks(e: ApiError, links: Links): (r: ApiError)
    ensures r == e.(links := Some(links), retryable := false)
  {
    NewApiError(ToOptions(e).(links := Some(links)))
  }

  /**
   * The sanitise flag of `toObject`: the caller's `sanitize` option when
   * given, otherwise "not exposed, or a server error".
   */
  function ShouldSanitize(e: ApiError, sanitize: Option<bool>): (r: bool)
    ensures sanitize.Some? ==> r == sanitize.value
    ensures sanitize.None? ==> (r <==> !e.expose || e.status >= 500)
  {
    sanitize.GetOr(!e.expose || e.status >= 500)
  }

  /**
   * `toObject(opts)`: the JSON:API error object. Sanitised, it shows only the
   * generic texts and drops source and meta; otherwise it shows the error's
   * own. Status is the decimal text of the code; a non-empty id and any links
   * are shown either way.
   */
  function ToObject(e: ApiError, sanitize: Option<bool>): (r: ErrorObject)
    ensures r.status == Some(DecimalString(e.status))
    ensures ShouldSanitize(e, sanitize) ==> IsSanitizedView(r)
    ensures !ShouldSanitize(e, sanitize) ==>
      && r.title == Some(e.title) && r.detail == Some(e.detail) && r.code == Some(e.code)
      && r.source == e.source && r.meta == e.meta
    ensures r.id == TruthyId(e.id)
    ensures r.links == e.links
  {
    var s := ShouldSanitize(e, sanitize);
    ErrorObject(
      TruthyId(e.id),
      e.links,
      Some(DecimalString(e.status)),
      Some(if s then SanitizedCode else e.code),
      Some(if s then SanitizedTitle else e.title),
      Some(if s then SanitizedDetail else e.detail),
      if s then None else e.source,
      if s then None else e.meta)
  }

  /** `toJsonApi(opts)`: a document whose only error is this error's object. */
  function ToJsonApi(e: ApiError, sanitize: Option<bool>): (d: ErrorDocument)
    ensures |d.errors| == 1
    ensures d.errors[0].status == Some(DecimalString(e.status))
    ensures ShouldSanitize(e, sanitize) ==> IsSanitizedView(d.errors[0])
    ensures d.errors == [ToObject(e, sanitize)]
  {
    ErrorDocument([ToObject(e, sanitize)])
  }

  // ---------------------------------------------------------------------
  // Properties of construction and serialisation

  /** The defaults on a four-field construction: operational, no headers, exposed iff a client error. */
  lemma ConstructionDefaults(status: int, title: string, detail: string, code: string)
    ensures var e := NewApiError(BasicOptions(status, title, detail, code));
      && e.isOperational && e.headers == map[] && (e.expose <==> status < 500)
      && e.source.None? && e.meta.None? && e.id.None? && e.links.None? && e.cause.None?
  {
  }

  /** Every `With*` copy keeps status, texts, flags, headers and cause of the original. */
  lemma WithKeepsEverythingElse(e: ApiError, source: Option<Source>, meta: Option<Meta>, id: string, links: Links)
    ensures forall r <- [WithSource(e, source), WithMeta(e, meta), WithId(e, id), WithLinks(e, links)] ::
      && r.status == e.status && r.title == e.title && r.detail == e.detail && r.code == e.code
      && r.expose == e.expose && r.isOperational == e.isOperational
      && r.headers == e.headers && r.cause == e.cause
  {
  }

  /**
   * Sanitisation hides everything but status, id and links: two errors that
   * agree on those serialise to the same sanitised object, whatever their
   * titles, details, codes, sources, metadata, headers and causes.
   */
  lemma SanitizedViewRevealsNothingElse(e1: ApiError, e2: ApiError, sanitize: Option<bool>)
    requires ShouldSanitize(e1, sanitize) && ShouldSanitize(e2, sanitize)
    requires e1.status == e2.status && e1.id == e2.id && e1.links == e2.links
    ensures ToObject(e1, sanitize) == ToObject(e2, sanitize)
  {
  }

  /** Without an explicit option, a server error or an unexposed error is always sanitised. */
  lemma DefaultSanitisesServerAndHiddenErrors(e: ApiError)
    requires e.status >= 500 || !e.expose
    ensures IsSanitizedView(ToObject(e, None))
  {
  }

  /** An explicit `sanitize` option decides alone, in either direction. */
  lemma ExplicitSanitizeWins(e: ApiError, flag: bool)
    ensures flag ==> IsSanitizedView(ToObject(e, Some(flag)))
    ensures !flag ==> ToObject(e, Some(flag)).detail == Some(e.detail)
    ensures !flag ==> ToObject(e, Some(flag)).source == e.source
  {
  }

  /** The emitted status text reads back as the error's status code. */
  lemma StatusReadsBack(e: ApiError, sanitize: Option<bool>)
    ensures ParseDecimal(ToObject(e, sanitize).status.value) == Some(e.status)
  {
    DecimalRoundTrip(e.status);
  }

  /**
   * An unsanitised object determines the error's client-visible fields: two
   * errors with equal unsanitised objects agree on status, title, detail,
   * code, source, meta and links.
   */
  lemma UnsanitisedObjectDeterminesFields(e1: ApiError, e2: ApiError, sanitize: Option<bool>)
    requires !ShouldSanitize(e1, sanitize) && !ShouldSanitize(e2, sanitize)
    requires ToObject(e1, sanitize) == ToObject(e2, sanitize)
    ensures e1.status == e2.status && e1.title == e2.title && e1.detail == e2.detail
    ensures e1.code == e2.code && e1.source == e2.source && e1.meta == e2.meta && e1.links == e2.links
  {
    DecimalInjective(e1.status, e2.status);
  }
}
