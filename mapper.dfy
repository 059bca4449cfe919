/**
 * The mapper built by `createApiErrorMapper(map, opts)`: a first-match chain
 * that passes ApiErrors through, maps AppErrors by their code through the
 * table (or the default mapping), hands anything else to the optional
 * unknown-handler, and otherwise answers with an opaque, non-operational 500.
 * The closure's captured configuration is passed here as parameters.
 */
module Mappers {
  import opened Wrappers
  import opened JsonApiTypes
  import opened AppErrors
  import opened ApiErrors

  /** `Partial<ApiErrorOptions>`: what a mapping's `build` may return. */
  datatype Overrides = Overrides(
    status: Option<int>,
    title: Option<string>,
    detail: Option<string>,
    code: Option<string>,
    source: Option<Source>,
    meta: Option<Meta>,
    id: Option<string>,
    links: Option<Links>,
    headers: Option<map<string, string>>,
    expose: Option<bool>,
    isOperational: Option<bool>,
    cause: Option<Unknown>)

  const NoOverrides: Overrides :=
    Overrides(None, None, None, None, None, None, None, None, None, None, None, None)

  /** The policy for one domain-error code. */
  datatype Mapping = Mapping(
    status: int,
    title: string,
    expose: Option<bool>,
    build: Option<AppError -> Overrides>)

  /** The mapper's optional settings. */
  datatype MapperOptions = MapperOptions(
    defaultMapping: Option<Mapping>,
    unknownHandler: Option<Unknown -> ApiError>)

  /** The default mapping used when none is configured. */
  const FallbackMapping: Mapping := Mapping(400, "Application error", None, None)

  /** `map[err.code] ?? defaultMapping`. */
  function ResolveMapping(table: map<string, Mapping>, opts: MapperOptions, code: string): (m: Mapping)
    ensures code in table ==> m == table[code]
    ensures code !in table && opts.defaultMapping.Some? ==> m == opts.defaultMapping.value
    ensures code !in table && opts.defaultMapping.None? ==> m.status == 400 && m.title == "Application error"
  {
    if code in table then table[code] else opts.defaultMapping.GetOr(FallbackMapping)
  }

  /** `mapping.build?.(err)`, with an absent builder contributing nothing. */
  function Extra(m: Mapping, a: AppError): (x: Overrides)
    ensures m.build.Some? ==> x == m.build.value(a)
    ensures m.build.None? ==> x == NoOverrides
  {
    if m.build.Some? then m.build.value(a) else NoOverrides
  }

  /** The ApiError made from a domain error under mapping `m`. */
  function FromAppError(m: Mapping, a: AppError): (e: ApiError)
    ensures var x := Extra(m, a);
      && e.status == m.status && e.title == m.title
      && e.detail == a.message && e.code == a.code
      && e.meta == (if x.meta.Some? then x.meta else a.meta)
      && e.source == x.source && e.id == x.id && e.cause == x.cause
      && e.links.None?
      && e.headers == (if x.headers.Some? then x.headers.value else map[])
      && e.isOperational == a.isOperational
      && e.expose == (if x.expose.Some? then x.expose.value
                      else if m.expose.Some? then m.expose.value
                      else m.status < 500)
  {
    var x := Extra(m, a);
    NewApiError(ApiErrorOptions(
      m.status, m.title, a.message, a.code,
      x.source,
      if x.meta.Some? then x.meta else a.meta,
      x.id,
      None,
      x.headers,
      if x.expose.Some? then x.expose else m.expose,
      Some(a.isOperational),
      x.cause))
  }

  /** The opaque answer for a value nothing recognises. */
  function UnmappedError(x: Unknown): (e: ApiError)
    ensures e.status == 500 && e.code == SanitizedCode && e.title == SanitizedTitle
    ensures e.detail == SanitizedDetail
    ensures !e.expose && !e.isOperational && e.cause == Some(x)
  {
    NewApiError(BasicOptions(500, SanitizedTitle, SanitizedDetail, SanitizedCode).(
      expose := Some(false), isOperational := Some(false), cause := Some(x)))
  }

  /** `toApiError(err)`: the resolution chain, first match wins. */
  function ToApiError(table: map<string, Mapping>, opts: MapperOptions, x: Unknown): (e: ApiError)
    ensures x.ApiErr? ==> e == x.api
    ensures x.AppErr? ==> e == FromAppError(ResolveMapping(table, opts, x.app.code), x.app)
    ensures (x.GenericErr? || x.Other?) && opts.unknownHandler.Some? ==>
      e == opts.unknownHandler.value(x)
    ensures (x.GenericErr? || x.Other?) && opts.unknownHandler.None? ==>
      && e.status == 500 && e.code == SanitizedCode && !e.expose && !e.isOperational
      && e.cause == Some(x)
  {
    match x
    case ApiErr(api) => api
    case AppErr(app) => FromAppError(ResolveMapping(table, opts, app.code), app)
    case _ => if opts.unknownHandler.Some? then opts.unknownHandler.value(x) else UnmappedError(x)
  }

  // ---------------------------------------------------------------------
  // Properties of the resolution chain

  /** A code present in the table takes that entry's status and title; detail and code come from the domain error. */
  lemma KnownCodeUsesItsMapping(table: map<string, Mapping>, opts: MapperOptions, a: AppError)
    requires a.code in table
    ensures var e := ToApiError(table, opts, AppErr(a));
      && e.status == table[a.code].status && e.title == table[a.code].title
      && e.detail == a.message && e.code == a.code
  {
  }

  /** Without a table entry or a configured default, a domain error becomes a 400 "Application error". */
  lemma UnknownCodeFallsBack(table: map<string, Mapping>, a: AppError)
    requires a.code !in table
    ensures var e := ToApiError(table, MapperOptions(None, None), AppErr(a));
      && e.status == 400 && e.title == "Application error" && e.expose
      && e.detail == a.message && e.code == a.code
  {
  }

  /**
   * A builder's status, title, detail, code, links and isOperational have no
   * effect: two builders that agree on the remaining fields give the same error.
   */
  lemma BuildOnlyContributesItsFields(m1: Mapping, m2: Mapping, a: AppError)
    requires m1.status == m2.status && m1.title == m2.title && m1.expose == m2.expose
    requires var x1, x2 := Extra(m1, a), Extra(m2, a);
      && x1.meta == x2.meta && x1.source == x2.source && x1.headers == x2.headers
      && x1.id == x2.id && x1.expose == x2.expose && x1.cause == x2.cause
    ensures FromAppError(m1, a) == FromAppError(m2, a)
  {
  }

  /** Without a builder, a mapped domain error keeps its own metadata and carries no source, id or cause. */
  lemma NoBuildKeepsDomainMeta(table: map<string, Mapping>, opts: MapperOptions, a: AppError)
    requires ResolveMapping(table, opts, a.code).build.None?
    ensures var e := ToApiError(table, opts, AppErr(a));
      && e.meta == a.meta && e.source.None? && e.id.None? && e.cause.None? && e.headers == map[]
  {
  }

  /** Expose precedence: the builder's flag, then the mapping's, then `status < 500`. */
  lemma ExposePrecedence(m: Mapping, a: AppError)
    ensures Extra(m, a).expose.Some? ==> FromAppError(m, a).expose == Extra(m, a).expose.value
    ensures Extra(m, a).expose.None? && m.expose.Some? ==> FromAppError(m, a).expose == m.expose.value
    ensures Extra(m, a).expose.None? && m.expose.None? ==> (FromAppError(m, a).expose <==> m.status < 500)
  {
  }

  /** A value nothing recognises never reaches the client in any detail. */
  lemma UnmappedNeverLeaks(table: map<string, Mapping>, x: Unknown, sanitize: Option<bool>)
    requires x.GenericErr? || x.Other?
    requires sanitize != Some(false)
    ensures IsSanitizedView(ToObject(ToApiError(table, MapperOptions(None, None), x), sanitize))
  {
  }

  /** An ApiError passes through unchanged, so mapping a mapper's own result changes nothing. */
  lemma PassThroughIsIdentity(table: map<string, Mapping>, opts: MapperOptions, x: Unknown)
    ensures x.ApiErr? ==> ToApiError(table, opts, x) == x.api
    ensures ToApiError(table, opts, ApiErr(ToApiError(table, opts, x))) == ToApiError(table, opts, x)
  {
  }
}
