/**
 * The HTTP error factories: a fixed table from each named factory to its
 * status, title and default code, and `createHttpError`, which fills in
 * detail and code and passes every other option through.
 */
module HttpErrors {
  import opened Wrappers
  import opened JsonApiTypes
  import opened ApiErrors

  /** The options a factory accepts: everything but status and title, all optional. */
  datatype HttpErrorOptions = HttpErrorOptions(
    detail: Option<string>,
    code: Option<string>,
    source: Option<Source>,
    meta: Option<Meta>,
    id: Option<string>,
    links: Option<Links>,
    headers: Option<map<string, string>>,
    expose: Option<bool>,
    isOperational: Option<bool>,
    cause: Option<Unknown>)

  /** A factory called without options. */
  const NoOptions: HttpErrorOptions :=
    HttpErrorOptions(None, None, None, None, None, None, None, None, None, None)

  /**
   * `createHttpError(status, title, defaultCode, options)`: status and title
   * come from the factory, detail defaults to the title, code to the
   * factory's code, and every other option reaches the constructor unchanged.
   */
  function CreateHttpError(status: int, title: string, defaultCode: string, o: HttpErrorOptions): (e: ApiError)
    ensures e.status == status && e.title == title
    ensures e.detail == (if o.detail.Some? then o.detail.value else title)
    ensures e.code == (if o.code.Some? then o.code.value else defaultCode)
    ensures e.source == o.source && e.meta == o.meta && e.id == o.id && e.links == o.links
    ensures e.cause == o.cause
    ensures o.headers.Some? ==> e.headers == o.headers.value
    ensures o.expose.Some? ==> e.expose == o.expose.value
    ensures o.isOperational.Some? ==> e.isOperational == o.isOperational.value
    ensures o.headers.None? ==> e.headers == map[]
    ensures o.expose.None? ==> (e.expose <==> status < 500)
    ensures o.isOperational.None? ==> e.isOperational
  {
    NewApiError(ApiErrorOptions(
      status, title, o.detail.GetOr(title), o.code.GetOr(defaultCode),
      o.source, o.meta, o.id, o.links, o.headers, o.expose, o.isOperational, o.cause))
  }

  /** The named factories of the `HttpErrors` object (and the identical named exports). */
  datatype HttpErrorKind =
    | BadRequest
    | Unauthorized
    | PaymentRequired
    | Forbidden
    | NotFound
    | MethodNotAllowed
    | NotAcceptable
    | ProxyAuthenticationRequired
    | RequestTimeout
    | Conflict
    | Gone
    | LengthRequired
    | PreconditionFailed
    | PayloadTooLarge
    | UriTooLong
    | UnsupportedMediaType
    | RangeNotSatisfiable
    | ExpectationFailed
    | ImATeapot
    | MisdirectedRequest
    | UnprocessableEntity
    | Locked
    | FailedDependency
    | TooEarly
    | UpgradeRequired
    | PreconditionRequired
    | TooManyRequests
    | RequestHeaderFieldsTooLarge
    | UnavailableForLegalReasons
    | InternalServerError
    | NotImplemented
    | BadGateway
    | ServiceUnavailable
    | GatewayTimeout
    | HttpVersionNotSupported
    | VariantAlsoNegotiates
    | InsufficientStorage
    | LoopDetected
    | NotExtended
    | NetworkAuthenticationRequired

  /** A factory's fixed status, title and default code. */
  datatype HttpStatus = HttpStatus(status: int, title: string, code: string)

  /** The status of each factory. */
  function StatusOf(k: HttpErrorKind): (s: int)
    ensures 400 <= s < 600
  {
    match k
    case BadRequest => 400
    case Unauthorized => 401
    case PaymentRequired => 402
    case Forbidden => 403
    case NotFound => 404
    case MethodNotAllowed => 405
    case NotAcceptable => 406
    case ProxyAuthenticationRequired => 407
    case RequestTimeout => 408
    case Conflict => 409
    case Gone => 410
    case LengthRequired => 411
    case PreconditionFailed => 412
    case PayloadTooLarge => 413
    case UriTooLong => 414
    case UnsupportedMediaType => 415
    case RangeNotSatisfiable => 416
    case ExpectationFailed => 417
    case ImATeapot => 418
    case MisdirectedRequest => 421
    case UnprocessableEntity => 422
    case Locked => 423
    case FailedDependency => 424
    case TooEarly => 425
    case UpgradeRequired => 426
    case PreconditionRequired => 428
    case TooManyRequests => 429
    case RequestHeaderFieldsTooLarge => 431
    case UnavailableForLegalReasons => 451
    case InternalServerError => 500
    case NotImplemented => 501
    case BadGateway => 502
    case ServiceUnavailable => 503
    case GatewayTimeout => 504
    case HttpVersionNotSupported => 505
    case VariantAlsoNegotiates => 506
    case InsufficientStorage => 507
    case LoopDetected => 508
    case NotExtended => 510
    case NetworkAuthenticationRequired => 511
  }

  /** The title of each factory. */
  function TitleOf(k: HttpErrorKind): string {
    match k
    case BadRequest => "Bad Request"
    case Unauthorized => "Unauthorized"
    case PaymentRequired => "Payment Required"
    case Forbidden => "Forbidden"
    case NotFound => "Not Found"
    case MethodNotAllowed => "Method Not Allowed"
    case NotAcceptable => "Not Acceptable"
    case ProxyAuthenticationRequired => "Proxy Authentication Required"
    case RequestTimeout => "Request Timeout"
    case Conflict => "Conflict"
    case Gone => "Gone"
    case LengthRequired => "Length Required"
    case PreconditionFailed => "Precondition Failed"
    case PayloadTooLarge => "Payload Too Large"
    case UriTooLong => "URI Too Long"
    case UnsupportedMediaType => "Unsupported Media Type"
    case RangeNotSatisfiable => "Range Not Satisfiable"
    case ExpectationFailed => "Expectation Failed"
    case ImATeapot => "I'm a teapot"
    case MisdirectedRequest => "Misdirected Request"
    case UnprocessableEntity => "Unprocessable Entity"
    case Locked => "Locked"
    case FailedDependency => "Failed Dependency"
    case TooEarly => "Too Early"
    case UpgradeRequired => "Upgrade Required"
    case PreconditionRequired => "Precondition Required"
    case TooManyRequests => "Too Many Requests"
    case RequestHeaderFieldsTooLarge => "Request Header Fields Too Large"
    case UnavailableForLegalReasons => "Unavailable For Legal Reasons"
    case InternalServerError => "Internal Server Error"
    case NotImplemented => "Not Implemented"
    case BadGateway => "Bad Gateway"
    case ServiceUnavailable => "Service Unavailable"
    case GatewayTimeout => "Gateway Timeout"
    case HttpVersionNotSupported => "HTTP Version Not Supported"
    case VariantAlsoNegotiates => "Variant Also Negotiates"
    case InsufficientStorage => "Insufficient Storage"
    case LoopDetected => "Loop Detected"
    case NotExtended => "Not Extended"
    case NetworkAuthenticationRequired => "Network Authentication Required"
  }

  /** The default code of each factory. */
  function CodeOf(k: HttpErrorKind): string {
    match k
    case BadRequest => "BAD_REQUEST"
    case Unauthorized => "UNAUTHORIZED"
    case PaymentRequired => "PAYMENT_REQUIRED"
    case Forbidden => "FORBIDDEN"
    case NotFound => "NOT_FOUND"
    case MethodNotAllowed => "METHOD_NOT_ALLOWED"
    case NotAcceptable => "NOT_ACCEPTABLE"
    case ProxyAuthenticationRequired => "PROXY_AUTHENTICATION_REQUIRED"
    case RequestTimeout => "REQUEST_TIMEOUT"
    case Conflict => "CONFLICT"
    case Gone => "GONE"
    case LengthRequired => "LENGTH_REQUIRED"
    case PreconditionFailed => "PRECONDITION_FAILED"
    case PayloadTooLarge => "PAYLOAD_TOO_LARGE"
    case UriTooLong => "URI_TOO_LONG"
    case UnsupportedMediaType => "UNSUPPORTED_MEDIA_TYPE"
    case RangeNotSatisfiable => "RANGE_NOT_SATISFIABLE"
    case ExpectationFailed => "EXPECTATION_FAILED"
    case ImATeapot => "IM_A_TEAPOT"
    case MisdirectedRequest => "MISDIRECTED_REQUEST"
    case UnprocessableEntity => "UNPROCESSABLE_ENTITY"
    case Locked => "LOCKED"
    case FailedDependency => "FAILED_DEPENDENCY"
    case TooEarly => "TOO_EARLY"
    case UpgradeRequired => "UPGRADE_REQUIRED"
    case PreconditionRequired => "PRECONDITION_REQUIRED"
    case TooManyRequests => "TOO_MANY_REQUESTS"
    case RequestHeaderFieldsTooLarge => "REQUEST_HEADER_FIELDS_TOO_LARGE"
    case UnavailableForLegalReasons => "UNAVAILABLE_FOR_LEGAL_REASONS"
    case InternalServerError => "INTERNAL_SERVER_ERROR"
    case NotImplemented => "NOT_IMPLEMENTED"
    case BadGateway => "BAD_GATEWAY"
    case ServiceUnavailable => "SERVICE_UNAVAILABLE"
    case GatewayTimeout => "GATEWAY_TIMEOUT"
    case HttpVersionNotSupported => "HTTP_VERSION_NOT_SUPPORTED"
    case VariantAlsoNegotiates => "VARIANT_ALSO_NEGOTIATES"
    case InsufficientStorage => "INSUFFICIENT_STORAGE"
    case LoopDetected => "LOOP_DETECTED"
    case NotExtended => "NOT_EXTENDED"
    case NetworkAuthenticationRequired => "NETWORK_AUTHENTICATION_REQUIRED"
  }

  /** The factory table. */
  function Entry(k: HttpErrorKind): (h: HttpStatus)
    ensures 400 <= h.status < 600
    ensures h.status < 500 <==> StatusOf(k) < 500
  {
    HttpStatus(StatusOf(k), TitleOf(k), CodeOf(k))
  }

  /** The factory whose status is `status`, if any. */
  function KindOfStatus(status: int): Option<HttpErrorKind> {
    if status == 400 then Some(BadRequest)
    else if status == 401 then Some(Unauthorized)
    else if status == 402 then Some(PaymentRequired)
    else if status == 403 then Some(Forbidden)
    else if status == 404 then Some(NotFound)
    else if status == 405 then Some(MethodNotAllowed)
    else if status == 406 then Some(NotAcceptable)
    else if status == 407 then Some(ProxyAuthenticationRequired)
    else if status == 408 then Some(RequestTimeout)
    else if status == 409 then Some(Conflict)
    else if status == 410 then Some(Gone)
    else if status == 411 then Some(LengthRequired)
    else if status == 412 then Some(PreconditionFailed)
    else if status == 413 then Some(PayloadTooLarge)
    else if status == 414 then Some(UriTooLong)
    else if status == 415 then Some(UnsupportedMediaType)
    else if status == 416 then Some(RangeNotSatisfiable)
    else if status == 417 then Some(ExpectationFailed)
    else if status == 418 then Some(ImATeapot)
    else if status == 421 then Some(MisdirectedRequest)
    else if status == 422 then Some(UnprocessableEntity)
    else if status == 423 then Some(Locked)
    else if status == 424 then Some(FailedDependency)
    else if status == 425 then Some(TooEarly)
    else if status == 426 then Some(UpgradeRequired)
    else if status == 428 then Some(PreconditionRequired)
    else if status == 429 then Some(TooManyRequests)
    else if status == 431 then Some(RequestHeaderFieldsTooLarge)
    else if status == 451 then Some(UnavailableForLegalReasons)
    else if status == 500 then Some(InternalServerError)
    else if status == 501 then Some(NotImplemented)
    else if status == 502 then Some(BadGateway)
    else if status == 503 then Some(ServiceUnavailable)
    else if status == 504 then Some(GatewayTimeout)
    else if status == 505 then Some(HttpVersionNotSupported)
    else if status == 506 then Some(VariantAlsoNegotiates)
    else if status == 507 then Some(InsufficientStorage)
    else if status == 508 then Some(LoopDetected)
    else if status == 510 then Some(NotExtended)
    else if status == 511 then Some(NetworkAuthenticationRequired)
    else None
  }

  /** `HttpErrors.k(o)`, equally the named export for `k`. */
  function Create(k: HttpErrorKind, o: HttpErrorOptions): (e: ApiError)
    ensures e.status == Entry(k).status && e.title == Entry(k).title
    ensures e.detail == (if o.detail.Some? then o.detail.value else Entry(k).title)
    ensures e.code == (if o.code.Some? then o.code.value else Entry(k).code)
    ensures e.source == o.source && e.meta == o.meta && e.id == o.id && e.links == o.links
    ensures e.cause == o.cause
    ensures e.headers == (if o.headers.Some? then o.headers.value else map[])
    ensures e.expose == (if o.expose.Some? then o.expose.value else Entry(k).status < 500)
    ensures e.isOperational == (if o.isOperational.Some? then o.isOperational.value else true)
  {
    CreateHttpError(Entry(k).status, Entry(k).title, Entry(k).code, o)
  }

  /** Every factory is a client error (4xx) or a server error (5xx). */
  lemma EntryWellFormed(k: HttpErrorKind)
    ensures 400 <= Entry(k).status < 600
  {
    match k
    case BadRequest =>
    case Unauthorized =>
    case PaymentRequired =>
    case Forbidden =>
    case NotFound =>
    case MethodNotAllowed =>
    case NotAcceptable =>
    case ProxyAuthenticationRequired =>
    case RequestTimeout =>
    case Conflict =>
    case Gone =>
    case LengthRequired =>
    case PreconditionFailed =>
    case PayloadTooLarge =>
    case UriTooLong =>
    case UnsupportedMediaType =>
    case RangeNotSatisfiable =>
    case ExpectationFailed =>
    case ImATeapot =>
    case MisdirectedRequest =>
    case UnprocessableEntity =>
    case Locked =>
    case FailedDependency =>
    case TooEarly =>
    case UpgradeRequired =>
    case PreconditionRequired =>
    case TooManyRequests =>
    case RequestHeaderFieldsTooLarge =>
    case UnavailableForLegalReasons =>
    case InternalServerError =>
    case NotImplemented =>
    case BadGateway =>
    case ServiceUnavailable =>
    case GatewayTimeout =>
    case HttpVersionNotSupported =>
    case VariantAlsoNegotiates =>
    case InsufficientStorage =>
    case LoopDetected =>
    case NotExtended =>
    case NetworkAuthenticationRequired =>
  }

  /** Each status appears once in the table: the status identifies the factory. */
  lemma StatusIdentifiesFactory(k: HttpErrorKind)
    ensures KindOfStatus(Entry(k).status) == Some(k)
  {
    match k
    case BadRequest =>
    case Unauthorized =>
    case PaymentRequired =>
    case Forbidden =>
    case NotFound =>
    case MethodNotAllowed =>
    case NotAcceptable =>
    case ProxyAuthenticationRequired =>
    case RequestTimeout =>
    case Conflict =>
    case Gone =>
    case LengthRequired =>
    case PreconditionFailed =>
    case PayloadTooLarge =>
    case UriTooLong =>
    case UnsupportedMediaType =>
    case RangeNotSatisfiable =>
    case ExpectationFailed =>
    case ImATeapot =>
    case MisdirectedRequest =>
    case UnprocessableEntity =>
    case Locked =>
    case FailedDependency =>
    case TooEarly =>
    case UpgradeRequired =>
    case PreconditionRequired =>
    case TooManyRequests =>
    case RequestHeaderFieldsTooLarge =>
    case UnavailableForLegalReasons =>
    case InternalServerError =>
    case NotImplemented =>
    case BadGateway =>
    case ServiceUnavailable =>
    case GatewayTimeout =>
    case HttpVersionNotSupported =>
    case VariantAlsoNegotiates =>
    case InsufficientStorage =>
    case LoopDetected =>
    case NotExtended =>
    case NetworkAuthenticationRequired =>
  }

  /** Client-error factories expose by default, server-error factories do not. */
  lemma FactoryExposeDefault(k: HttpErrorKind, o: HttpErrorOptions)
    requires o.expose.None?
    ensures Create(k, o).expose <==> Entry(k).status < 500
  {
  }

  /** Some of the table's entries, as listed. */
  lemma TableEntries()
    ensures Entry(NotFound) == HttpStatus(404, "Not Found", "NOT_FOUND")
    ensures Entry(Forbidden).status == 403 && Entry(Unauthorized).status == 401
    ensures Entry(Conflict).status == 409 && Entry(UnprocessableEntity).status == 422
    ensures Entry(InternalServerError) == HttpStatus(500, SanitizedTitle, SanitizedCode)
  {
  }

  /** A factory called without options yields an operational error whose detail is its title. */
  lemma BareFactoryDefaults(k: HttpErrorKind)
    ensures var e := Create(k, NoOptions);
      && e.detail == Entry(k).title && e.code == Entry(k).code && e.isOperational
      && e.headers == map[] && e.meta.None? && e.source.None?
  {
  }

  /** The factory calls of the package's own examples: a custom detail, and a custom code with meta. */
  lemma FactoryKeepsSuppliedOptions(meta: Meta)
    ensures var e := Create(NotFound, NoOptions.(detail := Some("Where?")));
      e.status == 404 && e.title == "Not Found" && e.detail == "Where?" && e.code == "NOT_FOUND"
    ensures var e := Create(BadRequest, NoOptions.(code := Some("CUSTOM_BAD_REQUEST"), meta := Some(meta)));
      e.code == "CUSTOM_BAD_REQUEST" && e.meta == Some(meta) && e.status == 400
    ensures var e := Create(InternalServerError, NoOptions);
      e.status == 500 && !e.expose
  {
  }
}
