/**
 * The JSON:API formatter exported from the package root. It has its own
 * per-error rule: the default sanitise flag is `!expose` alone (no status
 * test), and `links` is never emitted.
 */
module FormatJsonApi {
  import opened Wrappers
  import opened JsonApiTypes
  import opened Decimal
  import opened ApiErrors

  /** `ApiError | ApiError[]`. */
  datatype ErrorInput = One(error: ApiError) | Many(errors: seq<ApiError>)

  /** `Array.isArray(input) ? input : [input]`. */
  function AsList(input: ErrorInput): (s: seq<ApiError>)
    ensures input.One? ==> s == [input.error]
    ensures input.Many? ==> s == input.errors
  {
    match input
    case One(e) => [e]
    case Many(es) => es
  }

  /** This formatter's sanitise flag: the caller's option, otherwise "not exposed". */
  function CoreShouldSanitize(e: ApiError, sanitize: Option<bool>): (r: bool)
    ensures sanitize.Some? ==> r == sanitize.value
    ensures sanitize.None? ==> (r <==> !e.expose)
  {
    sanitize.GetOr(!e.expose)
  }

  /** The object the formatter emits for one error. */
  function CoreObject(e: ApiError, sanitize: Option<bool>): (r: ErrorObject)
    ensures r.status == Some(DecimalString(e.status))
    ensures CoreShouldSanitize(e, sanitize) ==> IsSanitizedView(r)
    ensures !CoreShouldSanitize(e, sanitize) ==>
      && r.title == Some(e.title) && r.detail == Some(e.detail) && r.code == Some(e.code)
      && r.source == e.source && r.meta == e.meta
    ensures r.id == TruthyId(e.id)
    ensures r.links.None?
  {
    var s := CoreShouldSanitize(e, sanitize);
    ErrorObject(
      TruthyId(e.id),
      None,
      Some(DecimalString(e.status)),
      Some(if s then SanitizedCode else e.code),
      Some(if s then SanitizedTitle else e.title),
      Some(if s then SanitizedDetail else e.detail),
      if s then None else e.source,
      if s then None else e.meta)
  }

  /** `errors.map(...)`: one object per error, in order. */
  function CoreObjects(es: seq<ApiError>, sanitize: Option<bool>): (rs: seq<ErrorObject>)
    ensures |rs| == |es|
    ensures forall i :: 0 <= i < |es| ==> rs[i] == CoreObject(es[i], sanitize)
  {
    if es == [] then [] else [CoreObject(es[0], sanitize)] + CoreObjects(es[1..], sanitize)
  }

  /** `formatJsonApiErrors(input, opts)`. */
  function FormatJsonApiErrors(input: ErrorInput, sanitize: Option<bool>): (d: ErrorDocument)
    ensures |d.errors| == |AsList(input)|
    ensures forall i :: 0 <= i < |d.errors| ==> d.errors[i] == CoreObject(AsList(input)[i], sanitize)
    ensures input.One? ==> |d.errors| == 1
  {
    ErrorDocument(CoreObjects(AsList(input), sanitize))
  }

  // ---------------------------------------------------------------------
  // Properties

  /** A single error is formatted exactly like the one-element list holding it. */
  lemma SingleIsOneElementList(e: ApiError, sanitize: Option<bool>)
    ensures FormatJsonApiErrors(One(e), sanitize) == FormatJsonApiErrors(Many([e]), sanitize)
  {
  }

  /** Formatting distributes over concatenation of the input list. */
  lemma FormatConcat(a: seq<ApiError>, b: seq<ApiError>, sanitize: Option<bool>)
    ensures CoreObjects(a + b, sanitize) == CoreObjects(a, sanitize) + CoreObjects(b, sanitize)
  {
    var ab, l, r := a + b, CoreObjects(a + b, sanitize), CoreObjects(a, sanitize) + CoreObjects(b, sanitize);
    forall i | 0 <= i < |ab|
      ensures l[i] == r[i]
    {
      if i < |a| {
        assert ab[i] == a[i];
      } else {
        assert ab[i] == b[i - |a|];
      }
    }
  }

  /** A forced `sanitize: true` sanitises every element. */
  lemma ForcedSanitizeCoversAll(input: ErrorInput)
    ensures forall o <- FormatJsonApiErrors(input, Some(true)).errors :: IsSanitizedView(o)
  {
  }

  /**
   * Below status 500 this formatter and `toObject` agree except that this one
   * drops links.
   */
  lemma AgreesWithToObjectBelow500(e: ApiError, sanitize: Option<bool>)
    requires e.status < 500
    ensures CoreObject(e, sanitize) == ToObject(e, sanitize).(links := None)
  {
  }

  /**
   * At status 500 and above the two disagree when the error is explicitly
   * exposed: `toObject` sanitises, this formatter shows the error's own detail.
   */
  lemma ExposedServerErrorShownHere(e: ApiError)
    requires e.status >= 500 && e.expose
    ensures IsSanitizedView(ToObject(e, None))
    ensures CoreObject(e, None).detail == Some(e.detail)
    ensures CoreObject(e, None).source == e.source
  {
  }
}
