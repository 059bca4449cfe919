/**
 * The formatter module `formatters/json-api`: wraps a single error in a
 * list and emits each error's own `toObject` under the shared option.
 */
module JsonApiFormatter {
  import opened Wrappers
  import opened JsonApiTypes
  import opened ApiErrors
  import FormatJsonApi

  type ErrorInput = FormatJsonApi.ErrorInput

  /** `errors.map((error) => error.toObject(opts))`. */
  function Objects(es: seq<ApiError>, sanitize: Option<bool>): (rs: seq<ErrorObject>)
    ensures |rs| == |es|
    ensures forall i :: 0 <= i < |es| ==> rs[i] == ToObject(es[i], sanitize)
  {
    if es == [] then [] else [ToObject(es[0], sanitize)] + Objects(es[1..], sanitize)
  }

  /** `formatJsonApiErrors(input, opts)`. */
  function FormatJsonApiErrors(input: ErrorInput, sanitize: Option<bool>): (d: ErrorDocument)
    ensures |d.errors| == |FormatJsonApi.AsList(input)|
    ensures forall i :: 0 <= i < |d.errors| ==>
      d.errors[i] == ToObject(FormatJsonApi.AsList(input)[i], sanitize)
  {
    ErrorDocument(Objects(FormatJsonApi.AsList(input), sanitize))
  }

  /** A single error yields the same document as its own `toJsonApi`. */
  lemma SingleMatchesToJsonApi(e: ApiError, sanitize: Option<bool>)
    ensures FormatJsonApiErrors(FormatJsonApi.One(e), sanitize) == ToJsonApi(e, sanitize)
  {
  }

  /** Formatting distributes over concatenation, so order is preserved. */
  lemma ObjectsConcat(a: seq<ApiError>, b: seq<ApiError>, sanitize: Option<bool>)
    ensures Objects(a + b, sanitize) == Objects(a, sanitize) + Objects(b, sanitize)
  {
    var ab, l, r := a + b, Objects(a + b, sanitize), Objects(a, sanitize) + Objects(b, sanitize);
    forall i | 0 <= i < |ab|
      ensures l[i] == r[i]
    {
      if i < |a| {
        assert ab[i] == a[i];
      } else {
        assert ab[i] == b[i - |a|];
      }
    }
  }

  /** `sanitize: true` sanitises every element. */
  lemma ForcedSanitizeCoversAll(input: ErrorInput)
    ensures forall o <- FormatJsonApiErrors(input, Some(true)).errors :: IsSanitizedView(o)
  {
  }

  /**
   * Without an option every element follows its own error's rule: each
   * server or unexposed error is sanitised, each other error is shown as is.
   */
  lemma EachElementFollowsItsOwnRule(es: seq<ApiError>, i: nat)
    requires i < |es|
    ensures var o := FormatJsonApiErrors(FormatJsonApi.Many(es), None).errors[i];
      && ((es[i].status >= 500 || !es[i].expose) ==> IsSanitizedView(o))
      && ((es[i].status < 500 && es[i].expose) ==> o.detail == Some(es[i].detail))
  {
  }
}
