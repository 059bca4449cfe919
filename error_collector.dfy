/**
 * `ErrorCollector`: a single-owner accumulator of normalised errors, with
 * two exits that treat a single error differently — `Throw` hands it over
 * as it is, `ToResult` always wraps the errors in an aggregate.
 */
module ErrorCollectors {
  import opened Wrappers
  import opened Decimal
  import opened ApiErrors
  import opened Normalizer
  import opened AggregateErrors

  /** What `throw()` raises. */
  datatype Thrown = Single(error: ApiError) | Agg(aggregate: AggregateError)

  /** What `toResult(value)` returns. */
  datatype CollectResult<T> = Ok(value: Option<T>) | Failed(error: AggregateError)

  const CountSuffix: string := " errors occurred"

  /**
   * The message `throw()` gives an aggregate of `n` errors: the count in
   * decimal, which reads back as `n`, then the fixed suffix.
   */
  function CountMessage(n: nat): (m: string)
    ensures |m| > |CountSuffix| && m[|m| - |CountSuffix|..] == CountSuffix
    ensures ParseDecimal(m[..|m| - |CountSuffix|]) == Some(n)
  {
    var d := DecimalString(n);
    DecimalRoundTrip(n);
    assert (d + CountSuffix)[..|d|] == d;
    d + CountSuffix
  }

  /** The errors a thrown value carries, in order. */
  function ThrownErrors(t: Thrown): seq<ApiError> {
    match t
    case Single(e) => [e]
    case Agg(a) => a.errors
  }

  /**
   * What `throw()` raises for the collected `errors`: the one error itself
   * when there is exactly one, otherwise (none included) an aggregate of all
   * of them in order, with a message that counts them.
   */
  function ThrowOutcome(errors: seq<ApiError>): (t: Thrown)
    ensures |errors| == 1 ==> t == Single(errors[0])
    ensures |errors| != 1 ==>
      t.Agg? && t.aggregate.errors == errors && t.aggregate.message == CountMessage(|errors|)
  {
    if |errors| == 1 then Single(errors[0])
    else Agg(NewAggregateError(errors, Some(CountMessage(|errors|))))
  }

  /**
   * What `toResult(value)` returns for the collected `errors`: success with
   * the value when there are none, otherwise a failure holding an aggregate
   * of all of them under the default message, even when there is only one.
   */
  function ResultOutcome<T>(errors: seq<ApiError>, value: Option<T>): (r: CollectResult<T>)
    ensures errors == [] <==> r.Ok?
    ensures r.Ok? ==> r.value == value
    ensures r.Failed? ==> r.error.errors == errors && r.error.message == DefaultMessage
  {
    if |errors| > 0 then Failed(NewAggregateError(errors, None)) else Ok(value)
  }

  class ErrorCollector {
    /** The collected errors, oldest first. */
    var errors: seq<ApiError>

    constructor ()
      ensures errors == []
    {
      errors := [];
    }

    /** `add(x)`: normalise `x` and append it; earlier entries are untouched. */
    method Add(x: Unknown)
      modifies this
      ensures errors == old(errors) + [NormalizeError(x)]
    {
      errors := errors + [NormalizeError(x)];
    }

    /** The `hasErrors` getter. */
    method HasErrors() returns (b: bool)
      ensures b <==> |errors| > 0
    {
      b := |errors| > 0;
    }

    /** The `count` getter. */
    method Count() returns (n: nat)
      ensures n == |errors|
    {
      n := |errors|;
    }

    /** The `errors` getter: the collected errors in insertion order. */
    method Errors() returns (s: seq<ApiError>)
      ensures s == errors
    {
      s := errors;
    }

    /** `throw()`, with the raised value returned instead of thrown. */
    method Throw() returns (t: Thrown)
      ensures t == ThrowOutcome(errors)
      ensures |errors| == 1 ==> t == Single(errors[0])
      ensures |errors| != 1 ==> t.Agg? && t.aggregate.errors == errors
    {
      if |errors| == 1 {
        t := Single(errors[0]);
      } else {
        t := Agg(NewAggregateError(errors, Some(CountMessage(|errors|))));
      }
    }

    /** `toResult(value)`. */
    method ToResult<T>(value: Option<T>) returns (r: CollectResult<T>)
      ensures r == ResultOutcome(errors, value)
      ensures r.Failed? ==> r.error.errors == errors
    {
      var has := HasErrors();
      if has {
        r := Failed(NewAggregateError(errors, None));
      } else {
        r := Ok(value);
      }
    }

    /** `clear()`: forget every collected error; the collector stays usable. */
    method Clear()
      modifies this
      ensures errors == []
    {
      errors := [];
    }
  }

  // ---------------------------------------------------------------------
  // Properties of the two exits

  /** `throw()` loses nothing: the raised value carries exactly the collected errors, in order. */
  lemma ThrowCarriesAllErrors(errors: seq<ApiError>)
    ensures ThrownErrors(ThrowOutcome(errors)) == errors
  {
  }

  /**
   * The two exits differ on exactly one collected error: `throw()` raises it
   * alone, `toResult` wraps it in a one-element aggregate.
   */
  lemma ExitsDifferOnSingleError<T>(e: ApiError, value: Option<T>)
    ensures ThrowOutcome([e]) == Single(e)
    ensures ResultOutcome([e], value).Failed? && ResultOutcome([e], value).error.errors == [e]
  {
  }

  /** On two or more errors both exits carry the same aggregate list, only the messages differ. */
  lemma ExitsAgreeOnSeveralErrors<T>(errors: seq<ApiError>, value: Option<T>)
    requires |errors| >= 2
    ensures ThrowOutcome(errors).Agg? && ResultOutcome(errors, value).Failed?
    ensures ThrowOutcome(errors).aggregate.errors == ResultOutcome(errors, value).error.errors
    ensures ParseDecimal(ThrowOutcome(errors).aggregate.message[..|DecimalString(|errors|)|]) == Some(|errors|)
  {
    DecimalRoundTrip(|errors|);
    assert ThrowOutcome(errors).aggregate.message[..|DecimalString(|errors|)|] == DecimalString(|errors|);
  }

  /**
   * The collector's documented use: collect a generic error and an ApiError,
   * throw them as an aggregate, then clear and succeed.
   */
  method CollectTwoThenClear(e: ApiError, message: string)
    returns (count: nat, hadErrors: bool, thrown: Thrown, countAfterClear: nat, afterClear: CollectResult<int>)
    ensures count == 2 && hadErrors
    ensures thrown.Agg? && thrown.aggregate.errors == [NormalizeError(GenericErr(message)), e]
    ensures thrown.aggregate.errors[0].detail == message
    ensures countAfterClear == 0 && afterClear == Ok(Some(7))
  {
    var c := new ErrorCollector();
    c.Add(GenericErr(message));
    c.Add(ApiErr(e));
    count := c.Count();
    hadErrors := c.HasErrors();
    thrown := c.Throw();
    var r := c.ToResult<int>(None);
    assert r.Failed?;
    c.Clear();
    countAfterClear := c.Count();
    afterClear := c.ToResult(Some(7));
  }
}
