/** `AggregateError`: an ordered bundle of ApiErrors that behaves as one error. */
module AggregateErrors {
  import opened Wrappers
  import opened ApiErrors

  const DefaultMessage: string := "Multiple errors occurred"
  const AggregateName: string := "AggregateError"

  datatype AggregateError = AggregateError(errors: seq<ApiError>, message: string, name: string)

  /** `new AggregateError(errors, message?)`: keeps the list as given; the message has a default. */
  function NewAggregateError(errors: seq<ApiError>, message: Option<string>): (a: AggregateError)
    ensures a.errors == errors
    ensures a.message == (if message.Some? then message.value else DefaultMessage)
    ensures a.name == AggregateName
  {
    AggregateError(errors, message.GetOr(DefaultMessage), AggregateName)
  }

  /** One step of the iterator protocol: the next error, or done. */
  datatype IterStep = Yield(value: ApiError) | Done

  /** `next()` on the iterator positioned at `cursor`, which delegates to the list's own iterator. */
  function Next(a: AggregateError, cursor: nat): (step: IterStep)
    ensures step.Yield? <==> cursor < |a.errors|
    ensures step.Yield? ==> step.value == a.errors[cursor]
  {
    if cursor < |a.errors| then Yield(a.errors[cursor]) else Done
  }

  /** Everything a consumer receives by calling `next()` from `cursor` until done. */
  function Drain(a: AggregateError, cursor: nat): seq<ApiError>
    decreases |a.errors| - cursor
  {
    match Next(a, cursor)
    case Done => []
    case Yield(v) => [v] + Drain(a, cursor + 1)
  }

  lemma {:induction false} DrainFrom(a: AggregateError, cursor: nat)
    requires cursor <= |a.errors|
    ensures Drain(a, cursor) == a.errors[cursor..]
    decreases |a.errors| - cursor
  {
    if cursor < |a.errors| {
      DrainFrom(a, cursor + 1);
    }
  }

  /** Iterating an aggregate yields exactly its errors, in order. */
  lemma IterationYieldsErrors(a: AggregateError)
    ensures Drain(a, 0) == a.errors
  {
    DrainFrom(a, 0);
  }
}
