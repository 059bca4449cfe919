# japi-errors: the error model and transformation pipeline, in Dafny

This project models the core of the `japi-errors` TypeScript library. The library gives a server
one way to represent errors, turn domain failures into client-facing errors, and serialise those
errors as JSON:API error documents without leaking internals. The model covers:

- **ApiError** (`ApiErrors`): an immutable record. The constructor fills in defaults: operational,
  no headers, and exposed iff `status < 500`. The `With*` copies replace one field each.
  `ToObject` and `ToJsonApi` emit the JSON:API error object and document under the sanitisation
  rule.
- **AppError** (`AppErrors`): the domain error. It holds a code, a message and optional
  metadata, and it is operational.
- **AggregateError** (`AggregateErrors`): an ordered bundle of ApiErrors, with its iterator.
- **Normalizer** (`Normalizer`): the total fallback from any thrown value to an ApiError.
- **Mapper** (`Mappers`): the first-match resolution chain. An ApiError passes through. An
  AppError goes through the code table (or the default mapping) and an optional `build`.
  Anything else goes to the unknown-handler, or becomes an opaque, non-operational 500.
- **ErrorCollector** (`ErrorCollectors`): a class whose `errors` sequence `Add` appends to and
  `Clear` resets. `Throw` raises a single error alone and several as an aggregate. `ToResult`
  always wraps the errors in an aggregate.
- **Formatters**: the formatter exported from the package root (`FormatJsonApi`) and the one in
  `formatters/json-api` (`JsonApiFormatter`).
- **Utilities** (`Utils`): `IsRetryable` and `Classify`.
- **HTTP factories** (`HttpErrors`): the status, title and code table, and the defaulting rule of
  `createHttpError`.

A thrown value of unknown type is the datatype `Unknown`:

- `ApiErr` for an ApiError.
- `AppErr` for an AppError.
- `GenericErr(message)` for any other `Error`.
- `Other(repr)` for anything else, carried as its `String(...)` text.

The variant tag stands for the `instanceof` tests in the source. Exceptions become return values:
`Throw` returns `Thrown = Single(ApiError) | Agg(AggregateError)`. An optional JavaScript key is
an `Option`, and `??` is `GetOr`. `String(status)` is `Decimal.DecimalString`, and a parser proved
to invert it sits beside it. This matches JavaScript's `String` on integral numbers below 1e21 in
magnitude (see "## Left out").

### Where the code and the design disagree (the model follows the code)

- `isRetryable` reads `error.retryable` (src/utils/index.ts:12). The ApiError class neither
  declares nor sets that property (src/core/api-error.ts:12-71).
  - The model gives `ApiError` a `retryable` field. The constructor sets it to false, and the
    `With*` copies reset it, because `toOptions` does not carry it.
  - On every constructed error the test therefore reduces to the status set
    (`Utils.ConstructedRetryableIffStatus`).
  - tests/utils.test.ts:7-16 passes `retryable: true` to the constructor and expects a retryable
    500. The code as written answers false.
- The mapper never passes `build`'s `links` to the new error (src/core/mapper.ts:32-44), although
  the design lists links among the override's fields.
- The formatter exported from the package root (src/core/format-jsonapi.ts:24) sanitises by
  default on `!expose` alone and never emits `links`.
  - `toObject` also sanitises every status ≥ 500 and emits links (src/core/api-error.ts:125,136).
  - `FormatJsonApi.ExposedServerErrorShownHere` proves that an explicitly exposed 500 shows its
    own detail through the first formatter.
- src/formatters/json-api.ts:23 calls `toJsonApiObject`, which the class does not define. It is
  modelled as `toObject`.
- `throw()` with no collected errors raises an empty AggregateError with message
  "0 errors occurred" (src/core/error-collector.ts:50). The design calls that case a logic error.
- The mapper has no adapter list, and its result is always one ApiError (src/core/mapper.ts:13-18).

## Model

| member | source | states |
|---|---|---|
| `Decimal.DecimalString` | src/core/api-error.ts:131 | the status text is non-empty, starts with `-` exactly for a negative status, and is plain digits otherwise; the same rendering serves src/core/format-jsonapi.ts:31 and the count in src/core/error-collector.ts:50 |
| `Decimal.DecimalRoundTrip` | src/core/api-error.ts:131 | the decimal text emitted for a status parses back to exactly that integer, negatives included |
| `Decimal.DecimalInjective` | src/core/api-error.ts:131 | distinct statuses are emitted as distinct texts |
| `AppErrors.NewAppError` | src/core/app-error.ts:7-20 | message and meta are kept exactly as passed (meta absent when not supplied), the code is the variant's fixed code, and the error is operational |
| `ApiErrors.NewApiError` | src/core/api-error.ts:56-71 | required fields and source/meta/id/links/cause are stored as given; isOperational is true unless explicitly false; headers default to empty; expose defaults to `status < 500`, and an explicit expose wins |
| `ApiErrors.ToOptions` | src/core/api-error.ts:104-119 | constructing from the options gives back the same error, except for the retryable property, which the options cannot carry |
| `ApiErrors.WithSource` | src/core/api-error.ts:76-78 | the copy equals the original with only source replaced |
| `ApiErrors.WithMeta` | src/core/api-error.ts:83-85 | the copy equals the original with only meta replaced |
| `ApiErrors.WithId` | src/core/api-error.ts:90-92 | the copy equals the original with only id replaced |
| `ApiErrors.WithLinks` | src/core/api-error.ts:97-99 | the copy equals the original with only links replaced |
| `ApiErrors.ShouldSanitize` | src/core/api-error.ts:125 | an explicit sanitize option decides; without one, sanitise exactly when the error is not exposed or its status is 500 or above |
| `ApiErrors.ToObject` | src/core/api-error.ts:124-140 | status is the decimal text of the code. When the sanitise flag (the explicit option, else `!expose` or `status >= 500`) holds, the object is the generic view with no source or meta key; otherwise it shows the error's title, detail, code, source and meta. A non-empty id and any links are shown either way |
| `ApiErrors.ToJsonApi` | src/core/api-error.ts:149-153 | the document has exactly one error, the error's own object under the same option |
| `ApiErrors.ConstructionDefaults` | src/core/api-error.ts:68-70 | a four-field construction is operational, has no headers, and is exposed iff its status is below 500 |
| `ApiErrors.WithKeepsEverythingElse` | src/core/api-error.ts:76-119 | every `With*` copy keeps status, title, detail, code, expose, isOperational, headers and cause |
| `ApiErrors.SanitizedViewRevealsNothingElse` | src/core/api-error.ts:125-138 | two sanitised errors that agree on status, id and links have identical objects, so title, detail, code, source, meta, headers and cause cannot leak |
| `ApiErrors.DefaultSanitisesServerAndHiddenErrors` | src/core/api-error.ts:125-128 | without an option, every error with status ≥ 500 or expose false serialises to the generic view |
| `ApiErrors.ExplicitSanitizeWins` | src/core/api-error.ts:125 | an explicit `sanitize: true` sanitises and `sanitize: false` shows detail and source, whatever the status and expose |
| `ApiErrors.StatusReadsBack` | src/core/api-error.ts:131 | the emitted status text reads back as the error's status |
| `ApiErrors.UnsanitisedObjectDeterminesFields` | src/core/api-error.ts:130-139 | two unsanitised errors with the same object agree on status, title, detail, code, source, meta and links |
| `Normalizer.NormalizeError` | src/utils/normalize-error.ts:6-28 | an ApiError is returned unchanged. Any other Error gives a 500 INTERNAL_SERVER_ERROR "Internal Server Error" with its message as detail. Anything else gives a 500 UNKNOWN_ERROR "Unknown Error" with its text as detail. Every non-ApiError result keeps the input as cause, is unexposed and operational, and has no headers, source, meta, id or links |
| `Normalizer.NormalizeIdempotent` | src/utils/normalize-error.ts:7-9 | normalising a normalised value changes nothing |
| `Normalizer.NormalizedNeverLeaks` | src/utils/normalize-error.ts:11-27 | the wire form of any normalised non-ApiError is the generic sanitised view |
| `AggregateErrors.NewAggregateError` | src/core/aggregate-error.ts:9-14 | errors are the given list in the same order; the message defaults to "Multiple errors occurred"; the name is "AggregateError" |
| `AggregateErrors.Next` | src/core/aggregate-error.ts:19-21 | the iterator yields the error at the cursor while one remains, and is done exactly when none does |
| `AggregateErrors.DrainFrom` | src/core/aggregate-error.ts:19-21 | iterating from any cursor yields exactly the remaining errors in order |
| `AggregateErrors.IterationYieldsErrors` | src/core/aggregate-error.ts:19-21 | iterating an aggregate yields exactly its errors, in order |
| `Mappers.ResolveMapping` | src/core/mapper.ts:20-29 | a code in the table gets its entry; otherwise the configured default; otherwise status 400 "Application error" |
| `Mappers.Extra` | src/core/mapper.ts:30 | the overrides are build's result on the domain error when build is configured, else none at all |
| `Mappers.FromAppError` | src/core/mapper.ts:28-45 | status and title come from the mapping, detail and code from the domain error. Meta is build's meta, else the domain error's. Source, id, cause and headers come only from build. Links are absent. isOperational is copied from the domain error. Expose is build's, else the mapping's, else `status < 500` |
| `Mappers.UnmappedError` | src/core/mapper.ts:49-57 | the fallback is a 500 INTERNAL_SERVER_ERROR with the generic title and detail, unexposed, non-operational, with the input as cause |
| `Mappers.ToApiError` | src/core/mapper.ts:25-58 | first match wins: an ApiError is returned unchanged, an AppError is mapped by its resolved mapping, and anything else returns exactly the unknown-handler's result when one is configured, else the opaque 500 with the input as cause |
| `Mappers.KnownCodeUsesItsMapping` | src/core/mapper.ts:29-36 | a code in the table yields that entry's status and title, the domain message as detail, and the domain code |
| `Mappers.UnknownCodeFallsBack` | src/core/mapper.ts:20-29 | with no entry and no configured default, the result is an exposed 400 "Application error" with the domain message and code |
| `Mappers.BuildOnlyContributesItsFields` | src/core/mapper.ts:30-44 | build's status, title, detail, code, links and isOperational have no effect on the result |
| `Mappers.NoBuildKeepsDomainMeta` | src/core/mapper.ts:30-43 | without build the result keeps the domain meta and has no source, id, cause or headers |
| `Mappers.ExposePrecedence` | src/core/mapper.ts:41 | expose is build's flag, else the mapping's, else `status < 500` |
| `Mappers.UnmappedNeverLeaks` | src/core/mapper.ts:47-57 | with no handler, an unrecognised value serialises to the generic view unless sanitising is explicitly turned off |
| `Mappers.PassThroughIsIdentity` | src/core/mapper.ts:26 | an ApiError is returned as is, so mapping the mapper's own result changes nothing |
| `ErrorCollectors.CountMessage` | src/core/error-collector.ts:50 | the aggregate message ends in " errors occurred" and what precedes it reads back as the count |
| `ErrorCollectors.ThrowOutcome` | src/core/error-collector.ts:45-51 | exactly one error is raised as itself; any other count, zero included, raises an aggregate of all errors in order with message "N errors occurred" |
| `ErrorCollectors.ResultOutcome` | src/core/error-collector.ts:56-61 | success with the given value iff nothing was collected; otherwise an aggregate of all errors under the default message, even for one error |
| `ErrorCollectors.ErrorCollector.constructor` | src/core/error-collector.ts:9 | a new collector holds no errors |
| `ErrorCollectors.ErrorCollector.Add` | src/core/error-collector.ts:15-17 | the normalised input is appended at the end and earlier entries are unchanged |
| `ErrorCollectors.ErrorCollector.HasErrors` | src/core/error-collector.ts:22-24 | true iff the count is positive; nothing changes |
| `ErrorCollectors.ErrorCollector.Count` | src/core/error-collector.ts:29-31 | the number of collected errors; nothing changes |
| `ErrorCollectors.ErrorCollector.Errors` | src/core/error-collector.ts:36-38 | the collected errors in insertion order; nothing changes |
| `ErrorCollectors.ErrorCollector.Throw` | src/core/error-collector.ts:45-51 | raises what `ThrowOutcome` states for the current errors; nothing changes |
| `ErrorCollectors.ErrorCollector.ToResult` | src/core/error-collector.ts:56-61 | returns what `ResultOutcome` states for the current errors; nothing changes |
| `ErrorCollectors.ErrorCollector.Clear` | src/core/error-collector.ts:66-68 | afterwards no errors are held and the collector is usable again |
| `ErrorCollectors.ThrowCarriesAllErrors` | src/core/error-collector.ts:45-51 | the raised value carries exactly the collected errors, in order, for every count |
| `ErrorCollectors.ExitsDifferOnSingleError` | src/core/error-collector.ts:45-61 | for one error, `throw` raises it alone while `toResult` wraps it in a one-element aggregate |
| `ErrorCollectors.CollectTwoThenClear` | tests/error-collector.test.ts:7-39 | after adding a generic error and an ApiError the count is 2 and errors are present; throwing raises an aggregate of the normalised generic error (its message as detail) and the ApiError, in order; after clear the count is 0 and toResult succeeds with its value |
| `ErrorCollectors.ExitsAgreeOnSeveralErrors` | src/core/error-collector.ts:50-58 | for two or more errors both exits carry the same list, and the thrown message starts with the count in decimal |
| `FormatJsonApi.AsList` | src/core/format-jsonapi.ts:20 | a single error becomes a one-element list; a list is kept as is |
| `FormatJsonApi.CoreShouldSanitize` | src/core/format-jsonapi.ts:24 | an explicit sanitize option decides; without one, sanitise exactly when the error is not exposed, whatever its status |
| `FormatJsonApi.CoreObject` | src/core/format-jsonapi.ts:23-39 | status is the decimal text. When the flag (the explicit option, else `!expose`, with no status test) holds, the object is the generic view with no source or meta; otherwise it shows the error's own fields. links is never emitted; a non-empty id always is |
| `FormatJsonApi.CoreObjects` | src/core/format-jsonapi.ts:23 | one object per input error, element i from input i |
| `FormatJsonApi.FormatJsonApiErrors` | src/core/format-jsonapi.ts:16-41 | the document has one element per input error, in order, each that error's object; a single error gives one element |
| `FormatJsonApi.SingleIsOneElementList` | src/core/format-jsonapi.ts:20 | a single error is formatted exactly as the one-element list holding it |
| `FormatJsonApi.FormatConcat` | src/core/format-jsonapi.ts:22-23 | formatting a concatenation is the concatenation of the formattings |
| `FormatJsonApi.ForcedSanitizeCoversAll` | src/core/format-jsonapi.ts:24 | `sanitize: true` sanitises every element |
| `FormatJsonApi.AgreesWithToObjectBelow500` | src/core/format-jsonapi.ts:24-38 | below status 500 this formatter's object is `toObject`'s without links |
| `FormatJsonApi.ExposedServerErrorShownHere` | src/core/format-jsonapi.ts:24 | an explicitly exposed server error is sanitised by `toObject` but shown with its own detail and source here |
| `JsonApiFormatter.Objects` | src/formatters/json-api.ts:23 | one object per error, element i being error i's own `toObject` under the shared option |
| `JsonApiFormatter.FormatJsonApiErrors` | src/formatters/json-api.ts:16-25 | the document has one element per input error, in order, each that error's own object |
| `JsonApiFormatter.SingleMatchesToJsonApi` | src/formatters/json-api.ts:20-23 | a single error gives the same document as its own `toJsonApi` |
| `JsonApiFormatter.ObjectsConcat` | src/formatters/json-api.ts:23 | formatting a concatenation is the concatenation of the formattings |
| `JsonApiFormatter.ForcedSanitizeCoversAll` | src/formatters/json-api.ts:23 | `sanitize: true` sanitises every element |
| `JsonApiFormatter.EachElementFollowsItsOwnRule` | src/formatters/json-api.ts:23 | without an option each element is sanitised iff its own error is a server error or unexposed |
| `Utils.IsRetryable` | src/utils/index.ts:10-15 | false for anything but an ApiError; for an ApiError, true iff its retryable flag is set or its status is 429, 502, 503 or 504 |
| `Utils.Classify` | src/utils/index.ts:21-24 | "operational" iff the normalised error is operational |
| `Utils.ConstructedRetryableIffStatus` | src/utils/index.ts:12 | a constructed ApiError is retryable iff its status is in the retryable set |
| `Utils.ClientAndServerErrorsNotRetryable` | src/utils/index.ts:12 | plain 400 and 500 errors are not retryable |
| `Utils.NonApiErrorsAreOperational` | src/utils/index.ts:21-24 | every non-ApiError value classifies as operational |
| `Utils.ApiErrorClassifiedByFlag` | src/utils/index.ts:21-24 | an ApiError is "programmer" iff its isOperational is false |
| `HttpErrors.CreateHttpError` | src/http/http-errors.ts:12-25 | status and title come from the factory. detail defaults to the title and code to the factory's code. Source, meta, id, links, headers, expose, isOperational and cause pass through. Unsupplied ones take the constructor's defaults |
| `HttpErrors.EntryWellFormed` | src/http/http-errors.ts:30-101 | every factory in the table is a 4xx or 5xx status |
| `HttpErrors.StatusOf` | src/http/http-errors.ts:32-100 | every factory's status is a 4xx or 5xx code |
| `HttpErrors.Entry` | src/http/http-errors.ts:32-100 | a factory's table row (status, title, code) has a 4xx or 5xx status |
| `HttpErrors.Create` | src/http/http-errors.ts:32-100 | a factory's error has the factory's status and title. Detail is the supplied detail, else the title; code is the supplied code, else the factory's code. Source, meta, id, links and cause pass through; headers default to empty, expose to `status < 500`, isOperational to true |
| `HttpErrors.StatusIdentifiesFactory` | src/http/http-errors.ts:32-100 | no status appears twice in the table |
| `HttpErrors.FactoryExposeDefault` | src/http/http-errors.ts:32-100 | without an explicit expose, 4xx factories expose and 5xx factories do not |
| `HttpErrors.TableEntries` | src/http/http-errors.ts:33-83 | notFound is (404, "Not Found", NOT_FOUND); forbidden 403, unauthorized 401, conflict 409, unprocessableEntity 422; internalServerError is (500, "Internal Server Error", INTERNAL_SERVER_ERROR) |
| `HttpErrors.FactoryKeepsSuppliedOptions` | tests/http-errors.test.ts:6-28 | notFound with a detail keeps it next to 404, "Not Found", NOT_FOUND; badRequest keeps a custom code and meta; internalServerError is an unexposed 500 |
| `HttpErrors.BareFactoryDefaults` | src/http/http-errors.ts:16-24 | a factory called without options is operational, has no headers, meta or source, and uses its title as detail and its code as code |

## Left out

- `formatProblemDetails` (src/formatters/problem-details.ts) only calls `toProblemDetails`. The
  ApiError class does not define that method, so there is no behaviour to model.
- The type guards of src/http/type-guards.ts are `instanceof`/`typeof` tests. The tag of
  `Unknown` replaces them.
- Module re-exports (src/index.ts) and build configuration are not modelled. The named exports
  `BadRequest` … `NetworkAuthenticationRequired` (src/http/http-errors.ts:105-189) each only call
  their `HttpErrors` counterpart, so both are the single function `HttpErrors.Create`.
- JavaScript `Error` mechanics are not modelled: `super`, `Object.setPrototypeOf` and stack traces.
  ApiError's `message` (set to `detail`, src/core/api-error.ts:57) and the `name` of both classes
  are not modelled. AppError's `message` is a field. `cause` is an opaque optional field.
- `String(x)` for a non-Error value is the text carried in `Other`. A non-ApiError,
  non-AppError `Error` (an AggregateError included) is `GenericErr` with its message.
- `meta` and the open part of `source` are string-keyed records with opaque text values. JSON
  encoding is not modelled.
- JavaScript truthiness is reduced to "present" for objects and "present and non-empty" for `id`.
- An option key that is explicitly `undefined` is not told apart from an absent one. For example,
  `createHttpError` with `{detail: undefined}` yields an undefined detail in the source, because
  the spread at src/http/http-errors.ts:23 overrides the default. The model gives the title.
- Statuses are integers. JavaScript numbers are doubles: non-integral statuses, integers beyond
  2^53 and `String`'s exponent form for magnitudes of 1e21 and above are not modelled.
- Decimal.DecimalString: stated for every integer; it matches `String` only below 1e21 in magnitude.
- Decimal.DecimalRoundTrip: the round trip holds for the source's text only below 1e21 in magnitude.
- ApiErrors.StatusReadsBack: holds for the source only for integral statuses below 1e21 in magnitude.
- The mapper's table is a `map`. Keys inherited from `Object.prototype` in a plain-object lookup
  (src/core/mapper.ts:29) are not modelled.
- The closure returned by `createApiErrorMapper` is not modelled as a value. Its captured table
  and options are parameters of `Mappers.ToApiError`.
- Exceptions: `ErrorCollector.Throw` returns the raised value instead of throwing it.
- Aliasing: the aggregate built by `throw`/`toResult` shares the collector's array in the source
  (src/core/error-collector.ts:50,58). A later `add` would show through it, while `clear` swaps in
  a new array. The model's aggregate is a snapshot `seq`.
- Concurrency is out of scope: the collector is single-owner.
