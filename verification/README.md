# DigiCert client: request builder and rate limiter in Dafny

This project models the two pieces of the `lexiconn-internet-services/digicert`
Laravel package that hold logic:

- **The request builder** (`DigicertClient` without `execute`). It collects
  headers, query parameters, typed filters, GraphQL query fragments and JSON
  body fields. `buildRequest` turns them into the method, URI and request
  options handed to the HTTP client.
- **The sliding-window rate limiter** (`RateLimterService`). It keeps the
  timestamps of recent requests and computes how long a caller must sleep once
  the window holds more requests than the limit allows.

The builder is an immutable record (`Client.Client`). Each operation is a pure
function that returns the updated record in place of the PHP `$this`. PHP
arrays are insertion-ordered sequences of key/value pairs (`OrderedMap`).
Assigning to an existing key replaces its value in place. A new key goes at the
end. The limiter is a record too (`RateLimiter.Limiter`). `checkLimit` is a step
function that takes the clock reading `now` and returns the new window and the
number of seconds to sleep.

Modules and files:

| file | module | models |
|---|---|---|
| wrappers.dfy | `Wrappers` | `Option` and `Result` |
| text.dfy | `Text` | PHP int-to-string conversion, zero padding, `implode` and its inverse |
| php_value.dfy | `PhpValue` | PHP scalars, the `(string)` cast, truthiness |
| json.dfy | `Json` | `json_encode` of scalars with its default flags, plus a decoder |
| dates.dfy | `Dates` | the two Carbon formats the client uses |
| ordered_map.dfy | `OrderedMap` | PHP array assignment and lookup |
| client.dfy | `Client` | the constructor and every builder operation |
| client_properties.dfy | `ClientProperties` | lemmas relating builder operations |
| rate_limiter.dfy | `RateLimiter` | the limiter and its lemmas |

Behaviour of the code that the model reproduces as written:

- In `addQuery`, `.` binds tighter than `??`. Only a generated alias is
  followed by `": "`. An explicit alias is written directly in front of the
  function name (`ClientProperties.ExplicitAliasHasNoSeparator`).
- Filters format dates as `Y - m - d+00:00:00`, with spaces. Query arguments
  use `Y-m-d+00:00:00`.
- `addFilter` ignores the second date unless the first value is a date.
- A filter operator is joined using PHP's string cast. With an operator, a
  boolean filter value becomes `"1"` or `""`. Without one, `addParameter`
  stores it as `"true"` or `"false"` (`ClientProperties.OperatorOnBooleanFilter`).
- `buildRequest` adds no query string when the URI already contains `?`. In
  that case every parameter is silently dropped.
- The constructor checks the configured API key first and falls back to the
  explicit one. The header, though, prefers the explicit key.

## Model

| member | source | states |
|---|---|---|
| OrderedMap.Put | src/DigicertClient.php:57 | Array assignment: afterwards the key maps to the new value and every other key keeps its value. An existing key keeps its position and a new key is appended, so the key order is the old order, plus the new key if there was none. No entry appears other than the old ones and the new pair. |
| OrderedMap.PutSameValue | src/DigicertClient.php:168 | Assigning a key the value it already holds leaves the array unchanged. This is why rewriting the `query` field on a second build changes nothing. |
| OrderedMap.PutKeepsKeysDistinct | src/DigicertClient.php:98 | Assignment never creates a duplicate key. |
| Client.New | src/DigicertClient.php:39-47 | The constructor fails with a missing-key error exactly when the configured key (or the explicit key, if no key is configured) is null, "" or "0". It also fails when the base URL resolves to null. It succeeds in every other case and has no other error. On success, the headers are exactly `X-DC-DEVKEY` then `Content-Type: application/json`, and the API key header takes the explicit key first. The base URL is the explicit one, else the configured one, else the DigiCert default. Nothing else is set. |
| ClientProperties.NewEstablishesInv | src/DigicertClient.php:44-45 | A constructed client satisfies the builder invariant. |
| Client.AddHeader | src/DigicertClient.php:55-60 | Sets only the named header, with last write winning. The other headers, their order and the rest of the builder are unchanged. |
| Client.AddParameter | src/DigicertClient.php:93-101 | A boolean is stored as the string "true" or "false" and any other value is stored unchanged. Re-adding a key overwrites its value in place. The other parameters and their order stay as they were. |
| Client.AddFilter | src/DigicertClient.php:70-85 | Covers all four date cases and both scalar cases. A date, or two dates joined by "...", is stored under `filters[name]`. A truthy operator is prepended to the string cast of the result. A scalar without an operator goes through `addParameter` unchanged. Only that one key changes. Like every `addParameter` call, it updates an existing key in place and appends a new key at the end. |
| ClientProperties.SecondDateIgnoredForScalars | src/DigicertClient.php:72-78 | A second date next to a value that is not a date has no effect. |
| ClientProperties.OperatorPrefixesFilter | src/DigicertClient.php:80-84 | For every non-boolean value, the value stored with a truthy operator is the operator followed by the value stored without one. |
| ClientProperties.OperatorOnBooleanFilter | src/DigicertClient.php:80-98 | For a boolean the two paths disagree. It is stored as "true"/"false" without an operator and as operator + "1"/"" with one. |
| ClientProperties.DateRangeRoundTrip | src/DigicertClient.php:72-77 | A filter date range of two range-checked dates (`Dates.InFormatRange`) can be read back to exactly those two dates. |
| Dates.ParseFilterFormatOfFilterFormat | src/DigicertClient.php:73 | The filter date format of a range-checked date is 23 characters long and reads back to the date. |
| Dates.FormatsDiffer | src/DigicertClient.php:115-118 | The query-argument date format contains no space, but the filter format always does. The two never produce the same text. |
| Client.AddQuery | src/DigicertClient.php:113-130 | Appends exactly one fragment and leaves earlier fragments untouched. Without an alias the fragment is `fn_n: fn(args){fields}`, where n is the number of fragments before the call. An explicit alias is written directly before `fn(` with no separator. Nothing else in the builder changes. |
| ClientProperties.AutoAliasInjective | src/DigicertClient.php:122 | A generated alias determines both the function name and the ordinal. |
| ClientProperties.AutoAliasesOfDistinctOrdinalsDiffer | src/DigicertClient.php:122-129 | Fragments at different positions never get the same generated alias. |
| ClientProperties.ExampleFirstFragment | src/DigicertClient.php:113-129 | The first unaliased `certificateOrders` fragment with `container_id` 123 and fields id, status is `certificateOrders_0: certificateOrders(container_id:123){id,status}`. |
| ClientProperties.ExplicitAliasHasNoSeparator | src/DigicertClient.php:122-123 | With an explicit alias, the fragment is the alias immediately followed by the function call. |
| Json.DecodeOfEncode | src/DigicertClient.php:119 | The JSON encoding of a query argument loses nothing: decoding it gives back the same string, int, bool or null. |
| Json.DecodeStringOfEncodeString | src/DigicertClient.php:119 | A string escaped as `json_encode` does by default (including `\/` and `\u` escapes) decodes back to the original. |
| Client.AddJsonParam | src/DigicertClient.php:189-194 | Sets only the named JSON field, with last write winning. An existing field is updated in place and a new one is appended. The other fields and their order are unchanged. |
| Client.StartWithSlash | src/DigicertClient.php:219 | `Str::start(path, '/')`: the result starts with exactly one `/`. The rest is the path without its leading run of `/`. |
| ClientProperties.StartWithSlashIdempotent | src/DigicertClient.php:219 | Normalising an already normalised path changes nothing. |
| ClientProperties.StartWithSlashPrepends | src/DigicertClient.php:219 | A path that does not start with `/` just gets one prepended. |
| Client.Endpoint | src/DigicertClient.php:217-226 | The URI becomes the base URL plus the normalised path, and the method is the given one (default GET). Nothing else changes. |
| Client.StartQuery | src/DigicertClient.php:201-204 | Sets method POST and URI base URL + `/reports/query`. |
| Client.Build | src/DigicertClient.php:156-179 | Fails, always with `NoEndpoint`, exactly when no endpoint was set. Otherwise it appends `?` plus the unencoded `k=v` pairs joined by `&`, but only if there are parameters and the URI has no `?`. When fragments exist, it sets the JSON field `query` to `{f1,f2,...}` as `addJsonParam` does: in place when the field exists, appended otherwise. The headers are always attached. The JSON body is attached exactly when it has a field. Only the URI and the JSON fields change. |
| ClientProperties.BuildIdempotent | src/DigicertClient.php:156-179 | Building a second time with no change in between produces the same request and the same builder. |
| ClientProperties.QueryStringRoundTrip | src/DigicertClient.php:158-165 | The appended query string reads back to the parameters, in key order, provided no key contains `&` or `=` and no value contains `&`. No encoding is applied. |
| ClientProperties.ApplyPreservesInv | src/DigicertClient.php:55-226 | Every builder call keeps the invariant. Header, parameter and JSON keys stay distinct. The two constructor headers stay first. No stored parameter is a boolean. Fragments are only ever appended. |
| ClientProperties.PerformPreservesInv | src/DigicertClient.php:113-130 | Over any sequence of calls the invariant holds and earlier fragments stay a prefix, so a fragment's ordinal is never reused or renumbered. |
| RateLimiter.New | src/RateLimterService.php:14-22 | The constructor stores the given limit and interval (defaults 950 and 300, which override the field initialisers) and starts with an empty window. |
| RateLimiter.Prune | src/RateLimterService.php:35-40 | Keeps, in their original order, exactly the timestamps at or after the cutoff, with their multiplicities. It never adds an entry. |
| RateLimiter.Min | src/RateLimterService.php:44 | Returns an element of the window that is no larger than any other. |
| RateLimiter.CheckLimit | src/RateLimterService.php:24-51 | The new window is exactly the old timestamps at or after `now - interval`, in order, followed by `now`. Every earlier entry is at least `now - interval`, and the earlier entries are an in-order subsequence of the old window, so the window grows by at most one. A non-zero wait occurs only when the window exceeds the limit. In that case the wait is `interval - (now - min)` when that is positive, and 0 otherwise. The wait is never more than the interval. At `now + wait` the cutoff equals the oldest request, so the wait ends when that request reaches the edge of the window. It is still kept, because the pruning keeps entries at the cutoff. There is no failure outcome. |
| RateLimiter.NoWaitBelowLimit | src/RateLimterService.php:26-30 | With fewer than `limit` timestamps inside the window beforehand, the call does not wait, however many expired timestamps were stored. |
| RateLimiter.WaitsExactlyWhenFull | src/RateLimterService.php:26-48 | A call waits exactly when at least `limit` timestamps are still inside the window and the oldest one has not yet reached the cutoff `now - interval`. |
| RateLimiter.RawWaitBounds | src/RateLimterService.php:42-48 | With a non-negative interval, the unclamped wait after pruning lies between 0 and the interval. |
| RateLimiter.NoWaitWithinLimit | src/RateLimterService.php:28-30 | While the stored requests plus the new calls stay within the limit, no call waits. |
| RateLimiter.ExampleFirstThreeCallsPass | src/RateLimterService.php:28-30 | With limit 3, the first three calls of a fresh limiter never wait. |
| RateLimiter.ExampleFourthCallWaits | src/RateLimterService.php:42-50 | With limit 3 and interval 60, after calls at 0, 10 and 20, a call at 30 waits 30 seconds. |

## Left out

- `execute` is not modelled. It is I/O: a Guzzle HTTP call, `Log::debug`, `json_decode` and the rate-limiter facade call.
- Laravel's `config()` is not called. The two configuration entries are a parameter (`Client.Config`), where an entry is either missing or present with a string or null.
- The raw `body` option is always absent, because no method assigns `$body`.
- `addQuery` declares a `DigicertClient` return type but returns nothing. Every call therefore appends its fragment and then raises a `TypeError`. Only the append is modelled, not the error that follows it or chaining.
- In `buildRequest`, `$options` persists between builds. The model derives it afresh on every build. This is equivalent because both keys are rewritten, and the JSON array is never unset once set.
- Client.Build: the model fails with `NoEndpoint` whenever no endpoint was set. In PHP, `buildRequest` itself faults only when parameters are set. Otherwise the same missing URI faults in `execute`, so no request is ever sent.
- A failed build leaves the builder unchanged (`ClientProperties.Apply`). In PHP, a build without an endpoint and without parameters may still add the `query` field before `execute` faults.
- Unset `parameters` and `json` properties are represented by an empty sequence. No operation removes an entry, so the two states coincide.
- PHP turns numeric-string array keys into integers. Their text is the same, so this is not modelled.
- Values are PHP strings, ints, booleans and null. Floats and arrays as values are not modelled.
- `json_encode` fails on invalid UTF-8. This is not modelled, because strings here are sequences of Unicode scalar values.
- PHP's 64-bit integer overflow is not modelled.
- Carbon instances are reduced to their calendar date. Both formats print only the date plus the literal `+00:00:00`. Negative years are not modelled.
- `Dates.ParseFilterFormatOfFilterFormat` and `ClientProperties.DateRangeRoundTrip` assume `Dates.InFormatRange` dates: a year of at most four digits, a month 1-12 and a day 1-31, with no calendar check. That restriction applies only to the read-back, not to the formats themselves.
- The limiter reads `time()` once per element in `cleanupList`, again when appending, and again in `sleep`. The model uses a single clock reading `now` for the whole call.
- The actual `sleep()` and its `Log::debug` are replaced by the returned wait.
- Concurrency is not modelled. The code has no lock and runs in one PHP process.
- `DigiCertServiceProvider` and the `RateLimiter` facade are framework wiring with no logic. The provider passes the configured `rate_limit` and `rate_interval` (defaults 950 and 300) to the limiter's constructor.
