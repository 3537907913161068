# FreePBX API client: token cache and failure policy

A model of the Laravel client for the FreePBX administrative API (`HyEnergySolutions\FreePBX\FreePBX`).
The client keeps one bearer token in the application cache under the key `freepbx_token`. It gets
that token with the OAuth 2.0 client-credentials grant (section 4.4 of RFC 6749) and caches it for
3500 seconds. Every GraphQL and REST request carries the token. A request that fails evicts the
token, so the next call fetches a fresh one. A GraphQL response with an `errors` value is a
validation failure that keeps the token. The public accessors (extensions, ring groups, call detail
records, day/night call flows and their state) dig one nested value out of a response. They fall
back to an empty collection or to null.

Modules:

- `Wrappers`: `Option` and `Result`.
- `Json`: the decoded JSON the client reads. It also models PHP's `isset`/`??` lookup (`Get`, `Dig`)
  and Laravel's `collect()` (`Collect`, `Listing`).
- `FreePBXException`: the four message constructors, their prefixes, and how a message is read back.
- `FreePBX`: the transport responses taken as input, the cache effects (`Send`, `Put`, `Forget`)
  and `Replay`, which gives the slot those effects produce. Three pure step functions specify
  `getToken`, `graphql` and `rest`. The class `Client` has the cache slot as an `Option<string>`
  field, and its methods update it in place and are proved against the step functions. The
  accessors shape the results.
- `Session`: lemmas about runs of several calls: one token exchange, re-fetch after a failure,
  no requests without a token.
- `TokenFinding`: `getToken` as written, for the finding below.
- `Scenarios`: the feature tests, restated against the model.

Behaviour of the code the model keeps:

- Validation errors: the code tests `isset($json['errors'])`, so any non-null `errors` value fails
  the call, an empty array included. A non-array `errors` value makes the call to
  `graphqlValidationErrors(array $errors)` raise a `TypeError` (`Error.TypeMismatch`).
- Connection failures: only `RequestException` (a failed HTTP status) is caught. A
  `ConnectionException` (no response at all) propagates unchanged and evicts nothing
  (`HttpResponse.Unreachable`, `Error.ConnectionFailed`).
- Validation message: the exception carries only a message, the shared
  `"FreePBX GraphQL error: "` prefix followed by `json_encode` of the errors value.
- Strict types: a `data` value that is not an array, or a `state` value that is not a string,
  violates the declared `?array` / `?string` return type and raises a `TypeError`.

## Model

| member | source | states |
|---|---|---|
| `Json.Get` | src/FreePBX.php:78-82 | `isset`/`??` never yields null; it finds a value exactly when an object holds a non-null value under the key, and then yields that value |
| `Json.Present` | src/FreePBX.php:200 | `$v ?? []` treats exactly a null value as absent |
| `Json.DigAppend` | src/FreePBX.php:136 | a nested `??` lookup of a path equals looking up its two parts one after the other |
| `Json.DigNeverNull` | src/FreePBX.php:136 | a nested `??` lookup never yields null, so the default applies instead |
| `Json.Collect` | src/FreePBX.php:200 | `collect()` always gives an array, keeps an array as it is, turns null into the empty list and wraps a scalar |
| `Json.CollectIdempotent` | src/FreePBX.php:200 | collecting a collection changes nothing |
| `Json.Listing` | src/FreePBX.php:136 | an accessor's result is always a collection: the nested array itself when present, a one-element list around a nested scalar, the empty list when any level is absent or null |
| `FreePBXException.TokenFailed` | src/Exceptions/FreePBXException.php:11-14 | message is `"Failed to get FreePBX token: "` followed by the body, unchanged |
| `FreePBXException.GraphqlError` | src/Exceptions/FreePBXException.php:16-19 | message is `"FreePBX GraphQL error: "` followed by the body, unchanged |
| `FreePBXException.GraphqlValidationErrors` | src/Exceptions/FreePBXException.php:21-24 | message is the same GraphQL prefix followed by the JSON encoding of the errors array |
| `FreePBXException.RestError` | src/Exceptions/FreePBXException.php:26-29 | message is `"FreePBX REST API error: "` followed by the body, unchanged |
| `FreePBXException.MessagesReadBack` | src/Exceptions/FreePBXException.php:11-29 | the three prefixes are distinct: a message's prefix names its constructor's family and the rest is the detail it was given |
| `FreePBXException.ConstructorsReadBack` | src/Exceptions/FreePBXException.php:11-29 | each constructor's message reads back as its own family with exactly the body (or encoded errors) it was given |
| `FreePBXException.ValidationSharesTransportMessage` | src/Exceptions/FreePBXException.php:16-24 | a validation message equals a transport-error message whose body is the encoded errors |
| `FreePBX.TokenStep` | src/FreePBX.php:37-61 | hit: returns the cached token, no request, slot unchanged; miss: exactly one token request; success iff a token is issued, which is cached under `freepbx_token` for 3500 s and returned; failed status or missing token: `tokenFailed` with the body and nothing cached; the slot is always what the cache writes made of it |
| `FreePBX.GraphqlStep` | src/FreePBX.php:66-83 | without a token nothing is posted and the token failure propagates; the token is evicted exactly when the GraphQL request fails, which throws `graphqlError` with the body; no response at all propagates the connection failure; an `errors` value throws the validation error and keeps the token; otherwise returns `data`, or nothing when absent |
| `FreePBX.RestStep` | src/FreePBX.php:88-98 | without a token nothing is sent; the token is evicted exactly when the REST request fails, which throws `restError` with the body; no response at all propagates the connection failure; a success returns the decoded body verbatim and keeps the token |
| `FreePBX.CallFlowStateOf` | src/FreePBX.php:206-211 | returns the `state` string when there is one, null when it is absent or null, and a type error for any other value |
| `FreePBX.Client.constructor` | src/FreePBX.php:16-20 | stores the configuration; the slot is whatever the cache already holds |
| `FreePBX.Client.GetToken` | src/FreePBX.php:37-61 | result, new slot and effects are those of `TokenStep`; the slot stays the replay of the client's cache writes |
| `FreePBX.Client.Graphql` | src/FreePBX.php:66-83 | result, new slot and effects are those of `GraphqlStep` |
| `FreePBX.Client.Rest` | src/FreePBX.php:88-98 | result, new slot and effects are those of `RestStep` |
| `FreePBX.Client.GetExtensions` | src/FreePBX.php:103-137 | the GraphQL outcome, with `fetchAllExtensions.extension` collected or the empty list |
| `FreePBX.Client.GetRingGroups` | src/FreePBX.php:142-165 | the GraphQL outcome, with `fetchAllRingGroups.ringgroups` collected or the empty list |
| `FreePBX.Client.GetCdrs` | src/FreePBX.php:170-193 | the GraphQL outcome of the CDR query for `first` records (100 by default), with `fetchAllCdrs.cdrs` collected or the empty list |
| `FreePBX.Client.GetCallFlows` | src/FreePBX.php:198-201 | the REST outcome of `GET /daynight/`, with the body collected or the empty list for null |
| `FreePBX.Client.GetCallFlowState` | src/FreePBX.php:206-211 | the REST outcome of `GET /daynight/<id>`, with its `state` as given by `CallFlowStateOf` |
| `Session.RunReplays` | src/FreePBX.php:37-98 | after any run of calls, the slot is exactly what the run's cache writes made of the starting slot |
| `Session.EvictedExactlyOnRequestFailure` | src/FreePBX.php:71-80 | a cached token is dropped exactly when the call's own request fails; validation errors, connection failures and successes keep it |
| `Session.MissExchangesOnce` | src/FreePBX.php:39-60 | a call from an empty slot exchanges credentials exactly once |
| `Session.FailureForcesNewExchange` | src/FreePBX.php:94-96 | after a failed GraphQL or REST request the slot is empty and the next call exchanges credentials again, whatever the PBX answers to it |
| `Session.TokenExchangedAtMostOnce` | src/FreePBX.php:39-60 | with each call answered by its own transport: while no request fails, a run exchanges once from an empty slot (when the first exchange yields a token) and never from a filled one, and ends holding that token |
| `Session.NoTokenNoRequests` | src/FreePBX.php:51-57 | with each call answered by its own transport: while no token is issued, every call sends only the token request and nothing is cached |
| `TokenFinding.TokenStepAsWritten` | src/FreePBX.php:39-60 | as written: a non-null entry is a hit that sends nothing and keeps the entry; an absent or null entry is a miss that exchanges; a failed miss caches nothing new; a success leaves the returned string cached |
| `TokenFinding.StoredNullIsAMiss` | src/FreePBX.php:39 | a cache entry holding null is treated like an absent one: the endpoint is asked and the outcome is the same |
| `TokenFinding.AgreesExceptOnNonStringToken` | src/FreePBX.php:39-60 | the code as written and the corrected step agree on every response except one with a non-string `access_token` |
| `TokenFinding.NumericTokenSticks` | src/FreePBX.php:55-59 | as written, `{"access_token":7}` is cached, the call fails, and the next call fails from the cache without a request |
| `TokenFinding.NumericTokenRetriedWhenCorrected` | src/FreePBX.php:55-59 | corrected, the same response is a token failure carrying the body, nothing is cached, and the next call fetches again |
| `Scenarios.TokenCachedAcrossCalls` | tests/Feature/FreePBXTest.php:165-185 | two extension lookups send one token request and two GraphQL posts |
| `Scenarios.NullExtensionsGiveEmptyList` | tests/Feature/FreePBXTest.php:187-203 | a null `extension` list gives the empty collection |
| `Scenarios.GraphqlFailureClearsWarmCache` | tests/Feature/FreePBXTest.php:146-163 | a 500 from the GraphQL endpoint empties a warmed cache and throws a GraphQL error |
| `Scenarios.RestFailureClearsWarmCache` | tests/Feature/FreePBXTest.php:231-247 | a 500 from the REST endpoint empties a warmed cache and throws a REST error |
| `Scenarios.RejectedCredentialsStopAtToken` | tests/Feature/FreePBXTest.php:116-122 | a 401 from the token endpoint throws a token failure with that body, and no GraphQL request is sent |

## Left out

- HTTP transport details: base URL joining, the 30-second timeout, `retry(3, 100)`, Basic and
  Bearer authentication headers, form and JSON encoding. The transport is an input, and retries
  inside the HTTP library count as one request. The configured URL, client id and secret are
  stored but play no part in the model.
- REST verb dispatch (`$this->http()->{$method}(…)`): the verb is carried as a string into the
  request. An unknown verb name is not modelled.
- Cache expiry in wall-clock time: the slot is present or absent. The TTL of 3500 s is recorded in
  the `Put` effect, but no clock runs it out.
- The literal GraphQL query texts: a `Query` names each one, and only the CDR query's `first`
  parameter is kept.
- `json_encode` and JSON decoding: the encoder is a function given to the client. A response's body
  and its decoded JSON are given independently. JSON numbers are integers only, and no key the
  client reads is a numeric string.
- Concurrent cache misses: the model is sequential.
- Key order of JSON objects: `JObj` is an unordered map, while PHP's decoded arrays keep their
  keys in order. Two `errors` values that differ only in key order get one message in the model,
  where `json_encode` gives two. A collection built from an object-shaped body has no order in
  the model.
- The service provider, the facade, the configuration file and the guideline text: they are
  wiring and documentation.
- FreePBX.TokenStep: it deliberately differs from the code for a non-string `access_token`. It
  throws `tokenFailed` and caches nothing. The code caches the value and then fails its return
  type. See Findings; `TokenFinding` models the code as written.

## Findings

| source | as written | input that shows it | evidently intended | confidence | as-written member | corrected member |
|---|---|---|---|---|---|---|
| src/FreePBX.php:55-59 | the `isset` guard accepts any non-null `access_token`; `Cache::remember` stores it before `getToken`'s `: string` return type raises a `TypeError`, so every later call fails from the cache without asking the endpoint until the entry expires | token response `{"access_token":7}` | only a string token is cached; any other response throws `tokenFailed` with the body and leaves the cache empty, so the next call asks again | medium, not executed | TokenFinding.NumericTokenSticks | FreePBX.TokenStep |
