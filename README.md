# FileMaker Data API client: request and response interceptors

This project models the interception pair of the Data API client's shared
axios instance (`src/services/request.service.js`):

- the **request guard** (`interceptRequest`), which refuses any request whose
  url does not start with `http` with the fixed error
  `{code: "1630", message: "The Data API Requires https or http"}` and
  otherwise strips `params.request` and `data.request` from the configuration;
- the **response normaliser** (`handleResponseError`), which sorts every
  failed request into one of five branches, first match wins: no response
  (the axios error passes through untouched), a 502 or non-object body (the
  fixed `1630` "unavailable" error), a 401 on an
  `RCType=EmbeddedRCFileProcessor` path (the fixed `9` WPE error), a first
  message with code `952` (that message with `expired: true`), and any other
  first message (unchanged);
- the success handler of the response interceptor, which is the identity.

Both interceptors are stateless, so they are Dafny functions over datatypes.
A settled promise is a `Result`: `Ok` when fulfilled, `Err` when rejected.
`String.prototype.startsWith` and `String.prototype.includes` are defined by
recursion in `js_strings.dfy` and proved equal to their slice-based meaning.
The five branches are also written down a second time, each row's condition
on its own with a rank (`Matches`, `Selected`, `RowResult`), and
`FirstMatchWins` proves that every failure selects exactly one row and that
the normaliser rejects with that row's result.

The guard checks only the literal prefix `http`. So `https://...` passes, and
so does `httpx:...`, although the refusal message says "The Data API Requires
https or http" (src/services/request.service.js:29) and the doc comment speaks
of testing the url for an http protocol (src/services/request.service.js:20).
The model follows the check as written.

The two fixed errors could also be sent by the server itself as its first
message. So "the result is the WPE error" does not imply "branch 3 fired".
The iff is stated on the selected branch (`WpeSelectedExactly`).
`WpeErrorOnlyFromBranchOrServer` names the server-echo case.

## Model

| member | source | states |
|---|---|---|
| `JsStrings.StartsWith` | src/services/request.service.js:26 | `url.startsWith('http')` holds iff the url's first characters are exactly the prefix |
| `JsStrings.Includes` | src/services/request.service.js:57 | `path.includes(marker)` holds iff the marker occurs in the path at some index |
| `RequestService.OmitRequest` | src/services/request.service.js:27 | omitting `x.request`: a missing object stays missing, `request` is gone, every other key keeps its value |
| `RequestService.Sanitize` | src/services/request.service.js:27 | the url and all other properties are untouched; `params.request` and `data.request` are removed as above |
| `RequestService.InterceptRequest` | src/services/request.service.js:25-31 | accepted iff the url's first four characters are `http`; a refusal is exactly the 1630 "Requires https or http" error; an accepted config comes back sanitised |
| `RequestService.RequestRemovedDetermines` | src/services/request.service.js:27 | the removal contract determines the sanitised object uniquely |
| `RequestService.HttpPrefixAccepted` | src/services/request.service.js:26-27 | every url of the form `"http" + rest` passes, including `https://` and `httpx:` |
| `RequestService.NonHttpRejected` | src/services/request.service.js:26-31 | a url without the prefix yields only the 1630 error, never a configuration |
| `RequestService.GuardIdempotent` | src/services/request.service.js:27 | sanitising is idempotent, and the guard maps its own output to itself |
| `RequestService.AbsentRequestKeysTolerated` | src/services/request.service.js:27 | with `params`, `data` or their `request` keys absent, an http config passes unchanged |
| `RequestService.GuardScenarios` | src/services/request.service.js:25-31 | `ftp://x` is refused; an https config loses `params.request` and keeps `params.limit` |
| `RequestService.MarkExpired` | src/services/request.service.js:65 | `Object.assign(message, {expired: true})` keeps code and message and sets `expired` to true |
| `RequestService.HandleResponseError` | src/services/request.service.js:44-70 | the original error is the rejection iff there is no response; any other rejection is the unavailable error, the WPE error, or the first message, plain or marked expired |
| `RequestService.HandleResponse` | src/services/request.service.js:73 | fulfilled iff the request succeeded, and then with the response unchanged; a failure is rejected with exactly `HandleResponseError`'s result |
| `RequestService.FirstMatchWins` | src/services/request.service.js:44-70 | every failure selects exactly one of the five ranked rows, and the normaliser rejects with that row's result |
| `RequestService.NoResponsePassesThrough` | src/services/request.service.js:45-46 | the rejection is the identical original error iff no response was received |
| `RequestService.GatewayFailureOverridesAll` | src/services/request.service.js:47-54 | a 502 or a non-object body selects branch 2 and yields the unavailable error whatever the path and messages |
| `RequestService.WpeSelectedExactly` | src/services/request.service.js:55-62 | branch 3 is selected iff status 401, the marker in the path, and an object body; it yields the WPE error |
| `RequestService.WpeErrorOnlyFromBranchOrServer` | src/services/request.service.js:55-68 | the WPE error comes out only from branch 3 or when the server's first message is that record |
| `RequestService.UnauthorizedWithoutMarkerFallsThrough` | src/services/request.service.js:55-68 | a 401 whose path lacks the marker is answered from the first message |
| `RequestService.FirstMessageBranches` | src/services/request.service.js:63-68 | past branches 2-3, code 952 gives the message with only `expired: true` added; any other code gives the message unchanged |
| `RequestService.NormaliserScenarios` | src/services/request.service.js:44-70 | a 502 page gives 1630, a 401 WPE path gives 9 even over a 952 body, and a 952 body gives `expired: true` |
| `RequestService.SuccessUnchanged` | src/services/request.service.js:73 | a successful response is resolved unchanged |

Classification is deterministic because every member above is a function.
Re-running the normaliser on the same failure gives the same rejection.

## Left out

- The axios instance, cookie-jar support, the registration of the interceptors and the module export (src/services/request.service.js:3-13, 72, 75) are library wiring. `HandleResponse` models line 73: the identity on success, `handleResponseError` on failure. The axios chaining that hands a guard rejection on to the response handler is not modelled.
- Promises and asynchrony: a settlement is a returned `Result`. Timeouts, cancellation and concurrent calls are not modelled.
- `omit` lives in `src/utilities`, which is not part of this model. Only its removal contract is modelled (`RequestRemoved`), not whether it copies the configuration.
- `params` and `data` are modelled as plain objects. A string or array request body is not modelled, and neither is a missing `url`, on which `startsWith` would throw.
- HandleResponseError: requires `FirstMessageDefined`, that is, a non-empty `messages` array whenever branches 4-5 are reached. On an empty or missing array the source throws a TypeError, and that TypeError becomes the rejection. This case is not modelled.
- A `null` or array body counts as an object in JavaScript (`typeof null === 'object'`, `typeof [] === 'object'`). Unless branch 2 or 3 answers first, the source then throws at `messages[0]`. `Body` has no variant for either.
- Message codes are strings. A numeric `952` would not match `=== '952'` in the source, and such codes are not modelled. `Json`'s `JNum` holds integers only; fractional numbers in a configuration are not modelled.
- MarkExpired: returns a new record. The source mutates `messages[0]` inside the error in place and rejects with that same object. This aliasing is not modelled.
