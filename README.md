# npm-delegate in Dafny

npm-delegate is a small HTTP proxy. It puts several npm registries behind one address. Each GET
request goes to the registries in their configured order. The first upstream response with a
status below 400 is relayed to the client, with an `x-registry` header that names the winning
registry. Any other method gets 405. If no registry qualifies, the client gets 400 and a fixed
JSON body.

This project models the request-handling core of `npm-delegate.js`:

- `Rebasing.Rebase`: the four-way table of `rebase`. It maps an inbound path onto a registry's
  base path. Its result is an `Option`, because the JavaScript function falls off its end and
  returns `undefined` when the base is `/registry` and the path is a CouchDB rewrite path.
- `Registry.ParseRegistry`: `parseRegistry`. It checks the protocol with the unanchored pattern
  `/http(s?):/` and fills in port 80. `die` becomes the `Died` result.
- `Forwarding.Forward`: `forward`, as a method of the `Forwarding` module that takes the inbound
  request `reqIn` and changes `reqIn.headers`. The outbound request
  shares the inbound header object, so deleting `host`, `authorization` and the three
  `x-forwarded-*` headers changes `reqIn.headers` itself. The three `x-forwarded-*` values are
  remembered beforehand and written back, when truthy, onto a response with a status below 400.
  A transport error, or a status of 400 or more, becomes an error for the callback.
- `Delegation.Delegate`: `delegate`. `RejectMethod` answers non-GET requests. `Fallback` is the loop
  that the `fallback` library drives: one `Forward` per registry, in order, stopping at the first
  success. `Complete` is the final callback, and `PipeRes`/`CopyHeaders` relay the winner.
  Each method is proved against a pure specification (`Run`, `Completed`, `Handle`). The lemmas in
  `DelegationProperties` state what that specification promises.
- `Json`: `JSON.stringify({error: message})`, the envelope of every failure body, with the string
  escaping of ECMAScript's QuoteJSONString. Its partner is the reading function `Unescape`, and the
  two are proved to round-trip.
- `Strings`: JavaScript's `indexOf`, and string-pattern `replace` for a replacement that contains
  no `$`. `rebase` and the protocol test are built from them.

Each attempt's network answer is an input: a transport error, or a response with a status, headers
and a body (`Http.Outcome`). `network[i]` is what registry `i` answers. `url.format` is a function
parameter, and `url.parse`'s result is an input to `ParseRegistry`.

Where the code differs from what a reader might expect, the model follows the code:

- `rebase("/registry", "/registry/_design/app/_rewrite/...")` returns `undefined`, not the path
  unchanged. The branch that prepends `/registry` can never fire, because every rewrite path
  already starts with `/registry` (`RebaseNeverPrepends`).
- The `x-forwarded-*` values reach the client only when the first registry wins. Every later
  attempt captures its values from the already-stripped shared header map, so it remembers nothing
  (`LaterAttemptRemembersNothing`, `LaterWinnerDropsForwarded`). The code does not build a fresh
  header map per attempt.
- An error from the iteration itself writes its body without setting a status. The response keeps
  whatever status it had, which is 200 on a fresh Node response (`IterationErrorReply`).
- The exhausted-fallback message joins its two sentences without a space (`...proxy.perhaps...`).
- The protocol test is not anchored, so a protocol such as `xhttp:` passes it
  (`UnanchoredSchemeTest`).

## Model

| member | source | states |
|---|---|---|
| `Strings.IndexOf` | npm-delegate.js:141 | `indexOf` returns the first position where the pattern occurs, or -1 exactly when it occurs nowhere; it returns 0 exactly when the pattern is a prefix |
| `Strings.ReplaceFirst` | npm-delegate.js:150 | `replace` with a string pattern and a replacement without `$` changes only the first occurrence: the string is unchanged when the pattern does not occur, and a leading pattern is swapped for the replacement |
| `Strings.ReplaceFirstOccurrence` | npm-delegate.js:150 | wherever the first occurrence of the pattern lies, `replace` swaps exactly that occurrence for the replacement and keeps the text before and after it |
| `Json.EscapeRoundTrip` | npm-delegate.js:45 | reading back what JSON.stringify writes inside a string literal gives the original string |
| `Json.EscapePlain` | npm-delegate.js:45 | a string with no control character, quote or backslash is written unchanged |
| `Rebasing.Rebase` | npm-delegate.js:138-156 | there is no result (`undefined`) exactly when the path is a rewrite path and the base is `/registry` |
| `Rebasing.RebaseOrdinary` | npm-delegate.js:141-143 | a path that is not a rewrite path becomes base followed by path, for every base |
| `Rebasing.RebaseRootBase` | npm-delegate.js:145-147 | with base `/`, a rewrite path is returned unchanged |
| `Rebasing.RebaseOtherBase` | npm-delegate.js:149-151 | with any base other than `/` and `/registry`, a rewrite path loses its leading `/registry` and then starts with `/_design/app/_rewrite/` |
| `Rebasing.RebaseNeverPrepends` | npm-delegate.js:153-156 | for a rewrite path, `rebase` never returns `/registry` followed by the path: that branch is dead |
| `Registry.ParseRegistry` | npm-delegate.js:25-33 | dies with the invalid-address message exactly when the protocol fails the test; otherwise keeps every field, keeps a given port, and sets a missing, empty or zero port to 80 |
| `Registry.SchemeAcceptedMeaning` | npm-delegate.js:27 | the protocol test `SchemeAccepted` passes exactly when `http:` or `https:` occurs somewhere in the protocol |
| `Registry.HttpSchemesAccepted` | npm-delegate.js:27 | both `http:` and `https:` pass the protocol test |
| `Registry.MissingSchemeRejected` | npm-delegate.js:26-28 | an address with no protocol (tested as the text `null`) or with `ftp:` dies with the invalid-address message |
| `Registry.UnanchoredSchemeTest` | npm-delegate.js:27 | the unanchored test also accepts `xhttp:` |
| `Forwarding.Capture` | npm-delegate.js:89-91 | remembers exactly the three `x-forwarded-*` values of the inbound headers, and nothing for any other header |
| `Forwarding.Restore` | npm-delegate.js:108-118 | each remembered value that is truthy replaces that header; every other header keeps its upstream value or absence |
| `Forwarding.Classify` | npm-delegate.js:102-121 | an attempt fails exactly on a transport error or a status of 400 or more; a success keeps status and body and restores the remembered headers |
| `Forwarding.Forward` | npm-delegate.js:80-123 | the inbound header map loses the five stripped headers in place; the outbound request (`Forwarding.Outbound`, the options object) carries the host, port and auth of the registry, the rebased path, the method and the stripped map; the attempt is classified with the values remembered before the deletion |
| `Forwarding.StripMeaning` | npm-delegate.js:93-97 | after stripping, none of the five headers is left, every other header keeps its value, and stripping again changes nothing |
| `Forwarding.LaterAttemptRemembersNothing` | npm-delegate.js:85-97 | once the shared map is stripped, a later attempt remembers no `x-forwarded-*` value and restores nothing |
| `Forwarding.FirstAttemptRestores` | npm-delegate.js:89-118 | a truthy `x-forwarded-*` value is withheld from the upstream and present, with its inbound value, in a successful first attempt's response |
| `Delegation.FirstQualifying` | npm-delegate.js:53-57 | reference definition of the winner: the first answer with a status below 400, with no earlier one qualifying |
| `Delegation.Run` | npm-delegate.js:50-58 | the fallback sends at most one request per registry and never reports an iteration error |
| `Delegation.RejectMethod` | npm-delegate.js:42-48 | status 405, the invalid-method body appended, and the response ended |
| `Delegation.Fallback` | npm-delegate.js:50-58 | the loop's requests and result are those of `Run` for the headers as they were; afterwards the inbound map is stripped if any attempt was made |
| `Delegation.CopyHeaders` | npm-delegate.js:130-135 | the status is the upstream's, and every upstream header is set over the existing ones |
| `Delegation.PipeRes` | npm-delegate.js:125-128 | the client response gets the upstream's status, its headers over the existing ones, its body, and is ended |
| `Delegation.Complete` | npm-delegate.js:60-75 | the final callback leaves the response as `Completed` says for an iteration error, an exhausted run, or a winner |
| `Delegation.Delegate` | npm-delegate.js:40-78 | the client response, the outbound requests and the inbound headers after `delegate` are those of `Handle` |
| `DelegationProperties.RunOutcome` | npm-delegate.js:50-58 | with no qualifying answer every registry is tried and the run is exhausted; otherwise registry k wins after exactly k+1 requests, and only a first-position winner gets headers restored |
| `DelegationProperties.RunSent` | npm-delegate.js:80-88 | attempt i goes to registry i, with the inbound headers minus the stripped ones |
| `DelegationProperties.InvalidMethodBody` | npm-delegate.js:45 | the invalid-method body, built by `Json.ErrorBody` as `JSON.stringify({error: message})`, is exactly `{"error":"Invalid method"}` |
| `DelegationProperties.NonGetRejected` | npm-delegate.js:42-48 | any method other than GET gets status 405 and the fixed body; no request is sent and the inbound headers are untouched |
| `DelegationProperties.ExhaustedReply` | npm-delegate.js:65-69 | when nothing qualifies, every registry was tried; the client gets 400 and an `error` string that reads back as the fixed message; no upstream header or body reaches it |
| `DelegationProperties.FulfilledRelay` | npm-delegate.js:71-73 | the client gets the winner's status, body and headers; `x-registry` names the winner unless the upstream sent that header itself, whose value then wins |
| `DelegationProperties.SecondRegistryServes` | npm-delegate.js:50-73 | if the first of two registries fails and the second qualifies, both are tried in order and the second's status, body and name reach the client |
| `DelegationProperties.FirstWinnerRestoresForwarded` | npm-delegate.js:89-118 | when the first registry wins, each truthy `x-forwarded-*` inbound value is absent from every outbound request and present in the client response |
| `DelegationProperties.LaterWinnerDropsForwarded` | npm-delegate.js:85-118 | when a later registry wins, an `x-forwarded-*` header that neither the winner nor the client response had is missing from the reply |
| `DelegationProperties.LaterWinnerAddsNothing` | npm-delegate.js:130-135 | when a later registry wins, the reply has no header besides the winner's, the existing ones and `x-registry` |
| `DelegationProperties.AttemptsStripped` | npm-delegate.js:80-97 | every outbound request goes to its registry's host and port, with the rebased path and GET, and holds none of the stripped headers; the inbound map is stripped once any attempt was made |
| `DelegationProperties.IterationErrorReply` | npm-delegate.js:61-63 | an iteration error keeps the status and headers and writes a JSON body whose `error` string reads back as the fixed preamble followed by the error text |

## Left out

- Command-line parsing, the registry-count check, and server creation and listening are not modelled. They are startup wiring, not request handling.
- Logging (`console.log`, `console.dir`, `console.error`) and the copy of a failed upstream body to standard output are not modelled.
- `die`'s `process.exit` is not modelled; `ParseRegistry` returns `Died` with the message instead.
- The HTTP transport is not modelled. Each attempt's answer is an input, and the body is one string written at once (`pipe` is a write followed by `end`), so streaming and backpressure are absent.
- The outbound call always goes through the plain `http` module, because the request options never have a `protocol` field. Since the transport is an input, the model does not carry this choice.
- `Strings.ReplaceFirst`: inserts the replacement literally. JavaScript would expand `$&`, `$$`, `` $` `` and `$'` in it. The only call passes `''`, which has no `$`.
- `OutboundRequest.path` is `None` when `rebase` returns `undefined`. Node's `http.request` then requests `/`, so such an attempt asks the registry for its root. The model keeps `None` and does not rewrite it to `/`.
- The `fallback` library is not part of this model. `Fallback` models only what `delegate` relies on: registries in order, stop at the first response, continue after an error. Its own iteration error reaches `Complete` as the `IterationError` input.
- `url.parse` and `url.format` are not part of this model. The parsed URL is an input and `format` is an uninterpreted function. A registry path is assumed to be a string, which `url.parse` always yields for an `http:` address.
- `JSON.stringify(err, null, 2)` of an iteration error is not modelled; its text is the `detail` input.
- Node's header names are case-insensitive and a header value can be an array. The model keys headers by exact lower-case strings and takes values as strings.
- JavaScript strings may hold lone surrogates, which JSON.stringify escapes as `\u` sequences; Dafny characters are Unicode scalar values, so the model has none.
- Asynchrony is not modelled: concurrent requests, and a transport error that fires after the response callback and calls the callback a second time. The attempts of one request are a sequential loop.
- Per-attempt timeouts do not exist in the code and are not modelled.
