# ServerService — a Dafny model

`ServerService` is an Angular service that wraps the HTTP client. It adds the
auth token to every authenticated call, builds the query string, applies a per-call or default
timeout, turns a 204 response into `''`, and sorts failures into three
notification channels (`onTimeout`, `onInvalidToken`, `onUnauthorized`). The
`onUnauthorized` channel is guarded by a one-way latch. This project models the
deterministic part of that service and proves what it promises:

- `query_string.dfy` (module `QueryBuilder`): `buildParams`. The method keeps
  the source's loop over `qString` and `count` and is proved equal to
  `QueryString`: `?` followed by the `key=value` pairs of the truthy entries,
  joined with `&`, with no encoding.
- `request.dfy` (module `Request`): Angular's `Headers` as a small class whose
  `Append` mutates it in place, the outcome of the auth lookup as an input
  datatype, and the headers a request ends up with.
- `error_classifier.dfy` (module `ErrorClassifier`): `errorAF` as a step
  function `Classify` over the latch and the three logs, and `Run` over a
  sequence of failed calls. The latch is one-way, `onUnauthorized` fires at most
  once, and `onInvalidToken` and `onTimeout` fire once per matching call.
- `server_service.dfy` (module `Service`): the class `ServerService`. It holds
  the default timeout, the latch `reqUnauthorizedMsgShow` and the three
  emission logs. `ErrorAF` updates them step by step and is proved against
  `Classify`. The module also has `PrepareRequest`, `ResMap`, the timeout
  choice, and `Perform`, which composes one verb call.

At its edges the code behaves as follows, and so does the model:

- A failed call rejects with the parsed error body itself, or with
  `{message: 'Server Error'}` when the body parses to a falsy value.
- A timeout rejects with `{message: 'TimeoutError'}`.
- An error body that is `undefined` or is not valid JSON makes `JSON.parse`
  throw, so the handler itself raises a `SyntaxError`
  (`HandlerFault(SyntaxError)`). A body of `null` parses to `null`, and the call
  rejects with `{message: 'Server Error'}`.
- An unauthorized body without a string `message` makes `.includes` throw a
  `TypeError`. That happens before any notification and before the latch moves.

## Model

| member | source | states |
|---|---|---|
| `QueryBuilder.BuildParams` | src/server.service.ts:55-72 | Falsy `params` gives `''`. Otherwise the loop builds exactly `QueryString`: `?` before the first truthy entry, `&` before each later one, `key=value` written verbatim. |
| `QueryBuilder.NatText` | src/server.service.ts:64-66 | The text of a natural number is a non-empty string of decimal digits with no leading zero. |
| `QueryBuilder.IntTextShape` | src/server.service.ts:64-66 | The text of an integer starts with `-` exactly when it is negative, and the digits after it read back as its absolute value. |
| `QueryBuilder.NatTextRoundTrip` | src/server.service.ts:64-66 | Reading the decimal text of a number back gives the number, so the conversion loses nothing. |
| `QueryBuilder.Kept` | src/server.service.ts:61-62 | The entries kept are never more than the object has. |
| `QueryBuilder.WrittenIsJoin` | src/server.service.ts:63-68 | Writing `?` for the first kept entry and `&` for each later one gives `?` plus the pairs joined with `&`. |
| `QueryBuilder.KeptAppend` | src/server.service.ts:61-70 | Filtering distributes over concatenation, so kept entries keep their iteration order. |
| `QueryBuilder.KeptMembers` | src/server.service.ts:61-62 | An entry is kept if and only if it is in the object and its value is truthy (`0`, `''`, `false`, `null` and `undefined` drop out). |
| `QueryBuilder.KeptLength` | src/server.service.ts:60-68 | The final `count` (the number of kept entries) equals the number of truthy entries. |
| `QueryBuilder.QueryStringEmpty` | src/server.service.ts:56-58 | The query string is `''` if and only if `params` is falsy or no value in it is truthy. |
| `QueryBuilder.ActiveTrueZeroPage` | src/server.service.ts:61-70 | `{active: true, page: 0}` gives `?active=true`. |
| `Request.Headers.constructor` | src/server.service.ts:76 | A new header set is empty. |
| `Request.Headers.Append` | src/server.service.ts:79 | `append` adds one header at the end and changes nothing else. |
| `Request.AuthorizationAddedOnce` | src/server.service.ts:76-80 | Exactly one `Authorization` header is added, and only when authenticated. After a failed lookup the request carries none. |
| `Request.CallerHeadersKept` | src/server.service.ts:76-91 | Unless the lookup failed, the caller's headers come first and unchanged, and the only addition is `Authorization` with the access token. A failed lookup gives an empty set. |
| `Request.ReusedHeadersAccumulate` | src/server.service.ts:79 | Preparing the headers twice over the same caller headers while authenticated adds two `Authorization` headers. |
| `Service.PrepareTwiceWithSharedHeaders` | src/server.service.ts:76-84 | Two authenticated calls given one header object both send that object, and it ends up with the caller's headers plus two `Authorization` headers. |
| `ErrorClassifier.Classify` | src/server.service.ts:30-47 | A timeout is logged once on `onTimeout` and rejects with `{message: 'TimeoutError'}`. An unauthorized body with a message is logged on `onInvalidToken` when the message contains `Invalid token`, and on `onUnauthorized` only while the latch is unset; it sets the latch. An `undefined` or unparsable body raises `SyntaxError`, a missing string message raises `TypeError`, and otherwise the call rejects with the body or `Server Error`. Well-formed logs stay well-formed. |
| `ErrorClassifier.RunUnauthorized` | src/server.service.ts:41-44 | After any sequence of calls the latch is set exactly when it was set before or some call reached it. `onUnauthorized` gains only the body of the first such call, and only if the latch was unset. |
| `ErrorClassifier.UnauthorizedAtMostOnce` | src/server.service.ts:41-44 | Over a handler's lifetime `onUnauthorized` fires at most once. It fires exactly when some call was unauthorized with a message. |
| `ErrorClassifier.RunInvalidTokens` | src/server.service.ts:38-40 | `onInvalidToken` receives, in order, the body of every call that reports an invalid token, whatever the latch. |
| `ErrorClassifier.RunTimeouts` | src/server.service.ts:32-35 | `onTimeout` gains one `TimeoutError` per timed-out call, and the log invariants hold throughout. |
| `ErrorClassifier.FirstInvalidToken` | src/server.service.ts:36-46 | A first `{status: 'Unauthorized', message: 'Invalid token here'}` error emits on both channels, sets the latch and rejects with that body. |
| `Service.ResMap` | src/server.service.ts:48 | The result is `EmptyText` exactly when the status is 204; otherwise it is the parsed body. |
| `Service.ResMapBody` | src/server.service.ts:48 | The body of a 204 response is ignored, and any other body passes through unchanged. |
| `Service.InitialTimeout` | src/server.service.ts:27-29 | The default timeout is `timeoutToAll` when that is truthy and unset otherwise. The `8000` fallback is never chosen, and the stored value is never 0. |
| `Service.ServerService.constructor` | src/server.service.ts:24-29 | The service starts with the latch unset, no notifications and the default timeout from `InitialTimeout`. |
| `Service.ServerService.GetTimeout` | src/server.service.ts:51-53 | The stored default timeout is never 0. |
| `Service.ServerService.EffectiveTimeout` | src/server.service.ts:105 | A truthy per-call timeout wins; a falsy one falls back to the stored default. `undefined` is passed to `timeout` only when neither is set. A zero timeout is never passed. |
| `Service.ServerService.ErrorAF` | src/server.service.ts:30-47 | The new latch and logs, and the thrown value, are those of `Classify` on the old state. The class invariant is kept. |
| `Service.ServerService.PrepareRequest` | src/server.service.ts:74-93 | The URL is always `url + QueryString(params)`. The headers are the caller's own object (or a new one) with the token appended when authenticated, passed unchanged when not, and a new empty set when the lookup failed. |
| `Service.ServerService.Perform` | src/server.service.ts:101-166 | A call sends the prepared URL and headers with the effective timeout, and leaves the caller's header object untouched unless authenticated. A response resolves with `ResMap` and leaves the state alone. An error rejects and updates the state as `ErrorAF` does. |

## Left out

- The Angular `Http` calls and the rxjs chain (`map`, `timeout`, `catch`, `toPromise`) are not modelled; in particular, what `timeout(undefined)` does is not modelled. The transport's answer is the `reply` parameter of `Perform`, and a timeout is an error named `TimeoutError`. The real race between the call and the timer is not modelled.
- The asynchronous auth lookup (`isLogged`, `getToken`) comes from an external package that is not part of this model. Its outcome is the `AuthOutcome` input. `Failed` covers both a rejected lookup and a `getToken` that throws.
- The five public methods `get`, `put`, `post`, `patch` and `delete` differ only in the verb, the request body and their parameter order. `Perform` models all five, taking the verb and an optional body.
- `JSON.parse` and `res.json()` are not modelled. A parsed document is the abstract `JsonValue`: a falsy value, or a record whose `status` and `message` are kept only when they are strings. A `message` that is an array (where `Array.includes` would apply) is not modelled. A `res.json()` that throws on a success response is not modelled.
- `Service.ResMap`: in the program a non-204 response whose body parses to `''` also resolves with `''`; the model keeps such a body as the parsed `FalsyValue` rather than as `EmptyText`.
- `EventEmitter` delivery to subscribers is not modelled. Each channel is an append-only log on the class.
- The `onServerError` emitter is declared but never emitted, so it has no behaviour to verify.
- Query values are limited to `null`, `undefined`, booleans, integers and strings. Floating-point numbers, `NaN`, exponent notation for very large numbers, and objects or arrays as values are not modelled. The entries are taken in the order `for...in` visits them; JavaScript's own key ordering (integer-like keys first) is not modelled. A truthy `params` that is not a plain object is not modelled.
- Header names are compared exactly. Angular's case-insensitive header lookup is not modelled.
- Concurrent calls that race on the latch are not modelled. Calls are handled one after another.
- `src/index.ts` is module and provider wiring only and is not part of this model.
