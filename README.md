# botari-api server bootstrap: a Dafny model

This project models the parts of `initServer` (`src/index.ts`) in the
botari-api WhatsApp-automation server that make decisions:

- **Response interception** (module `Interception`). For every request, the
  context middleware replaces `res.send` with an override. When the
  *request's* `content-type` header is exactly `application/json`, the
  override does four things:
  - it parses the outgoing text;
  - it stamps a falsy `session` with the attached client's session, or `''`
    when there is no client;
  - when the payload names a `mapper` and `mapper.enable` is on, it replaces
    `response` with the mapper's result and deletes `mapper`;
  - it puts the original `send` back and forwards the result to it.

  The rewrite is the pure function `Rewrite`, built from `StampSession` and
  `ApplyMapper`. The patched response is the class `Response`. Its `slot`
  field says whether `res.send` holds the override (`Wrapped`) or the
  original (`Restored`), and `transmitted` logs what reached the original.
  `SendStep` and `SendAll` are the specification of one call and of a
  sequence of calls. The lemmas about `SendAll` show that, among calls that
  each complete before the next starts, at most one call is rewritten and
  every call before the first forwarded one is rewritten afresh.
- **Options normalisation** (module `Options`). A caller argument whose
  `typeof` is not `'object'` becomes `{}`. The defaults are deep-merged
  under it. The logger level is `options.log.level` when truthy, else
  `'silly'`.
- **Token route** (module `TokenRoute`). `POST
  /api/session/:session/generate-token` answers:
  - 401 with an error body and no token when `secretkey` is falsy or
    differs from `BOTARI_SECRET_KEY`;
  - 500 when the body cannot be destructured or signing throws;
  - otherwise 200 with `{session, token, expiresIn: '1h'}`.

JavaScript values are modelled by `Js.Value`, which covers JSON values plus
`undefined`, together with JavaScript truthiness and optional property
reads. The module is strict-mode code, so a property write on a primitive
throws.

Behaviour of the code that is easy to misread, and what the model does:
- The override tests the request header, not the response's, by exact string
  equality: `application/json; charset=utf-8` is passed through
  (`CharsetParameterNotRewritten`).
- `delete data.mapper` runs only when the mapper is enabled. With the feature
  off, the `mapper` field reaches the client (`Rewrite`, last-but-one
  ensures).
- A body that fails to parse raises before `res.send = oldSend` runs.
  The override then stays installed and nothing is forwarded (`SendStep`).
- A parsed `null` or primitive payload raises a `TypeError` instead of being
  forwarded (`StampSession`).

## Model

| member | source | states |
|---|---|---|
| `Interception.StampSession` | src/index.ts:68 | Succeeds exactly for objects and arrays; null, undefined and primitives raise a TypeError. An object keeps a truthy `session` and otherwise gets the client's session or `''`. No other field changes. An array goes out unchanged. |
| `Interception.ApplyMapper` | src/index.ts:69-76 | With a truthy `mapper` and the feature on, `response` becomes `convert(prefix, response, mapper)` and `mapper` is gone, all other fields kept. Otherwise the payload is unchanged, `mapper` included. |
| `Interception.Rewrite` | src/index.ts:64-77 | Forwarded verbatim exactly when the request content type is not exactly `application/json`. Unparsable text raises SyntaxError. Otherwise the parsed object goes out with the session, response and mapper rules applied, and no other field changes. |
| `Interception.CharsetParameterNotRewritten` | src/index.ts:65-66 | A request typed `application/json; charset=utf-8` is forwarded verbatim. |
| `Interception.StampsEmptySession` | src/index.ts:65-68 | Without a client, `{response: {ok: true}}` goes out as `{session: '', response: {ok: true}}`. |
| `Interception.MapsAndStampsReply` | src/index.ts:65-76 | With client session `abc` and the mapper on, `{response: {x: 1}, mapper: 'm1'}` goes out as `{session: 'abc', response: convert(prefix, {x: 1}, 'm1')}`. |
| `Interception.SendStep` | src/index.ts:62-80 | The original `send` forwards verbatim. The override forwards `Rewrite`'s result. The slot is restored exactly when something was forwarded; a raised error leaves the override installed. |
| `Interception.SendAll` | src/index.ts:78-79 | A sequence of `send` calls yields one outcome per call, the first being that of a single step from the current slot. |
| `Interception.RestoredForwardsVerbatim` | src/index.ts:78-79 | Once the original is back, it stays back and every call forwards its text unchanged. |
| `Interception.ForwardedOnce` | src/index.ts:62-79 | Among calls that each complete before the next starts: after any call has been forwarded, every later call is forwarded verbatim, so a response is rewritten at most once. |
| `Interception.FailedCallsAreRewritten` | src/index.ts:64-79 | Starting from the override, a call whose predecessors all raised gets exactly `Rewrite`'s outcome: a failed call leaves the override in place for the next. |
| `Interception.RestoredIffForwarded` | src/index.ts:62-79 | After a sequence of calls the slot holds the original exactly when it did before or some call was forwarded. |
| `Interception.Response.Install` | src/index.ts:62-64 | The middleware installs the override on a response that has transmitted nothing. |
| `Interception.Response.Send` | src/index.ts:64-80 | The new slot and the result are those of `SendStep`. The forwarded body, and only it, is appended to what the original `send` transmitted. |
| `Options.NormalizeArgument` | src/index.ts:31-33 | The result's `typeof` is `'object'`. It equals the argument exactly when the argument's `typeof` is `'object'` (null included), and is `{}` otherwise. |
| `Options.LogLevel` | src/index.ts:36-38 | Always truthy. It is `options.log.level` when that is truthy, and `'silly'` otherwise. |
| `Options.Normalize` | src/index.ts:31-38 | The effective options are `mergeDeep({}, defaults, argument)`, or `mergeDeep({}, defaults, {})` for a non-object argument. The level is truthy and follows the `log.level` rule on the merged options. |
| `Options.NonObjectArgumentYieldsDefaults` | src/index.ts:31-38 | If merging an empty override copies the defaults, a non-object argument yields exactly the defaults and their level (or `'silly'`). |
| `TokenRoute.SigningSecret` | src/index.ts:101 | Never empty. It is `JWT_SECRET` when that is set and non-empty, and `'botari_secret'` otherwise. |
| `TokenRoute.GenerateToken` | src/index.ts:93-110 | The status is 200, 401 or 500. 401 comes exactly when the body is readable and `secretkey` is falsy or differs from `BOTARI_SECRET_KEY`, with the error body. 200 comes exactly when the key matches and signing succeeds, and its body is exactly `{session, token, expiresIn: '1h'}` with `session` the path parameter and `token` the signed token. Any non-200 reply carries no token. |

## Left out

- The deep merge (`mergeDeep`), the response mapper (`convert`), `JSON.parse` and `jwt.sign` are foreign libraries. They are function parameters here. `mergeDeep` gets only the assumption "an empty override copies the defaults", in `Options.NonObjectArgumentYieldsDefaults`.
- Interception.ForwardedOnce, Interception.SendAll, Interception.RestoredIffForwarded and Interception.FailedCallsAreRewritten hold for `send` calls that each complete before the next starts. The override is an `async` function that suspends at `await convert(...)` before it restores the original `send`; a second `send` made during that suspension finds the override still installed, is rewritten and converted again, and whichever convert settles first is transmitted first. Parse and TypeError failures become rejected promises that the caller does not await, not exceptions the caller sees. Neither is modelled.
- `convert` is awaited in the source. The model treats it as a plain function that never rejects. The asynchrony, the interleaving with other requests and a hung mapper are not modelled.
- Serialisation is not modelled. This covers what the original `send` does with a parsed object (`res.json`), JSON key order, and the `session` property the override sets on an array payload (serialisation drops it, so the array is forwarded unchanged). Replies of the token route also pass through the override; the two are modelled separately.
- Numbers are reals. NaN never comes out of `JSON.parse`. `JSON.parse("-0")` does yield -0, which the model reads as `Num(0.0)`; both are falsy and both serialise as `0`, so nothing the model states changes. Property reads see only an object's own keys, not array indices or prototype properties such as `length`; the model reads only the keys the code names.
- A `send` argument that is not a string is not modelled. The handler-facing API (`res.json`) always passes text.
- A merged configuration without a `mapper` section, where `mapper.enable` would throw, is not modelled: `MapperOptions` is always present.
- The process-global writes (`defaultLogger.level`, `setMaxListners`, the AWS credentials copied into `process.env`) and `createFolders` are not modelled. The level is returned by `Options.Normalize` instead.
- Express and middleware wiring (CORS, body parsers, static files, boolean queries, routes), the health route, Socket.io and its connection logs, `http.listen`, `startAllSessions`, the token route's `console.error` of a caught exception and the log-level banner are I/O with no decision logic of their own.
