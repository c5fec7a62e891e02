# bunyan-express-middleware request logging, in Dafny

This project models the request-logging middleware of `lib/index.js`.

- `loggerCreator(logger, options)` checks that the logger has the methods `error`, `warn` and `info`.
- It then returns `bunyanMiddleware(req, res, next)`.
- For each request, that middleware:
  - stores a fresh id as `req.id`;
  - resets `req.logs` and `res.logs` to `{}`;
  - registers `logging` with `res.once` for both `finish` and `close`;
  - calls `next`.
- Each time it runs, `logging` builds one record with an `Object.assign` over the field extractors. It then calls `logger.error`, `logger.warn` or `logger.info`, chosen by the response's status code.

Modules, one per concept:

- `Base`: `Option`, `Result` and a sequence map.
- `JsObjects`: JavaScript values and plain objects.
  - A plain object is a finite map.
  - `Get` reads a property, giving `undefined` when it is absent.
  - `Pick` is lodash `fp.pick`.
  - `Assign` is `Object.assign` onto `{}`, where later arguments win.
- `Decimal`: the decimal text of a natural number, and parsing it back.
- `Version`: the `"<major>.<minor>"` string of `getReqHttpVersion`, and a parser that inverts it.
- `Levels`: `defaultLevelFn`.
- `Extractors`: the request and the response, each extractor, and the record they assemble.
  - Record keys are a `Prop` enumeration.
  - `Extractors.Name` gives each key's JavaScript spelling. Distinct keys have distinct spellings (`Extractors.NameInjective`), so keys that differ in the model differ as JavaScript properties.
- `RecordProperties`: what the assembled record holds. It rests on one argument: each key comes from exactly one extractor, so the merge order never decides a value.
- `Middleware`: the factory, and one request's life as a state machine.
  - `Setup` covers what happens before `next`.
  - `Step` and `Run` apply what handlers and the response do afterwards.
  - There is one flag per `once` listener.
  - `Serve` runs a request and returns the logger calls it makes.

## Completion and header precedence

1. **Completion.** The code (`lib/index.js:116-117`) registers `logging` with two independent `res.once` listeners, one for `finish` and one for `close`. Nothing removes the other listener when one runs, so a response that emits `finish` and then `close` is logged twice (`RequestLogCount`, `FinishThenCloseLogsTwice`). The model proves one log per signal received, at most two, and does not claim exactly-once.
2. **Header precedence.** The basic headers' map is the later `Object.assign` argument (`lib/index.js:103-104`), so the basic headers win a name both maps hold (`ReqHeadersPrecedence`). Both maps read the same `req.get`, so the merged values are the same either way (`ReqHeadersContents`).

## Model

| member | source | states |
|---|---|---|
| `JsObjects.Pick` | lib/index.js:13-17 | `fp.pick(keys)(o)` has exactly the listed keys that `o` has, each with `o`'s value. |
| `JsObjects.AssignKeys` | lib/index.js:94-110 | A key is in the merge of several objects exactly when some argument has it. |
| `JsObjects.AssignLastWins` | lib/index.js:94-110 | The merge holds, for a key, the value of the last argument that has it. |
| `JsObjects.AssignOwned` | lib/index.js:94-110 | When each key can appear in only one argument, the merge has the key exactly when that argument has it, with that argument's value. |
| `JsObjects.AssignPair` | lib/index.js:103-104 | Merging two objects gives the union of their keys. The second object's values win, and keys only in the first keep its values. |
| `Decimal.NatToString` | lib/index.js:34 | A number's text is all digits, is one character exactly when the number is below ten, and has no leading zero. |
| `Decimal.ParseNatToString` | lib/index.js:34 | Parsing a number's decimal text gives the number back. |
| `Decimal.NatToStringInjective` | lib/index.js:34 | Different numbers have different decimal texts. |
| `Version.VersionRoundTrip` | lib/index.js:32-36 | `"<major>.<minor>"` parses back to `(major, minor)`. |
| `Version.VersionStringInjective` | lib/index.js:32-36 | Two version strings are equal only when both numbers are equal. |
| `Levels.LevelFor` | lib/index.js:61-68 | `error` exactly for a status of 500 or more, and `warn` exactly for 400 to 499. `info` exactly for an absent status or one below 400. |
| `Levels.LevelMonotone` | lib/index.js:61-68 | A higher status never selects a less severe level. |
| `Extractors.NameInjective` | lib/index.js:94-110 | Two keys with the same JavaScript spelling are the same key. So the thirteen record keys are thirteen distinct property names. |
| `Extractors.HeaderFields` | lib/index.js:51-58 | `getHeaderFields(fields)(req)` has exactly the names in `fields` as keys, each mapped to `req.get` of that name, which may be `undefined`. |
| `Extractors.ReqHeadersContents` | lib/index.js:46-59 | `req_headers` has exactly the configured names and `referer` and `user-agent`, each with `req.get`'s value. |
| `Extractors.ReqHeadersPrecedence` | lib/index.js:103-104 | The basic headers' map decides every name it holds. A configured name outside the basic set keeps the configured entry. |
| `Extractors.ReqHeadersDefault` | lib/index.js:82-83 | With no configured headers, `req_headers` has exactly the keys `referer` and `user-agent`. |
| `RecordProperties.OwnedKeys` | lib/index.js:94-110 | The keys some extractor produces are exactly the thirteen record keys. |
| `RecordProperties.PartsOwned` | lib/index.js:94-110 | No two arguments of the record's `Object.assign` can produce the same key. |
| `RecordProperties.RecordKeyFromOwner` | lib/index.js:94-110 | Each record key is present exactly when its one extractor produced it, and then holds that extractor's value. |
| `RecordProperties.RecordKeysBounded` | lib/index.js:94-110 | The record's keys are among `req_id`, `statusCode`, `method`, `url`, `originalUrl`, `ip`, `response_time`, `http_version`, `req_headers`, `req_query`, `path`, `logs`, `res_logs`. |
| `RecordProperties.RecordRequestId` | lib/index.js:5-11 | `req_id` is always present and holds the id generated for the request. |
| `RecordProperties.RecordResponseTime` | lib/index.js:38-44 | `response_time` is always present and holds the elapsed time measured at completion. |
| `RecordProperties.RecordHttpVersion` | lib/index.js:32-36 | `http_version` is always present and holds `"<major>.<minor>"`. |
| `RecordProperties.RecordHeaders` | lib/index.js:103-104 | `req_headers` is always present and holds the merged header map. |
| `RecordProperties.RecordQuery` | lib/index.js:24-28 | `req_query` is always present. It is `{query: req.query}` when the request has a query, and `{}` otherwise. |
| `RecordProperties.RecordResLogs` | lib/index.js:18-22 | `res_logs` is always present and holds `res.logs`, `undefined` when absent. |
| `RecordProperties.RecordStatus` | lib/index.js:13 | `statusCode` is present exactly when the response has one, with its value. |
| `RecordProperties.RecordMethod` | lib/index.js:14 | `method` is present exactly when the request has one, with its value. |
| `RecordProperties.RecordUrls` | lib/index.js:15 | `url` and `originalUrl` are each present exactly when the request has it, with its value. |
| `RecordProperties.RecordIp` | lib/index.js:16 | `ip` is present exactly when the request has one, with its value. |
| `RecordProperties.RecordPath` | lib/index.js:30 | `path` is present exactly when the request has one, with its value. |
| `RecordProperties.RecordReqLogs` | lib/index.js:17 | `logs` is present exactly when the request has it, with its value. |
| `Middleware.Create` | lib/index.js:77-83 | Construction succeeds exactly when a logger is given and has `error`, `warn` and `info`. Otherwise it fails with the source's message. On success it keeps the logger and the configured header names. |
| `Middleware.DefaultHeaderKeys` | lib/index.js:82-83 | A middleware built with no `options`, or with `options` that have no `headers`, logs `req_headers` with exactly the keys `referer` and `user-agent`. |
| `Middleware.CreatedLoggerHasLevels` | lib/index.js:79-81 | A logger accepted by the factory has the method of every level. |
| `Middleware.LoggingLevel` | lib/index.js:112-114 | The level `logging` uses, read from the record's `statusCode`, is the one the response's status code selects. |
| `Middleware.Setup` | lib/index.js:84-91 | After setup:<br>- `req.id` is the fresh id;<br>- `req.logs` and `res.logs` are `{}`;<br>- every other request and response property is present exactly when it was, with the same value;<br>- the status, the protocol version and the header accessor are unchanged;<br>- the configured header names are the middleware's;<br>- both listeners are registered;<br>- nothing is logged yet;<br>- `next` has been called once. |
| `Middleware.Step` | lib/index.js:116-117 | A signal runs `logging` exactly when its own listener is still registered. Only that listener is removed. Other events log nothing. The id, the header names, the `next` count, the protocol version and every request property but `logs` never change. |
| `Middleware.RunArmed` | lib/index.js:116-117 | A listener is still registered exactly when its signal has not come yet. |
| `Middleware.RunFiredCount` | lib/index.js:116-117 | The number of `logging` runs equals the number of listeners spent, and is never more than two. |
| `Middleware.RequestLogCount` | lib/index.js:116-118 | After any events, `logging` has run once for each signal that came, and `next` was called exactly once. |
| `Middleware.FinishThenCloseLogsTwice` | lib/index.js:116-117 | `finish` then `close` logs twice. `finish` twice logs once. |
| `Middleware.RunState` | lib/index.js:87-91 | After any events:<br>- `req.id` is still the setup id;<br>- `req.logs` and `res.logs` hold exactly what handlers wrote into them after setup;<br>- the status is the last one set. |
| `Middleware.CompletionFires` | lib/index.js:92-117 | A signal not yet seen runs `logging` once more, on the request and response as they are at that moment. |
| `Middleware.LoggedRequestId` | lib/index.js:89 | The `req_id` of a logged record equals the `req.id` set at setup. |
| `Middleware.LoggedLogs` | lib/index.js:108-109 | The `logs` and `res_logs` of a logged record are the objects setup reset to `{}`, with every entry handlers added before completion. |
| `Middleware.RunFrame` | lib/index.js:84-117 | After any of the modelled events, every request property but `logs` is present exactly when it was before, with the same value. Modelled handlers change only `logs`. |
| `Middleware.RunVersion` | lib/index.js:84-117 | No modelled event changes the request's protocol version. |
| `Middleware.LoggedRequestFrame` | lib/index.js:84-117 | The request a completion logs has, for every property other than `id` and `logs`, what the request had as setup left it. Modelled handlers change only `logs`. |
| `Middleware.LoggedRequestVersion` | lib/index.js:84-117 | The request a completion logs has the protocol version of the request setup received. |
| `Middleware.LoggedPick` | lib/index.js:14-30 | `method`, `url`, `originalUrl`, `ip` and `path` of a logged record are each present exactly when the request as setup left it has them, with its values. Modelled handlers change only `logs`. |
| `Middleware.LoggedHttpVersion` | lib/index.js:32-36 | The `http_version` of a logged record is the `major.minor` of the request setup received. |
| `Middleware.LoggedQuery` | lib/index.js:24-28 | The `req_query` of a logged record is `{query: req.query}` when the request as setup left it has a query, and `{}` otherwise. Modelled handlers change only `logs`. |
| `Middleware.LoggedLevel` | lib/index.js:112-114 | A completion logs at the level selected by the last status set, through a method the accepted logger has. |
| `Middleware.Serve` | lib/index.js:84-118 | Serving a request returns the logger calls of the completions, in order. Their number is one per signal that came. |

## Left out

- Middleware.RunFrame: holds only because the modelled events write nothing but `logs`. In Express, handlers and the framework itself can change `url`, `path`, `method` and `query` before the response completes. A router mounted with `app.use('/api', router)` strips the mount path from `req.url`, and so from `path`, and method-override rewrites `method`. `logging` reads these properties at completion, so the record holds the values at that moment, not the ones setup saw. The model's `Logged…` lemmas about these keys speak of the request as setup left it.
- Decimal.NatToString: writes every natural number as plain digits. JavaScript's `${n}` prints a Number of 1e21 or more in exponent form (`1e+21`), and loses integer precision above 2^53. Neither case arises for the one-digit HTTP version numbers Node's parser produces.
- `uuid.v1()` is not modelled. The fresh id is the `freshId` parameter of `Setup` and `Serve`.
- `process.hrtime` and the floating-point `response_time` arithmetic are not modelled. The elapsed time is an uninterpreted value carried by each completion event.
- `req.get` is an abstract total function from a header name to a value. Express's case-insensitive header lookup is left out.
- How Express computes `req.ip`, `req.path` and the URL variants is left out. They are plain request properties.
- `req.logger = logger` (`lib/index.js:87`) is plumbing that `logging` never reads.
- `fp.clone` of the options (`lib/index.js:82-83`) is shallow, so `pOptions.headers` is the caller's own array. If the caller later changes that array, the logged headers change. The model fixes the header names at construction and leaves that sharing out.
- Each logged record is a snapshot taken when `logging` runs. JavaScript's sharing of the `logs` objects by reference, after a record has been emitted, is left out.
- The order of keys in a JavaScript object is left out. Records are finite maps.
- Inherited properties, which lodash `pick` also copies, are left out. Objects have only their own properties.
- The status code is an optional integer. A non-number `statusCode` and JavaScript's coercion of it in `>=` are left out.
- Handlers are modelled through a fixed set of events:
  - setting the status;
  - writing an entry into `req.logs` or `res.logs`;
  - the response signalling `finish` or `close`.
- Other handler behaviours are left out. Two examples:
  - a handler replacing `req.id` or the `logs` objects wholesale;
  - exceptions a handler or the logger throws.
- The logger is its set of method names. What its methods do with a record is left out.
- EventEmitter details beyond one registered-or-not flag per `once` listener are left out.
