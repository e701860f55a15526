# express-error-middleware, modelled in Dafny

express-error-middleware is an Express error handler. The factory `handleErrors(options)` (exported as `errorHandlingMiddleware` from the compiled `dist/express-error-middleware.js`) keeps a reference to a list of log levels. It returns a handler that does four things for each failed request:

- derives an HTTP status from the raised value (a defined `status` of an object, else the number itself, else 500);
- sets that status on the response;
- writes one coloured, timestamped line to `console.error` when the gate allows it: `error` is configured and the status is 500 or more, or `info` is configured and the status is below 500;
- calls `next` once, with a non-`Error` object as it is and anything else as `{status, message}`.

A direct `log(kind, text)` writes a coloured line to `console.log` without any gating.

The TypeScript source and its compiled JavaScript twin have the same logic line for line, so one model covers both. The line correspondence is: ts:11-19 ↔ js:7-16 (`color`), ts:22-24 ↔ js:17-19 (`statusToMessage`), ts:26-30 ↔ js:20-23 (`log`), ts:32-48 ↔ js:24-39 (`logRequest`), ts:50-59 ↔ js:40-47 (`middleware`), ts:62-68 ↔ js:50-55 (factory), ts:70-72 ↔ js:57-60 (exported `log`).

Files:

- `Wrappers.dfy`: `Option`, used for JavaScript's `undefined`.
- `Decimal.dfy`: the decimal text of an integer, as JavaScript's string concatenation writes it for integers up to 2^53 in magnitude, and a parser that inverts it.
- `ErrorMiddleware.dfy`: the data model, formatting, the handler's decisions, the Express plumbing (`Response`, `Console`, `Next`) and the level array (`LevelList`), the handler methods and worked requests.

Modelling choices:

- The raised value is `RawError = Num(n) | Obj(status, message, isError, fields) | Str(s) | Other(shown)`. It replaces `typeof` and `instanceof Error`. `None` stands for an undefined `status` or `message`.
- The `statuses` package is a `map<int, string>` of reason phrases. `Lookup` stands for `Statuses[status]`: the raw entry, `None` when the code is absent. `statusToMessage` tests the entry for truthiness, so an empty phrase counts as absent there. The value forwarded to `next` uses the raw entry, so there an empty phrase is kept.
- The console is two append-only sequences: `stdout` for `console.log` and `stderr` for `console.error`. The timestamp from `new Date().toISOString()` is a parameter.
- `next` is an object that records every value it receives. `res.status(code)` sets `Response.statusCode`.
- The `logLevel` array is a `LevelList` object. The factory keeps a reference to the caller's array, not a copy, so a later `push` by the caller changes what later requests log (`PushAfterFactoryTakesEffect`).

`[]` is not replaced by the default: `options.logLevel` is tested for truthiness (ts:63, js:51) and an empty array is truthy, so `[]` is kept and nothing is logged (`EmptyLevelsLogNothing`).

## Model

| member | source | states |
|---|---|---|
| `ErrorMiddleware.DeriveStatus` | src/express-error-middleware.ts:51 | An object with a defined `status` yields exactly that status, whatever its other fields and whether or not it is an `Error`. A number yields itself. A string, any other value, or an object without `status` yields 500. Every input yields a status. |
| `ErrorMiddleware.Response.SetStatus` | src/express-error-middleware.ts:52 | `res.status(code)` leaves `statusCode` equal to `code`. |
| `ErrorMiddleware.FilterCountsOccurrences` | src/express-error-middleware.ts:54 | `level.filter((v) => v == x)` keeps exactly as many elements as `x` occurs in the list. |
| `ErrorMiddleware.GateTruthTable` | dist/express-error-middleware.js:43 | The gate written with two filters holds iff (`error` is in the list and status ≥ 500) or (`info` is in the list and status < 500). |
| `ErrorMiddleware.GateIsOutcomeConfigured` | src/express-error-middleware.ts:54-55 | A request is logged iff the level it would be logged at (`info` below 500, `error` from 500 up) is in the configured list. |
| `ErrorMiddleware.WarningOnlyNeverLogs` | src/express-error-middleware.ts:54 | A level list holding only `warning` (or nothing) never logs a request line. |
| `ErrorMiddleware.WarningIrrelevant` | dist/express-error-middleware.js:43 | Two level lists that hold the same levels apart from `warning`, in any order and number, log the same requests. |
| `ErrorMiddleware.OutcomeLevel` | src/express-error-middleware.ts:55 | The logged level is never `warning`. It is `info` exactly when the status is below 500 and `error` otherwise: the server-error class of section 15.6 of RFC 9110 (500–599), and codes of 600 and up, which RFC 9110 calls invalid, too. |
| `ErrorMiddleware.Normalize` | src/express-error-middleware.ts:58 | `next` receives the input itself exactly when it is a non-`Error` object. Otherwise it receives `{status, message}` with the derived status and the raw table entry for it, which may be undefined. |
| `ErrorMiddleware.ForwardedStatusIsResponseStatus` | src/express-error-middleware.ts:51-58 | Whatever `next` receives never reports a status different from the response's; a passed-through object without `status` reports none. |
| `ErrorMiddleware.ForwardedMessageIsNotFallback` | dist/express-error-middleware.js:46 | The forwarded message is the raw table entry: undefined for an unknown code, never the `"Unknown status"` fallback, and an empty entry is forwarded although the log text replaces it. |
| `ErrorMiddleware.LoggedAndForwardedMessages` | src/express-error-middleware.ts:58 | For a bare status code, the message `next` receives equals the logged detail exactly when the table's entry is present and non-empty; otherwise the log says `"Unknown status "` and the code while `next` receives the raw entry. |
| `ErrorMiddleware.StatusToMessage` | src/express-error-middleware.ts:22-24 | The result is the table entry when it is present and non-empty, else `"Unknown status "` followed by the code in decimal; it is never empty. |
| `ErrorMiddleware.StatusToMessageNamesCode` | dist/express-error-middleware.js:17-19 | The fallback text starts with `"Unknown status "` and the code can be read back from the rest. |
| `Decimal.ParseShowInt` | src/express-error-middleware.ts:23 | The decimal text of any integer parses back to that integer. |
| `Decimal.ShowIntInjective` | src/express-error-middleware.ts:33 | Distinct status codes are written as distinct texts in `(code)` and in the fallback message. |
| `ErrorMiddleware.UncolorColor` | src/express-error-middleware.ts:11-19 | `color(c, text)` wraps `text` in the five-character code for red (`ESC[31m`), yellow (`ESC[33m`) or blue (`ESC[34m`) and in `ESC[0m`; stripping them gives back the colour and the text. |
| `ErrorMiddleware.ColorInjective` | dist/express-error-middleware.js:7-16 | Two coloured texts are equal only when both the colours and the texts are equal. |
| `ErrorMiddleware.RequestTagIsLogPrefix` | src/express-error-middleware.ts:27 | The direct logger's prefix (`error` red `ERROR`, `warning` yellow `WARNING`, otherwise blue `INFO`) is the same coloured word that `logRequest` builds for that level. |
| `ErrorMiddleware.LogLineSeverity` | src/express-error-middleware.ts:26-30 | A direct log line `ts - PREFIX - text` is read back at the level it was given when the timestamp has no space, as an ISO-8601 timestamp has none. |
| `ErrorMiddleware.RequestLineSeverity` | src/express-error-middleware.ts:33 | A request line `ts - LEVEL - method url (code) - detail` is read back at the level it was given. |
| `ErrorMiddleware.RequestLogShape` | src/express-error-middleware.ts:54-56 | A request adds at most one line, exactly one when its outcome level is configured, and that line reads back at the outcome level and never at `warning`. |
| `ErrorMiddleware.Log` | dist/express-error-middleware.js:20-23 | `log(kind, text)` appends `ts - PREFIX - text` to stdout with no gating and leaves stderr unchanged. |
| `ErrorMiddleware.LogRequest` | src/express-error-middleware.ts:32-48 | `logRequest` appends one line to stderr whose detail is `statusToMessage(err)` for a number, `err.message` for an object and the value itself otherwise. |
| `ErrorMiddleware.Middleware` | src/express-error-middleware.ts:50-59 | The response status becomes the derived status unconditionally, and that is the code in the logged line. Stderr gains exactly the gated request line. Stdout is untouched. `next` is called exactly once, with the normalised value. |
| `ErrorMiddleware.ConfiguredLevels` | src/express-error-middleware.ts:63 | The contents of a supplied `logLevel` are kept unchanged, the empty list included; a missing one becomes the three levels `error`, `warning`, `info`. |
| `ErrorMiddleware.DefaultLogsEveryRequest` | dist/express-error-middleware.js:51 | With the default levels every failed request is logged, whatever its status. |
| `ErrorMiddleware.EmptyLevelsLogNothing` | src/express-error-middleware.ts:63 | With `logLevel: []` the list stays empty and no request is logged. |
| `ErrorMiddleware.ErrorHandler.HandleErrors` | src/express-error-middleware.ts:62-68 | The factory keeps the caller's own `logLevel` array (the same object, not a copy), or a fresh array of the three default levels when none is supplied. |
| `ErrorMiddleware.ErrorHandler.Handle` | dist/express-error-middleware.js:52-54 | Each call of the returned handler behaves as `middleware` with the array's contents at the time of the call. The handler itself keeps no state between calls. |
| `ErrorMiddleware.PushAfterFactoryTakesEffect` | src/express-error-middleware.ts:63-66 | A level pushed onto the caller's array after the factory has run takes effect on later requests: with `["error"]` then `push("info")`, a 404 is logged at `info`. |
| `ErrorMiddleware.NumberNotFound` | src/express-error-middleware.ts:37-38 | Raising `404` with `["info"]` logs one `info` line with code 404 and the reason phrase, and forwards `{404, "Not Found"}`. |
| `ErrorMiddleware.PlainObjectServiceUnavailable` | src/express-error-middleware.ts:40-41 | Raising `{status: 503, message: "db down"}` with `["error"]` logs one `error` line with code 503 and "db down", and forwards the object itself. |
| `ErrorMiddleware.ErrorInstanceWithoutStatus` | src/express-error-middleware.ts:58 | An `Error` without `status` gives 500 and logs its own message, but forwards the reason phrase for 500. |

## Left out

- `null` as the raised value: `typeof null` is `"object"` and reading `err.status` then throws. `RawError` has no null case.
- Non-integer numbers (fractions, `NaN`, `Infinity`) are not modelled.
- Decimal.ShowInt: writes every digit of the integer, so it matches JavaScript only up to 2^53 in magnitude. Above that JavaScript prints the shortest digits that identify the number, padded with zeros (`2**60` prints as `1152921504606847000`), and from 10^21 up it uses exponent notation; many such integers are not JavaScript numbers at all.
- A `status` property that is not a number (a string, `null`) and a `message` that is not a string are not modelled. `status` is an optional integer and `message` an optional string.
- The string conversion of values other than numbers, objects and strings (`undefined`, booleans, functions, bigints) is taken as given in `Other(shown)`.
- A Symbol as the raised value is not modelled: it has no implicit string conversion, so when `error` is configured, `logRequest` throws a TypeError at ts:45 (js:36) after the status is set, and `next` is never called; otherwise `next` receives `{status: 500, message: Statuses[500]}`.
- `LogLevel` is limited to the three declared names (dist/express-error-middleware.d.ts:7). Callers of the untyped JavaScript can pass others: `log("debug", text)` prints a blue `INFO` prefix (js:21), and an unknown name in `logLevel` is ignored by the gate as `warning` is (js:43).
- `handleErrors()` called without an options object throws a TypeError at ts:63; `Options` always exists in the model.
- `console.log`, `console.error` and the clock are replaced by the appended `stdout`/`stderr` sequences and a timestamp parameter. Line atomicity across concurrent requests is not modelled.
- Express itself is reduced to `method`, `originalUrl`, a `statusCode` field that `status(code)` sets, and the recorded `next` calls. A response status validation that some Express versions perform is not modelled.
- The `statuses` package is the `phrases` map parameter.
- The per-call `new ErrorHandlingMiddleware()` is dropped: the class has no fields, so its methods are module-level functions and methods here.
- `dist/express-error-middleware.d.ts` declares types only.
