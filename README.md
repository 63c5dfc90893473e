# anachronisync: optimistic concurrency for a model's `sync`

The repository's `index.js` exports a mixin factory. It takes a model class (or
its prototype) that already has a `sync(method, model, options)` and returns an
object holding a decorated `sync`. The decorated `sync`:

- replaces `options.success` and `options.error` with wrappers;
- adds the request header `if-unmodified-since` to `update` and `patch` requests
  of a model that already holds `_lastModified` (the conditional request of
  section 3.4 of RFC 7232);
- on success stores the `last-modified` response header (section 2.2 of RFC 7232)
  in `model._lastModified` and an object body in `model._serverState`, and
  triggers `sync:last-modified`;
- on a 412 Precondition Failed response (section 4.2 of RFC 7232) triggers
  `sync:invalid-last-modified` with the server's `last-modified` and the server's
  body, parsed leniently;
- then forwards to the caller's own callback with the same arguments: `error`
  only when it is a function, `success` whenever it is truthy. A 412 response
  without a content-type throws inside the error wrapper, before the caller's
  `error` runs.

The model is imperative, like the source:

- `Js` (js.dfy) holds the JavaScript values the decorator touches: truthiness,
  property reads, `typeof`, `indexOf`, thrown errors.
- `Anachronisync` (anachronisync.dfy) models `index.js` itself, with these classes:
  - `SyncModel` has the `_lastModified` and `_serverState` fields.
  - `Options` has `headers`, `success` and `error`.
  - `Decorator` holds the resolved base sync.
  - `Log` is one ordered record of everything observable: triggered events,
    calls of the caller's own callbacks, and the call of the base sync.
- The wrappers that `setupOptions` installs are the values `SuccessWrapper` and
  `ErrorWrapper`. A wrapper remembers the model and whatever callback it replaced.
  Running `sync` twice with the same options object stacks two wrappers, as the
  JavaScript does.
- The transport calls the wrappers later. `FireSuccess` and `FireError` model
  that call.
- The pure functions `SuccessRun`, `ErrorRun` and `OutOfSyncStep` specify what a
  stack of wrappers adds to the log and how the call completes. The methods are
  proved to match them.
- `AnachronisyncProperties` (properties.dfy) proves what the source promises
  about those functions. It also has two client methods: `ReadThenUpdate` and
  `UpdateConflict`. They run a read, then an update, then a 412 conflict.

The repository's tests (test/tester.js) exercise a newer API than `index.js`
implements: a configurable `type` defaulting to `etag` (test/tester.js:44), a
`_version` property and `sync:version` event (test/tester.js:149-190), and an
`invalidHandler` registered for `sync:invalid-version` (test/tester.js:247-279).
None of these exist in `index.js`, and the model follows `index.js`:

- Only `last-modified`, `_lastModified` and the `sync:last-modified` and
  `sync:invalid-last-modified` events are handled.
- There is no `invalidHandler`.
- The error wrapper is installed for every verb, not only for mutating ones.
- A body that fails to parse becomes `{}`, never the raw text.

## Model

| member | source | states |
|---|---|---|
| Js.IndexOf | index.js:5 | `mime.indexOf('json')` is the first position where the text occurs, and -1 exactly when it occurs nowhere |
| Js.IndexOfFrom | index.js:5 | the search from a position finds the first occurrence at or after it, or -1 exactly when there is none |
| Anachronisync.NewLastModified | index.js:23-24 | a new version is recorded exactly when the `last-modified` header is present and truthy, and it is that header's value |
| Anachronisync.PrototypeSync | index.js:36 | `base.prototype.sync` is usable exactly when `base.prototype` and its `sync` are both truthy, and it is then that `sync` |
| Anachronisync.ResolveBaseSync | index.js:36-37 | a truthy `base.prototype.sync` is preferred; otherwise a truthy `base.sync` is used; with neither, the factory throws the "existing sync" Error; a null or undefined base throws a TypeError; the resolved value is always truthy |
| Anachronisync.Mixin | index.js:35-39 | the factory throws whatever resolution throws; otherwise it returns a fresh decorator over the resolved base sync |
| Anachronisync.DecorateHeaders | index.js:43-46 | for update/patch on a truthy `_lastModified`: headers are created if absent, `if-unmodified-since` equals `_lastModified`, and every other entry is kept with its value; for every other verb or version the headers are left exactly as they were |
| Anachronisync.SetupOptions | index.js:13-33 | `options.error` and `options.success` become wrappers around their previous values for this model; the headers are untouched |
| Anachronisync.Decorator.Sync | index.js:40-48 | absent options become a fresh `{}`; the given options object is decorated in place, for every verb including read; headers follow DecorateHeaders; the base sync is called once with the same verb, model and the decorated options; whatever the base sync returns or throws comes back unchanged, after the options were decorated; calling a base sync that is not a function throws a TypeError and logs nothing |
| Anachronisync.StaleData | index.js:3-10 | the reported server state is the parsed body when the content-type contains "json" and parsing gives a truthy value, and `{}` otherwise; it is never falsy |
| Anachronisync.StaleWrite | index.js:1-11 | the event is `sync:invalid-last-modified(model, last-modified header or absent, StaleData)`; a TypeError is thrown exactly when the response has no content-type |
| Anachronisync.HandleOutOfSync | index.js:1-11 | appends exactly the one StaleWrite event to the log, or throws its TypeError and appends nothing |
| Anachronisync.OnErrorStatus | index.js:16-18 | on status 412 runs handleOutOfSync; on any other status does nothing |
| Anachronisync.SuccessRun | index.js:22-32 | the reference definition of a call of a stack of success wrappers: each wrapper returns undefined, anything the call throws is a TypeError (calling a value that is not a function), and each wrapper adds at most one entry, plus one for the caller's own call |
| Anachronisync.OutOfSyncStep | index.js:16-18 | an error wrapper's 412 step throws exactly on a 412 without content-type, then a TypeError with nothing logged; a status other than 412 logs nothing; a 412 with content-type logs exactly the StaleWrite event |
| Anachronisync.ErrorRun | index.js:15-20 | the reference definition of a call of a stack of error wrappers: each wrapper returns undefined, the only throw is a TypeError, and each wrapper adds at most one entry, plus one for the caller's own call |
| Anachronisync.FireSuccess | index.js:22-32 | the log grows by exactly SuccessRun's trace; every wrapped model gets `_lastModified` = header when the header is truthy and keeps it otherwise; `_serverState` becomes the data only when the header is truthy and the data is an object; nothing else changes |
| Anachronisync.FireError | index.js:15-20 | the log grows by exactly ErrorRun's trace, and the call completes as ErrorRun says; no model field is written (only the log is in its frame) |
| Anachronisync.ForwardError | index.js:19 | the wrapped error is run exactly when it is a function, and the call then completes and logs as ErrorRun says of it; otherwise nothing is logged and the call returns undefined |
| AnachronisyncProperties.SuccessEventsFollowHeader | index.js:22-30 | with a truthy `last-modified`, the i-th wrapper from the outside triggers the i-th event, `sync:last-modified` for its own model carrying that header; without it, nothing is triggered; nothing is triggered after the events |
| AnachronisyncProperties.SuccessForwardsOnce | index.js:31 | the caller's success is called exactly when it is a function: once, last, with identical `(data, status, xhr)`; the run throws only for a truthy value that is not a function or, with no wrapper, for any value that is not a function |
| AnachronisyncProperties.DecoratedSuccess | index.js:21-32 | the wrapper `sync` installs gives at most one `sync:last-modified(model, header)`, then the caller's success with identical arguments |
| AnachronisyncProperties.ErrorEventsFollowStatus | index.js:15-18 | a status other than 412 triggers nothing; a 412 makes the i-th wrapper from the outside trigger the i-th event, `sync:invalid-last-modified(its model, header-or-absent, StaleData)`; a 412 without content-type throws before anything is logged |
| AnachronisyncProperties.ErrorForwardsOnce | index.js:19 | the caller's error is called exactly when it is a function: once, last, with identical `(xhr, status, message)`; a value that is not a function is skipped; the run throws only on the missing content-type |
| AnachronisyncProperties.DecoratedError | index.js:14-20 | the wrapper `sync` installs triggers the stale-write event only on 412, and then calls the caller's error with identical arguments |
| AnachronisyncProperties.JsonBodyReported | index.js:5-8 | with content-type `application/json`, a body that parses to a truthy value is the reported server state |
| AnachronisyncProperties.HtmlBodyIgnored | index.js:5 | with content-type `text/html`, the body is not parsed and `{}` is reported |
| AnachronisyncProperties.MissingSyncMessageMentionsExistingSync | index.js:37 | the factory's error message contains "existing sync" |
| AnachronisyncProperties.MissingSyncError | index.js:36-37 | decorating `{}` throws an Error whose message contains "existing sync" |

## Left out

- The transport behind `base_sync` is left out. How the base sync's call completes (its return value or what it throws) is the parameter `answer` of `Sync`.
- Anachronisync.Decorator.Sync: a base sync's own `call` property is not modelled. A function base sync is called through the standard `Function.prototype.call`. A function whose `call` is overridden, or a non-function object with a callable `call`, behaves differently in JavaScript; the model treats both like any other function or non-function.
- When the transport calls `success` or `error` is left out. Each call is a separate `FireSuccess` or `FireError` call.
- The receiver (`this`) that `base_sync.call` passes on is not modelled.
- The event bus is reduced to an entry in the log. Listeners, and what they do when an event fires, are not modelled.
- `JSON.parse` is the parameter `parse`. `None` stands for a parse that throws.
- The caller's own callbacks are assumed to return normally. What they do besides being called is not modelled.
- Numbers are integers. NaN and fractional values, which affect truthiness, are not modelled.
- A truthy `options` value that is not an object is not modelled.
- A truthy `headers` value that is not an object is not modelled.
- A headers object shared between two options objects is not modelled, since headers are a map value.
- `getResponseHeader` ignores case. The model looks up lower-case header names only.
- Reading `base.prototype` twice assumes a plain property, not a getter.
- An options object whose `success` slot holds an error wrapper, or the reverse, is not modelled.
- Anachronisync.FireSuccess: its field postconditions speak of models allocated before the call. Every model a callback can name is one of those.
