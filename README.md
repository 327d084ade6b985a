# OhCrash client, modelled in Dafny

This project models the OhCrash error-reporting client (`index.js`). The client hooks
into a JavaScript host's global error channels and reports each captured error to the
OhCrash service over HTTP. In Node.js it listens for `uncaughtException` and
`unhandledRejection` on `process`. In a browser it takes over `window.onerror`. After
the report of an uncaught exception is delivered, it may call `process.exit(1)`.

Files:

- `wrappers.dfy`: `Option` and `Result`.
- `json.dfy`: the JavaScript values the client touches, and JavaScript falsiness.
- `config.dfy`: the constructor's `options`, the API-key check and the endpoint default.
- `payloads.dfy`: the pure builders. `report` builds a payload; `send` builds a request descriptor.
- `hooks.dfy`: the hook manager and the exit decision as functions of the host state, with lemmas.
- `runtime.dfy`: the `Host` class. It holds the listener lists, the `window.onerror` slot and a log of effects (console lines, fetches, calls of a displaced handler, exits).
- `client.dfy`: the `Client` class, the two ways of constructing it, `enable`/`disable`, the three handlers, `report` and `send`.
- `scenarios.dfy`: whole-client runs mirroring the repository's tests and the exit decision, proved from the method contracts.

`Enable`, `Disable` and the per-channel bind and unbind methods of `Client` state the
new listener lists and window slot as functions from `hooks.dfy` applied to the old
ones. The lemmas about those functions carry the promises: enable-then-disable round
trips, one registration per `enable`, the window slot, and when the client exits.
`Send`, `Report` and the three handlers state the effects they append to the host's
log, built with the functions of `payloads.dfy`; `OnReportSettled` decides its exit
with `ShouldExit` from `hooks.dfy`.

What the client does and does not do:

- It sends `{name, message, stack, metaData, props}`. An array argument becomes `props.labels`; any other argument becomes `metaData`. It does not merge global or runtime props into one flat `props`.
- It never deregisters its handler before reporting, and it does not guard against exiting twice. It checks the listener count only after a delivered report, and it never exits when delivery fails.
- It does not guard against reporting its own delivery failures. The promises returned by `report` in the rejection and window handlers are dropped, and the `.then` promise of the exception handler has no rejection handler. A failed delivery therefore leaves an unhandled rejection. In Node.js, the client's own `unhandledRejection` listener reports that rejection, and it keeps doing so while delivery keeps failing.
- It does not restore an absent `window.onerror`, and `enable` is not idempotent.
- The constructor requires an API key, not an endpoint. The endpoint defaults to `https://api.ohcrash.com/v1`.

## Model

| member | source | states |
|---|---|---|
| Config.Configure | index.js:26-40 | Fails with the `TypeError` message exactly when the key is falsy. Otherwise it keeps the key, takes `{}` for missing options, and uses `options.endpoint` when that is truthy, else the default endpoint; the endpoint is never empty. |
| Payloads.ReportPayload | index.js:138-157 | Copies name, message and stack from the error. `props` has a `labels` key exactly when `data` is an array, and then the metadata is `{}`. Reading the data back from the payload gives `data`, with a falsy value turned into `{}`. |
| Payloads.ReportPayloadInjective | index.js:138-157 | For one error, two data values give the same payload if and only if they agree up to falsiness (every falsy value becomes `{}`). |
| Payloads.SendRequest | index.js:159-169 | The request is a `post` to the endpoint followed by `/errors`, with the endpoint recoverable from the URL. Its headers are exactly `authorization` (a bearer token giving back the API key) and `content-type: application/json`. The body is the payload. |
| Payloads.SendRequestInjective | index.js:159-169 | Two requests are equal if and only if their endpoints, keys and payloads are equal. |
| Hooks.LastIndex | index.js:90 | Gives the position of the last occurrence of the handler, or -1 exactly when it is absent; no later occurrence exists. |
| Hooks.RemoveLast | index.js:90 | `removeListener` removes the last occurrence of the handler when present: the result is the list with that one position cut out, so the other listeners keep their order, the multiset loses one copy and the length drops by one. It leaves the list unchanged when the handler is absent. |
| Hooks.RemoveLastUndoesAppend | index.js:88-92 | Removing a handler right after appending it restores the list. |
| Hooks.UnbindChannelEffect | index.js:88-98 | One `_unbind*` call changes only its own channel, and only when that channel's flag is not `false`. |
| Hooks.EnableAppendsOnce | index.js:47-56 | In Node.js, `enable` appends exactly one occurrence of the client's handler to each channel whose flag is not `false` and leaves the other lists as they were. In a browser it changes no list. |
| Hooks.DisableRemovesOnce | index.js:58-67 | In Node.js, each channel whose flag is not `false` becomes `RemoveLast` of its old list with the client's handler: one occurrence goes, if present, and the other listeners keep their order. Every other list is unchanged. |
| Hooks.EnableThenDisableRestores | index.js:47-98 | From any listener state, `enable` followed by `disable` restores every listener list exactly. |
| Hooks.DisableWithoutEnableIsNoop | index.js:88-98 | `disable` on a client whose handlers are not registered changes no listener list. |
| Hooks.EnableTwiceRegistersTwice | index.js:69-79 | Two `enable` calls add two occurrences of the handler: `enable` is not idempotent. |
| Hooks.EnableWindowInstalls | index.js:81-86 | With `windowOnError` on, `enable` installs the client's handler and keeps the displaced one in `_oldHandler`. |
| Hooks.WindowRoundTrip | index.js:81-104 | For a fresh client, `enable` then `disable` gives back the original `onerror` if and only if one existed (or the channel is off or the host is not a browser). Otherwise the client's own handler stays installed. |
| Hooks.WindowSwitchedOffUntouched | index.js:81-104 | With `windowOnError: false`, neither `enable` nor `disable` changes `window.onerror`. |
| Hooks.EnableWindowTwiceLosesPrior | index.js:81-86 | A second browser `enable` stores the client's own handler in `_oldHandler`, and `disable` then leaves that handler installed. |
| Hooks.SoleListenerExits | index.js:111-119 | For a client that enabled itself as the only `uncaughtException` listener, a delivered report leads to exit if and only if `exit` is not `false`. |
| Hooks.OtherListenerPreventsExit | index.js:112-118 | When another `uncaughtException` listener exists, the client never exits. |
| Hooks.EnableTwicePreventsExit | index.js:69-73 | After two `enable` calls the count is two, so the client never exits. |
| Hooks.FailedDeliveryNeverExits | index.js:111-119 | A report that fails delivery never leads to exit: there is no rejection handler. |
| OhCrash.Client.constructor | index.js:38-45 | The new client holds the configured options, key and endpoint, has no `_oldHandler`, and has nothing pending. |
| OhCrash.Construct | index.js:26-45 | `new OhCrash` fails exactly as `Configure` does and then touches nothing. Otherwise it returns a fresh client with the configured settings. |
| OhCrash.CallWithoutNew | index.js:31-36 | Calling `OhCrash` without `new` fails exactly as `Configure` does, leaving the host unchanged. Otherwise it returns a fresh client that is already enabled. |
| OhCrash.Client.Enable | index.js:47-56 | The listener lists become `EnableListeners` of the old lists. The `onerror`/`_oldHandler` pair becomes `EnableWindow` of the old pair. |
| OhCrash.Client.Disable | index.js:58-67 | The listener lists become `DisableListeners` of the old lists. The window pair becomes `DisableWindow` of the old pair. |
| OhCrash.Client.BindUncaughtException | index.js:69-73 | Subscribes the client's exception handler unless `uncaughtExceptions` is `false`. |
| OhCrash.Client.BindUnhandledRejection | index.js:75-79 | Subscribes the client's rejection handler unless `unhandledRejections` is `false`. |
| OhCrash.Client.BindWindowOnError | index.js:81-86 | Unless `windowOnError` is `false`, it saves `window.onerror` in `_oldHandler` and installs the client's handler. |
| OhCrash.Client.UnbindUncaughtException | index.js:88-92 | Removes one occurrence of the client's exception handler unless `uncaughtExceptions` is `false`. |
| OhCrash.Client.UnbindUnhandledRejection | index.js:94-98 | Removes one occurrence of the client's rejection handler unless `unhandledRejections` is `false`. |
| OhCrash.Client.UnbindWindowOnError | index.js:100-104 | Restores `_oldHandler` into `window.onerror` only when there is one. |
| OhCrash.Client.Send | index.js:159-172 | Exactly one fetch of the request built from this client's endpoint and key. |
| OhCrash.Client.Report | index.js:138-157 | Exactly one fetch of the request carrying `ReportPayload(err, data)`. |
| OhCrash.Client.OnUncaughtException | index.js:106-111 | Logs the stack, then sends one report with no data, and schedules one exit check. |
| OhCrash.Client.OnReportSettled | index.js:111-119 | Records `exit(1)` exactly when the report was delivered, the `uncaughtException` listener count is exactly 1, and `exit` is not `false`. Otherwise it records nothing. |
| OhCrash.Client.OnUnhandledRejection | index.js:122-126 | Logs the stack and sends one report; it never exits. |
| OhCrash.Client.OnWindowError | index.js:128-136 | Logs the stack, calls the displaced handler once with the same error when there is one, and then sends one report. |
| Scenarios.MissingKey | test.js:18-24 | Without a key the call fails with the `TypeError` and registers no listener. |
| Scenarios.ReportUncaughtWithoutExit | test.js:151-170 | With `exit: false` an uncaught exception is logged and reported once with `{}` metadata and props, and nothing exits. `disable` leaves no listeners. |
| Scenarios.ExitWhenSoleListener | index.js:106-119 | With default options and the client as the only listener, the delivered report is followed by `exit(1)`. |
| Scenarios.NoExitWhenShared | index.js:111-119 | Nothing exits when another listener exists or when delivery fails. |
| Scenarios.UncaughtExceptionsSwitchedOff | test.js:172-180 | With `uncaughtExceptions: false`, `enable` registers no `uncaughtException` listener, while the rejection channel still gets one. |
| Scenarios.UnhandledRejectionsSwitchedOff | test.js:205-213 | With `unhandledRejections: false`, `enable` registers no `unhandledRejection` listener, while the exception channel still gets one. |
| Scenarios.WindowOnErrorChains | test.js:106-129 | The prior `onerror` is called once with the error before the single report, and `disable` restores it. |
| Scenarios.WindowSwitchedOff | test.js:131-142 | With `windowOnError: false`, `onerror` is unchanged after both `enable` and `disable`. |

## Left out

- The network call (`fetch`, its timeout and its failure modes) is not modelled. `send` records a `Fetched` effect holding the request descriptor. Whether delivery succeeded is the `delivered` argument of `OnReportSettled`.
- `JSON.stringify` of the body is not modelled: the body is the payload record itself.
- `console.log` is recorded as a `Logged` effect; output formatting is not modelled.
- The Promise polyfill and the `isarray` dependency are environment plumbing. An array is the `Arr` case of a value.
- Host detection (`typeof window`) is not modelled: the host's `isBrowser` constant is a parameter.
- The event loop and promise scheduling are replaced by an explicit `OnReportSettled` step for each report started by `OnUncaughtException`. `OnReportSettled` requires such a report to be pending.
- The host does not dispatch events: `process.emit` calling every listener in turn is not modelled. The client's handlers are invoked directly.
- Promises are not modelled. `report` returns no promise. A delivery failure rejects the promise returned by `.then`, which the host would raise as an `unhandledRejection`; that event is not modelled.
- `process.exit` is recorded as an `Exited` effect; ending the process is not modelled.
- OhCrash.Client.OnWindowError: the displaced handler's own behaviour is not modelled; the call is recorded as one `Invoked` effect. After two browser `enable` calls, the displaced handler is the client's own, and the source's handler would then call itself without bound.
- Configuration values are narrowed. A non-string `apiKey`, non-boolean option flags, non-string endpoints, fractional numbers and `NaN` are not modelled: the key is an optional string, flags are optional booleans and numbers are integers.
- An `err` of `null` or `undefined` is not modelled: reading `err.stack` throws (index.js:107, 123, 129). Any other `err` is represented only by the three fields the client reads, each undefined where absent. This includes the message string a browser passes as the first argument of `window.onerror`. The value passed on to a displaced handler is recorded as that `ErrorInfo`. The browser's other four `onerror` arguments are dropped, in the source as well.
- The client's settings are fixed at construction. The source keeps a reference to the caller's `options` object and reads its flags again on every `enable`, `disable` and exit check. Aliasing of that object, and later reassignment of `options`, `apiKey` or `endpoint`, are not modelled.
