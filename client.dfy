/**
  The OhCrash client object: construction, `enable`/`disable` with their per-channel
  helpers, the three runtime handlers, `report` and `send`.
 */
module OhCrash {
  import opened Wrappers
  import opened Json
  import opened Config
  import opened Payloads
  import opened Hooks
  import opened Runtime

  class Client {
    /** The global `process`/`window` the client hooks into. */
    const host: Host
    const options: Options
    const apiKey: string
    const endpoint: string
    /** `_oldHandler`: the `window.onerror` displaced by the last `enable()`. */
    var oldHandler: Option<Handler>
    /** Reports of uncaught exceptions whose `.then` continuation has not run yet. */
    var pendingExitChecks: nat

    /** The body of `new OhCrash(apiKey, options)` once the key has been accepted. */
    constructor (s: Settings, host: Host)
      ensures this.host == host && Current() == s
      ensures oldHandler == None && pendingExitChecks == 0
    {
      this.host := host;
      options := s.options;
      apiKey := s.apiKey;
      endpoint := s.endpoint;
      oldHandler := None;
      pendingExitChecks := 0;
    }

    function Current(): Settings
    {
      Settings(options, apiKey, endpoint)
    }

    /** The bound handler `this._uncaughtException` and its siblings. */
    function Own(k: Kind): Handler
    {
      Bound(this, k)
    }

    function Window(): WindowSlot
      reads this, host
    {
      WindowSlot(host.onerror, oldHandler)
    }

    method Enable()
      modifies host`listeners, host`onerror, this`oldHandler
      ensures host.listeners == EnableListeners(options, host.isBrowser, this, old(host.listeners))
      ensures Window() == EnableWindow(options, host.isBrowser, this, old(Window()))
    {
      if !host.isBrowser {
        BindUncaughtException();
        BindUnhandledRejection();
      }
      if host.isBrowser {
        BindWindowOnError();
      }
    }

    method Disable()
      modifies host`listeners, host`onerror
      ensures host.listeners == DisableListeners(options, host.isBrowser, this, old(host.listeners))
      ensures Window() == DisableWindow(host.isBrowser, old(Window()))
    {
      if !host.isBrowser {
        UnbindUncaughtException();
        UnbindUnhandledRejection();
      }
      if host.isBrowser {
        UnbindWindowOnError();
      }
    }

    method BindUncaughtException()
      modifies host`listeners
      ensures host.listeners == BindChannel(options, this, old(host.listeners), UncaughtException)
    {
      if options.uncaughtExceptions != Some(false) {
        host.On(UncaughtException, Own(ExceptionHandler));
      }
    }

    method BindUnhandledRejection()
      modifies host`listeners
      ensures host.listeners == BindChannel(options, this, old(host.listeners), UnhandledRejection)
    {
      if options.unhandledRejections != Some(false) {
        host.On(UnhandledRejection, Own(RejectionHandler));
      }
    }

    method BindWindowOnError()
      modifies host`onerror, this`oldHandler
      ensures Window() == EnableWindow(options, true, this, old(Window()))
    {
      if options.windowOnError != Some(false) {
        oldHandler := host.onerror;
        host.onerror := Some(Own(WindowHandler));
      }
    }

    method UnbindUncaughtException()
      modifies host`listeners
      ensures host.listeners == UnbindChannel(options, this, old(host.listeners), UncaughtException)
    {
      if options.uncaughtExceptions != Some(false) {
        host.RemoveListener(UncaughtException, Own(ExceptionHandler));
      }
    }

    method UnbindUnhandledRejection()
      modifies host`listeners
      ensures host.listeners == UnbindChannel(options, this, old(host.listeners), UnhandledRejection)
    {
      if options.unhandledRejections != Some(false) {
        host.RemoveListener(UnhandledRejection, Own(RejectionHandler));
      }
    }

    method UnbindWindowOnError()
      modifies host`onerror
      ensures Window() == DisableWindow(true, old(Window()))
    {
      if oldHandler.Some? {
        host.onerror := oldHandler;
      }
    }

    /** The request that `report(err, data)` hands to `fetch`. */
    function ReportRequest(err: ErrorInfo, data: Value): Request
    {
      SendRequest(endpoint, apiKey, ReportPayload(err, data))
    }

    /** `send(data)`: one `fetch` of the request built for this client. */
    method Send(payload: Payload)
      modifies host`effects
      ensures host.effects == old(host.effects) + [Fetched(SendRequest(endpoint, apiKey, payload))]
    {
      host.Emit(Fetched(SendRequest(endpoint, apiKey, payload)));
    }

    /** `report(err, data)`: sends exactly one payload built from `err` and `data`. */
    method Report(err: ErrorInfo, data: Value)
      modifies host`effects
      ensures host.effects == old(host.effects) + [Fetched(ReportRequest(err, data))]
    {
      Send(ReportPayload(err, data));
    }

    /** `_uncaughtException(err)`: logs the stack and reports; the exit check waits for delivery. */
    method OnUncaughtException(err: ErrorInfo)
      modifies host`effects, this`pendingExitChecks
      ensures host.effects == old(host.effects) + [Logged(err.stack), Fetched(ReportRequest(err, Undefined))]
      ensures pendingExitChecks == old(pendingExitChecks) + 1
    {
      host.Emit(Logged(err.stack));
      Report(err, Undefined);
      pendingExitChecks := pendingExitChecks + 1;
    }

    /**
      The settling of one report started by `OnUncaughtException`. On delivery the
      `.then` continuation exits with code 1 when this is the only `uncaughtException`
      listener and `exit` is not `false`; a failed delivery has no handler and does nothing.
     */
    method OnReportSettled(delivered: bool)
      requires pendingExitChecks > 0
      modifies host`effects, this`pendingExitChecks
      ensures pendingExitChecks == old(pendingExitChecks) - 1
      ensures host.effects == old(host.effects) +
        if ShouldExit(delivered, host.ListenerCount(UncaughtException), options.exit) then [Exited(1)] else []
    {
      pendingExitChecks := pendingExitChecks - 1;
      if delivered {
        if host.ListenerCount(UncaughtException) == 1 {
          if options.exit == Some(false) {
            return;
          }
          host.Emit(Exited(1));
        }
      }
    }

    /** `_unhandledRejection(err)`: logs the stack and reports; it never exits. */
    method OnUnhandledRejection(err: ErrorInfo)
      modifies host`effects
      ensures host.effects == old(host.effects) + [Logged(err.stack), Fetched(ReportRequest(err, Undefined))]
    {
      host.Emit(Logged(err.stack));
      Report(err, Undefined);
    }

    /** `_windowOnError(err)`: logs the stack, calls the displaced handler if any, then reports. */
    method OnWindowError(err: ErrorInfo)
      modifies host`effects
      ensures host.effects == old(host.effects) + [Logged(err.stack)] +
        (if oldHandler.Some? then [Invoked(oldHandler.value, err)] else []) +
        [Fetched(ReportRequest(err, Undefined))]
    {
      host.Emit(Logged(err.stack));
      if oldHandler.Some? {
        host.Emit(Invoked(oldHandler.value, err));
      }
      Report(err, Undefined);
    }
  }

  /** `new OhCrash(apiKey, options)`: throws on a falsy key, otherwise builds a client that is not yet enabled. */
  method Construct(apiKey: Option<string>, options: Option<Options>, host: Host) returns (r: Result<Client, ConstructError>)
    ensures r.Failure? <==> Configure(apiKey, options).Failure?
    ensures r.Failure? ==> r.error == Configure(apiKey, options).error
    ensures r.Success? ==> fresh(r.value) && r.value.host == host && r.value.Current() == Configure(apiKey, options).value
    ensures r.Success? ==> r.value.oldHandler == None && r.value.pendingExitChecks == 0
  {
    var s := Configure(apiKey, options);
    if s.Failure? {
      return Failure(s.error);
    }
    var c := new Client(s.value, host);
    return Success(c);
  }

  /** `OhCrash(apiKey, options)` called without `new`: constructs the client and enables it. */
  method CallWithoutNew(apiKey: Option<string>, options: Option<Options>, host: Host) returns (r: Result<Client, ConstructError>)
    modifies host`listeners, host`onerror
    ensures r.Failure? <==> Configure(apiKey, options).Failure?
    ensures r.Failure? ==> r.error == Configure(apiKey, options).error && unchanged(host)
    ensures r.Success? ==> fresh(r.value) && r.value.host == host && r.value.Current() == Configure(apiKey, options).value
    ensures r.Success? ==> host.listeners == EnableListeners(r.value.options, host.isBrowser, r.value, old(host.listeners))
    ensures r.Success? ==> r.value.Window() == EnableWindow(r.value.options, host.isBrowser, r.value, WindowSlot(old(host.onerror), None))
    ensures r.Success? ==> r.value.pendingExitChecks == 0 && host.effects == old(host.effects)
  {
    r := Construct(apiKey, options, host);
    if r.Success? {
      r.value.Enable();
    }
  }
}
