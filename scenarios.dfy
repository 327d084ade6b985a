/**
  Whole-client runs on a fresh host, each proved from the contracts of the client's
  methods alone: the stateful cases the repository's tests exercise, and the exit
  decision in its three situations.
 */
module Scenarios {
  import opened Wrappers
  import opened Json
  import opened Config
  import opened Payloads
  import opened Hooks
  import opened Runtime
  import opened OhCrash

  /** The request every handler below sends for `err` from a client keyed "apikey" on the default endpoint. */
  function DefaultReport(err: ErrorInfo): Effect
  {
    Fetched(SendRequest(DefaultEndpoint, "apikey", Payload(err.name, err.message, err.stack, EmptyObject, map[])))
  }

  function WithOptions(uncaught: Option<bool>, rejections: Option<bool>, window: Option<bool>, exit: Option<bool>): Options
  {
    Options(None, uncaught, rejections, window, exit)
  }

  /** Calling the constructor with no key throws the `TypeError` and registers nothing. */
  method MissingKey() returns (r: Option<ConstructError>, listeners: ListenerMap)
    ensures r == Some(TypeError(MissingKeyMessage)) && listeners == map[]
  {
    var host := new Host(false, map[], None);
    var c := CallWithoutNew(None, None, host);
    r := if c.Failure? then Some(c.error) else None;
    listeners := host.listeners;
  }

  /**
    Node.js, `exit: false`: an uncaught exception is logged and reported once with
    empty metadata and props, nothing exits after delivery, and `disable()` leaves no
    listener behind.
   */
  method ReportUncaughtWithoutExit(err: ErrorInfo) returns (effects: seq<Effect>, uncaught: nat, rejections: nat)
    ensures effects == [Logged(err.stack), DefaultReport(err)]
    ensures uncaught == 0 && rejections == 0
  {
    var host := new Host(false, map[], None);
    var r := Construct(Some("apikey"), Some(WithOptions(None, None, None, Some(false))), host);
    assert r.Success? && r.value.options.exit == Some(false);
    var client := r.value;
    client.Enable();
    ghost var enabled := host.listeners;
    assert enabled == EnableListeners(client.options, false, client, map[]);
    client.OnUncaughtException(err);
    client.OnReportSettled(true);
    effects := host.effects;
    assert effects == [Logged(err.stack), DefaultReport(err)];
    client.Disable();
    EnableThenDisableRestores(client.options, false, client, map[], UncaughtException);
    EnableThenDisableRestores(client.options, false, client, map[], UnhandledRejection);
    uncaught, rejections := host.ListenerCount(UncaughtException), host.ListenerCount(UnhandledRejection);
  }

  /** Node.js, default options, the only listener: the delivered report is followed by `exit(1)`. */
  method ExitWhenSoleListener(err: ErrorInfo) returns (effects: seq<Effect>)
    ensures effects == [Logged(err.stack), DefaultReport(err), Exited(1)]
  {
    var host := new Host(false, map[], None);
    var r := CallWithoutNew(Some("apikey"), None, host);
    var client := r.value;
    client.OnUncaughtException(err);
    client.OnReportSettled(true);
    effects := host.effects;
  }

  /** Another `uncaughtException` listener, or a failed delivery, means no exit. */
  method NoExitWhenShared(err: ErrorInfo) returns (shared: seq<Effect>, failed: seq<Effect>)
    ensures shared == [Logged(err.stack), DefaultReport(err)]
    ensures failed == [Logged(err.stack), DefaultReport(err)]
  {
    var host := new Host(false, map[UncaughtException := [Foreign(7)]], None);
    var r := CallWithoutNew(Some("apikey"), None, host);
    r.value.OnUncaughtException(err);
    r.value.OnReportSettled(true);
    shared := host.effects;

    var alone := new Host(false, map[], None);
    r := CallWithoutNew(Some("apikey"), None, alone);
    r.value.OnUncaughtException(err);
    r.value.OnReportSettled(false);
    failed := alone.effects;
  }

  /** Node.js, `uncaughtExceptions: false`: that channel gets no listener, the other still gets one. */
  method UncaughtExceptionsSwitchedOff() returns (uncaught: nat, rejections: nat)
    ensures uncaught == 0 && rejections == 1
  {
    var host := new Host(false, map[], None);
    var r := Construct(Some("apikey"), Some(WithOptions(Some(false), None, None, None)), host);
    r.value.Enable();
    uncaught, rejections := host.ListenerCount(UncaughtException), host.ListenerCount(UnhandledRejection);
  }

  /** Node.js, `unhandledRejections: false`: that channel gets no listener, the other still gets one. */
  method UnhandledRejectionsSwitchedOff() returns (uncaught: nat, rejections: nat)
    ensures uncaught == 1 && rejections == 0
  {
    var host := new Host(false, map[], None);
    var r := Construct(Some("apikey"), Some(WithOptions(None, Some(false), None, None)), host);
    r.value.Enable();
    uncaught, rejections := host.ListenerCount(UncaughtException), host.ListenerCount(UnhandledRejection);
  }

  /**
    Browser: the window handler calls the displaced `onerror` once with the same
    error, then reports it once; `disable()` puts the displaced handler back.
   */
  method WindowOnErrorChains(err: ErrorInfo) returns (effects: seq<Effect>, restored: Option<Handler>)
    ensures effects == [Logged(err.stack), Invoked(Foreign(1), err), DefaultReport(err)]
    ensures restored == Some(Foreign(1))
  {
    var host := new Host(true, map[], Some(Foreign(1)));
    var r := Construct(Some("apikey"), None, host);
    var client := r.value;
    client.Enable();
    client.OnWindowError(err);
    effects := host.effects;
    client.Disable();
    restored := host.onerror;
  }

  /** Browser, `windowOnError: false`: `onerror` is the same after `enable()` and after `disable()`. */
  method WindowSwitchedOff() returns (afterEnable: Option<Handler>, afterDisable: Option<Handler>)
    ensures afterEnable == Some(Foreign(2)) && afterDisable == Some(Foreign(2))
  {
    var host := new Host(true, map[], Some(Foreign(2)));
    var r := Construct(Some("apikey"), Some(WithOptions(None, None, Some(false), None)), host);
    r.value.Enable();
    afterEnable := host.onerror;
    r.value.Disable();
    afterDisable := host.onerror;
  }
}
