/**
  The host the client runs in: the global `process` (listener lists and `exit`), the
  browser's `window.onerror` slot, and a log of the observable effects the client
  causes through `console.log`, `fetch`, a displaced error handler and `process.exit`.
 */
module Runtime {
  import opened Wrappers
  import Json
  import opened Payloads
  import opened Hooks

  /** One observable effect, in the order it happened. */
  datatype Effect =
    | Logged(line: Json.Value)            // console.log(...)
    | Invoked(handler: Handler, err: ErrorInfo)  // a displaced window.onerror called with err
    | Fetched(request: Request)           // fetch(url, options)
    | Exited(code: int)                   // process.exit(code)

  class Host {
    /** Whether a `window` global exists; the Node.js branch runs exactly when it does not. */
    const isBrowser: bool
    var listeners: ListenerMap
    var onerror: Option<Handler>
    var effects: seq<Effect>

    constructor (isBrowser: bool, listeners: ListenerMap, onerror: Option<Handler>)
      ensures this.isBrowser == isBrowser && this.listeners == listeners && this.onerror == onerror
      ensures effects == []
    {
      this.isBrowser := isBrowser;
      this.listeners := listeners;
      this.onerror := onerror;
      effects := [];
    }

    /** `process.listeners(e).length`. */
    function ListenerCount(e: Event): nat
      reads this
    {
      |Listeners(listeners, e)|
    }

    /** `process.on(e, h)`. */
    method On(e: Event, h: Handler)
      modifies this`listeners
      ensures listeners == Subscribe(old(listeners), e, h)
    {
      listeners := Subscribe(listeners, e, h);
    }

    /** `process.removeListener(e, h)`. */
    method RemoveListener(e: Event, h: Handler)
      modifies this`listeners
      ensures listeners == Unsubscribe(old(listeners), e, h)
    {
      listeners := Unsubscribe(listeners, e, h);
    }

    /** Records an effect. */
    method Emit(x: Effect)
      modifies this`effects
      ensures effects == old(effects) + [x]
    {
      effects := effects + [x];
    }
  }
}
