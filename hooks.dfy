/**
  The hook manager as functions of the host state it touches: the per-event listener
  lists of a Node.js process, the single `window.onerror` slot of a browser together
  with the client's `_oldHandler`, and the exit decision taken once the report of an
  uncaught exception has been delivered.
 */
module Hooks {
  import opened Wrappers
  import opened Config

  /** The two process events the client listens to. */
  datatype Event = UncaughtException | UnhandledRejection

  /** Which of a client's three bound handlers a handler is. */
  datatype Kind = ExceptionHandler | RejectionHandler | WindowHandler

  /**
    A function installed on the host. `Bound(c, k)` is the handler client `c` bound to
    itself at construction (one identity per client and kind); `Foreign` is anything
    installed by someone else.
   */
  datatype Handler = Bound(owner: object, kind: Kind) | Foreign(tag: nat)

  type ListenerMap = map<Event, seq<Handler>>

  /** `process.listeners(e)`: an event nobody listened to has no listeners. */
  function Listeners(m: ListenerMap, e: Event): seq<Handler>
  {
    if e in m then m[e] else []
  }

  /** The position of the most recently added occurrence of `h`, or -1. */
  function LastIndex(s: seq<Handler>, h: Handler): (i: int)
    ensures -1 <= i < |s|
    ensures i == -1 <==> h !in s
    ensures 0 <= i ==> s[i] == h && h !in s[i + 1..]
  {
    if s == [] then -1
    else if s[|s| - 1] == h then |s| - 1
    else
      var front := s[..|s| - 1];
      var i := LastIndex(front, h);
      assert s == front + [s[|s| - 1]];
      assert 0 <= i ==> s[i + 1..] == front[i + 1..] + [s[|s| - 1]];
      i
  }

  /**
    `removeListener`: drops the most recently added occurrence of `h` (Node.js scans
    the list from the end) and leaves the list alone when `h` is not in it.
   */
  function RemoveLast(s: seq<Handler>, h: Handler): (r: seq<Handler>)
    ensures multiset(r) == multiset(s) - multiset{h}
    ensures h !in s ==> r == s
    ensures h in s ==> |r| == |s| - 1
    ensures h in s ==> exists i :: 0 <= i < |s| && s[i] == h && h !in s[i + 1..] && r == s[..i] + s[i + 1..]
  {
    var i := LastIndex(s, h);
    if i < 0 then s
    else
      assert s == s[..i] + [s[i]] + s[i + 1..];
      s[..i] + s[i + 1..]
  }

  /** Removing a handler right after appending it gives back the list as it was. */
  lemma {:induction false} RemoveLastUndoesAppend(s: seq<Handler>, h: Handler)
    ensures RemoveLast(s + [h], h) == s
  {
    var t := s + [h];
    assert LastIndex(t, h) == |s|;
    assert t[..|s|] == s;
  }

  /** `process.on(e, h)`: appends one occurrence of `h` to the listeners of `e`. */
  function Subscribe(m: ListenerMap, e: Event, h: Handler): ListenerMap
  {
    m[e := Listeners(m, e) + [h]]
  }

  /** `process.removeListener(e, h)`. */
  function Unsubscribe(m: ListenerMap, e: Event, h: Handler): ListenerMap
  {
    m[e := RemoveLast(Listeners(m, e), h)]
  }

  /** The option that switches a channel off. */
  function FlagOf(o: Options, e: Event): Option<bool>
  {
    match e
    case UncaughtException => o.uncaughtExceptions
    case UnhandledRejection => o.unhandledRejections
  }

  /** The handler a client installs on a channel. */
  function HandlerFor(self: object, e: Event): Handler
  {
    match e
    case UncaughtException => Bound(self, ExceptionHandler)
    case UnhandledRejection => Bound(self, RejectionHandler)
  }

  /** `_bindUncaughtException` / `_bindUnhandledRejection`. */
  function BindChannel(o: Options, self: object, m: ListenerMap, e: Event): ListenerMap
  {
    if Enabled(FlagOf(o, e)) then Subscribe(m, e, HandlerFor(self, e)) else m
  }

  /** `_unbindUncaughtException` / `_unbindUnhandledRejection`. */
  function UnbindChannel(o: Options, self: object, m: ListenerMap, e: Event): ListenerMap
  {
    if Enabled(FlagOf(o, e)) then Unsubscribe(m, e, HandlerFor(self, e)) else m
  }

  /** The listener lists after `enable()`: both channels are bound in Node.js, neither in a browser. */
  function EnableListeners(o: Options, isBrowser: bool, self: object, m: ListenerMap): ListenerMap
  {
    if isBrowser then m
    else BindChannel(o, self, BindChannel(o, self, m, UncaughtException), UnhandledRejection)
  }

  /** The listener lists after `disable()`. */
  function DisableListeners(o: Options, isBrowser: bool, self: object, m: ListenerMap): ListenerMap
  {
    if isBrowser then m
    else UnbindChannel(o, self, UnbindChannel(o, self, m, UncaughtException), UnhandledRejection)
  }

  /** What a channel gains from one `enable()`: one occurrence of the client's handler, or nothing. */
  function Added(o: Options, isBrowser: bool, self: object, e: Event): seq<Handler>
  {
    if !isBrowser && Enabled(FlagOf(o, e)) then [HandlerFor(self, e)] else []
  }

  /**
    In Node.js `enable()` appends exactly one occurrence of the client's handler to
    every channel whose flag is not `false` and leaves the other channel as it was;
    in a browser it touches no listener list.
   */
  lemma EnableAppendsOnce(o: Options, isBrowser: bool, self: object, m: ListenerMap, e: Event)
    ensures Listeners(EnableListeners(o, isBrowser, self, m), e) == Listeners(m, e) + Added(o, isBrowser, self, e)
  {
  }

  /** One `_unbind*` call changes only its own channel, and that one by `removeListener`. */
  lemma UnbindChannelEffect(o: Options, self: object, m: ListenerMap, c: Event, e: Event)
    ensures Listeners(UnbindChannel(o, self, m, c), e)
         == if c == e && Enabled(FlagOf(o, c)) then RemoveLast(Listeners(m, e), HandlerFor(self, e)) else Listeners(m, e)
  {
  }

  /** What a channel loses to one `disable()`: the client's handler, or nothing. */
  function Removed(o: Options, isBrowser: bool, self: object, e: Event): multiset<Handler>
  {
    multiset(Added(o, isBrowser, self, e))
  }

  /**
    `disable()` removes one occurrence of the client's handler from each channel whose
    flag is not `false`, if there is one, and changes nothing else: the other
    listeners keep their order.
   */
  lemma {:induction false} DisableRemovesOnce(o: Options, isBrowser: bool, self: object, m: ListenerMap, e: Event)
    ensures Listeners(DisableListeners(o, isBrowser, self, m), e)
         == if !isBrowser && Enabled(FlagOf(o, e)) then RemoveLast(Listeners(m, e), HandlerFor(self, e)) else Listeners(m, e)
    ensures multiset(Listeners(DisableListeners(o, isBrowser, self, m), e))
         == multiset(Listeners(m, e)) - Removed(o, isBrowser, self, e)
  {
    if !isBrowser {
      var m1 := UnbindChannel(o, self, m, UncaughtException);
      UnbindChannelEffect(o, self, m, UncaughtException, e);
      UnbindChannelEffect(o, self, m1, UnhandledRejection, e);
      if !Enabled(FlagOf(o, e)) {
        assert Removed(o, isBrowser, self, e) == multiset{};
      }
    }
  }

  /** Starting from any listener state, `enable()` then `disable()` restores every list exactly. */
  lemma {:induction false} EnableThenDisableRestores(o: Options, isBrowser: bool, self: object, m: ListenerMap, e: Event)
    ensures Listeners(DisableListeners(o, isBrowser, self, EnableListeners(o, isBrowser, self, m)), e) == Listeners(m, e)
  {
    if !isBrowser {
      var m1 := EnableListeners(o, isBrowser, self, m);
      var m2 := UnbindChannel(o, self, m1, UncaughtException);
      EnableAppendsOnce(o, isBrowser, self, m, e);
      UnbindChannelEffect(o, self, m1, UncaughtException, e);
      UnbindChannelEffect(o, self, m2, UnhandledRejection, e);
      RemoveLastUndoesAppend(Listeners(m, e), HandlerFor(self, e));
    }
  }

  /** A client that never enabled finds none of its handlers to remove, so `disable()` is a no-op. */
  lemma DisableWithoutEnableIsNoop(o: Options, isBrowser: bool, self: object, m: ListenerMap, e: Event)
    requires forall e' :: HandlerFor(self, e') !in Listeners(m, e')
    ensures Listeners(DisableListeners(o, isBrowser, self, m), e) == Listeners(m, e)
  {
  }

  /** `enable()` is not idempotent: a second call registers the handler a second time. */
  lemma EnableTwiceRegistersTwice(o: Options, self: object, m: ListenerMap, e: Event)
    requires Enabled(FlagOf(o, e))
    ensures var twice := EnableListeners(o, false, self, EnableListeners(o, false, self, m));
            multiset(Listeners(twice, e))[HandlerFor(self, e)] == multiset(Listeners(m, e))[HandlerFor(self, e)] + 2
  {
    EnableAppendsOnce(o, false, self, m, e);
    EnableAppendsOnce(o, false, self, EnableListeners(o, false, self, m), e);
  }

  /** The browser's `window.onerror` slot together with the client's `_oldHandler`. */
  datatype WindowSlot = WindowSlot(onerror: Option<Handler>, displaced: Option<Handler>)

  /** `_bindWindowOnError`, run by `enable()` in a browser unless `windowOnError` is `false`. */
  function EnableWindow(o: Options, isBrowser: bool, self: object, w: WindowSlot): WindowSlot
  {
    if isBrowser && Enabled(o.windowOnError) then WindowSlot(Some(Bound(self, WindowHandler)), w.onerror)
    else w
  }

  /** `_unbindWindowOnError`, run by `disable()` in a browser: restores `_oldHandler` only when there is one. */
  function DisableWindow(isBrowser: bool, w: WindowSlot): WindowSlot
  {
    if isBrowser && w.displaced.Some? then w.(onerror := w.displaced) else w
  }

  /**
    In a browser with `windowOnError` on, `enable()` installs the client's handler and
    keeps the handler it displaced.
   */
  lemma EnableWindowInstalls(o: Options, self: object, w: WindowSlot)
    requires Enabled(o.windowOnError)
    ensures EnableWindow(o, true, self, w).onerror == Some(Bound(self, WindowHandler))
    ensures EnableWindow(o, true, self, w).displaced == w.onerror
  {
  }

  /**
    For a fresh client (no `_oldHandler` yet), `enable()` then `disable()` gives back
    the original `window.onerror` exactly when there was one, or when the window
    channel is switched off; with no prior handler the client's own stays installed.
   */
  lemma WindowRoundTrip(o: Options, isBrowser: bool, self: object, w: WindowSlot)
    requires w.displaced == None
    ensures var after := DisableWindow(isBrowser, EnableWindow(o, isBrowser, self, w));
            after.onerror == w.onerror <==> !isBrowser || !Enabled(o.windowOnError) || w.onerror.Some?
    ensures isBrowser && Enabled(o.windowOnError) && w.onerror == None ==>
            DisableWindow(isBrowser, EnableWindow(o, isBrowser, self, w)).onerror == Some(Bound(self, WindowHandler))
  {
  }

  /** With `windowOnError: false`, neither `enable()` nor `disable()` of a fresh client touches `window.onerror`. */
  lemma WindowSwitchedOffUntouched(o: Options, isBrowser: bool, self: object, w: WindowSlot)
    requires !Enabled(o.windowOnError) && w.displaced == None
    ensures EnableWindow(o, isBrowser, self, w).onerror == w.onerror
    ensures DisableWindow(isBrowser, EnableWindow(o, isBrowser, self, w)).onerror == w.onerror
  {
  }

  /**
    A second `enable()` in a browser overwrites `_oldHandler` with the client's own
    handler, so the handler present before the first `enable()` is lost for good:
    `disable()` then leaves the client's handler installed.
   */
  lemma EnableWindowTwiceLosesPrior(o: Options, self: object, w: WindowSlot)
    requires Enabled(o.windowOnError)
    ensures var twice := EnableWindow(o, true, self, EnableWindow(o, true, self, w));
            twice.displaced == Some(Bound(self, WindowHandler)) &&
            DisableWindow(true, twice).onerror == Some(Bound(self, WindowHandler))
  {
  }

  /**
    The check in the `.then` continuation of `_uncaughtException`: once the report has
    been delivered, exit when exactly one `uncaughtException` listener remains and the
    `exit` option is not `false`.
   */
  function ShouldExit(delivered: bool, uncaughtListeners: nat, exitFlag: Option<bool>): bool
  {
    delivered && uncaughtListeners == 1 && Enabled(exitFlag)
  }

  /**
    A client that enabled itself as the only `uncaughtException` listener exits after
    a delivered report exactly when `exit` is not `false`.
   */
  lemma SoleListenerExits(o: Options, self: object, m: ListenerMap)
    requires Listeners(m, UncaughtException) == [] && Enabled(o.uncaughtExceptions)
    ensures ShouldExit(true, |Listeners(EnableListeners(o, false, self, m), UncaughtException)|, o.exit) <==> Enabled(o.exit)
  {
    EnableAppendsOnce(o, false, self, m, UncaughtException);
  }

  /** When someone else also listens for uncaught exceptions, the client never exits. */
  lemma OtherListenerPreventsExit(o: Options, self: object, m: ListenerMap, delivered: bool)
    requires Listeners(m, UncaughtException) != [] && Enabled(o.uncaughtExceptions)
    ensures !ShouldExit(delivered, |Listeners(EnableListeners(o, false, self, m), UncaughtException)|, o.exit)
  {
    EnableAppendsOnce(o, false, self, m, UncaughtException);
  }

  /** Enabling twice leaves two listeners, so the client no longer exits after an uncaught exception. */
  lemma EnableTwicePreventsExit(o: Options, self: object, m: ListenerMap, delivered: bool)
    requires Enabled(o.uncaughtExceptions)
    ensures var twice := EnableListeners(o, false, self, EnableListeners(o, false, self, m));
            !ShouldExit(delivered, |Listeners(twice, UncaughtException)|, o.exit)
  {
    EnableAppendsOnce(o, false, self, m, UncaughtException);
    EnableAppendsOnce(o, false, self, EnableListeners(o, false, self, m), UncaughtException);
  }

  /** An undelivered report never leads to an exit. */
  lemma FailedDeliveryNeverExits(count: nat, exitFlag: Option<bool>)
    ensures !ShouldExit(false, count, exitFlag)
  {
  }
}
