/**
 * `SSEClient` (src/services/sse.ts) as a class whose fields change in place. Every method
 * states its new state as the matching transition of `SseMachine` applied to the old
 * state, so the properties proved there about runs of the machine hold of the class.
 *
 * The public methods keep the invariant `Valid()`. The private helpers are stated for any
 * state; the ones that drop the transport ask only that a client without a transport has no
 * listeners, which holds because listeners live on the transport object.
 */
module SseClient {
  import opened Wrappers
  import opened SeqSet
  import opened Json
  import opened Dispatch
  import M = SseMachine

  class Client {
    const url: string
    const options: M.Options
    var token: string
    var state: M.ConnectionState
    var reconnectAttempts: nat
    var source: M.Source
    var listeners: seq<M.EventType>
    var reconnectTimer: Option<nat>
    var strays: nat
    var heartbeatTimer: Option<M.Arming>
    var armings: nat
    var keys: seq<M.EventType>
    var handlers: map<M.EventType, seq<M.HandlerId>>
    var notices: seq<M.Notice>

    /** The fields as one record of the machine. */
    ghost function Model(): M.Conn
      reads this
    {
      M.Conn(token, state, reconnectAttempts, source, listeners, reconnectTimer, strays,
             heartbeatTimer, armings, M.Registry(keys, handlers), notices)
    }

    ghost predicate Valid()
      reads this
    {
      M.Valid(Model(), options)
    }

    /** Listeners are attached to the transport, so without one there are none. */
    ghost predicate Detached()
      reads this
    {
      source == M.NoSource ==> listeners == []
    }

    constructor(url: string, token: string, overrides: M.Overrides)
      ensures this.url == url && options == M.WithDefaults(overrides)
      ensures Model() == M.Initial(token)
      ensures Valid()
    {
      this.url := url;
      this.token := token;
      options := M.WithDefaults(overrides);
      state := M.Disconnected;
      reconnectAttempts := 0;
      source := M.NoSource;
      listeners := [];
      reconnectTimer := None;
      strays := 0;
      heartbeatTimer := None;
      armings := 0;
      keys := [];
      handlers := map[];
      notices := [];
    }

    /** `get isConnected`: under the invariant, exactly when the transport is open. */
    function IsConnected(): (b: bool)
      reads this
      ensures Valid() ==> (b <==> source == M.SourceOpen && heartbeatTimer.Some?)
    {
      state == M.Connected
    }

    // ------------------------------------------------------------ public methods

    /** `connect()`. Callable also right after the reconnect timer fired, when the pending
        delay is gone but everything else the invariant says still holds. */
    method Connect(constructed: bool)
      requires M.Consistent(Model(), options)
      modifies this
      ensures Model() == M.Connect(old(Model()), options, constructed)
      ensures Valid()
    {
      if source != M.NoSource {
        Disconnect();
      }
      SetState(M.Connecting);
      if constructed {
        source := M.SourceConnecting;
        listeners := [];
        SetupEventListeners();
      } else {
        HandleError(M.ConstructionFailed);
      }
    }

    /** `disconnect()`. */
    method Disconnect()
      requires M.Consistent(Model(), options)
      modifies this
      ensures Model() == M.Disconnect(old(Model()))
      ensures Valid()
    {
      ClearReconnectTimeout();
      ClearHeartbeatTimeout();
      if source != M.NoSource {
        source := M.NoSource;
        listeners := [];
      }
      SetState(M.Disconnected);
    }

    /** `updateToken(token)`. */
    method UpdateToken(token: string, constructed: bool)
      requires Valid()
      modifies this
      ensures Model() == M.UpdateToken(old(Model()), options, token, constructed)
      ensures Valid()
    {
      this.token := token;
      if IsConnected() {
        Disconnect();
        Connect(constructed);
      }
    }

    /** `on(t, h)`. The function it returns is `Off(t, h)`; see `SseMachine.UnsubscribeUndoesOn`. */
    method On(t: M.EventType, h: M.HandlerId)
      requires Valid()
      modifies this
      ensures Model() == M.On(old(Model()), t, h)
      ensures Valid()
    {
      ghost var before := Model();
      if t !in handlers {
        keys := keys + [t];
        handlers := handlers[t := []];
      }
      handlers := handlers[t := Add(handlers[t], h)];
      assert M.Registry(keys, handlers) == M.RegisterHandler(before.registry, t, h);
      assert Model() == before.(registry := M.RegisterHandler(before.registry, t, h));
      if source == M.SourceOpen {
        AddEventSourceListener(t);
      }
    }

    /** `off(t, h)`. */
    method Off(t: M.EventType, h: M.HandlerId)
      requires Valid()
      modifies this
      ensures Model() == M.Off(old(Model()), t, h)
      ensures Valid()
    {
      if t in handlers {
        handlers := handlers[t := Remove(handlers[t], h)];
      }
    }

    /** `offAll(t)`. */
    method OffAll(t: M.EventType)
      requires Valid()
      modifies this
      ensures Model() == M.OffAll(old(Model()), t)
      ensures Valid()
    {
      keys := Remove(keys, t);
      handlers := handlers - {t};
    }

    /** `clearHandlers()`. */
    method ClearHandlers()
      requires Valid()
      modifies this
      ensures Model() == M.ClearHandlers(old(Model()))
      ensures Valid()
    {
      keys := [];
      handlers := map[];
    }

    // ------------------------------------------------------------ callbacks from outside

    /** The transport's `onopen`. */
    method Open()
      requires Valid()
      modifies this
      ensures Model() == M.Open(old(Model()), options)
      ensures Valid()
    {
      if source != M.SourceConnecting {
        return;
      }
      source := M.SourceOpen;
      reconnectAttempts := 0;
      SetState(M.Connected);
      StartHeartbeatMonitor();
    }

    /** The transport's `onerror`. */
    method TransportError()
      requires Valid()
      modifies this
      ensures Model() == M.TransportError(old(Model()), options)
      ensures Valid()
    {
      if source == M.NoSource {
        return;
      }
      HandleError(M.ConnectionError);
    }

    /** The callback of the heartbeat timer set by arming `id`; it runs only if no reset or
        clear cancelled that timer. */
    method HeartbeatFired(id: nat)
      requires Valid()
      modifies this
      ensures Model() == M.HeartbeatFired(old(Model()), options, id)
      ensures Valid()
    {
      if !(heartbeatTimer.Some? && heartbeatTimer.value.id == id) {
        return;
      }
      heartbeatTimer := None;
      HandleError(M.HeartbeatTimeout);
    }

    /** The reconnect timer's callback. */
    method ReconnectTimerFired(constructed: bool)
      requires Valid()
      modifies this
      ensures Model() == M.ReconnectTimerFired(old(Model()), options, constructed)
      ensures Valid()
    {
      if reconnectTimer.None? {
        return;
      }
      reconnectTimer := None;
      Connect(constructed);
    }

    /** The callback of a reconnect timer whose handle was overwritten. */
    method StrayFired(constructed: bool)
      requires Valid()
      modifies this
      ensures Model() == M.StrayFired(old(Model()), options, constructed)
      ensures Valid()
    {
      if strays == 0 {
        return;
      }
      strays := strays - 1;
      Connect(constructed);
    }

    /** A frame arriving. Each listener wired for its type re-arms the heartbeat and, when the
        payload parses, runs the type's current handlers one by one, each in its own
        `try`/`catch`. `invoked` lists the handler calls in order, `caught` the ones that threw. */
    method Frame(kind: M.FrameKind, payload: M.Payload, throwing: set<M.HandlerId>)
      returns (invoked: seq<M.HandlerId>, caught: seq<M.HandlerId>)
      requires Valid()
      modifies this`heartbeatTimer, this`armings
      ensures Model() == M.Frame(old(Model()), options, kind)
      ensures invoked == M.Delivered(old(Model()), kind, payload)
      ensures caught == Within(invoked, throwing)
      ensures Valid()
    {
      invoked, caught := [], [];
      if source != M.SourceOpen {
        return;
      }
      match kind
      case Message =>
        ResetHeartbeatMonitor();
      case Typed(t) =>
        invoked, caught := RunListeners(t, payload, throwing);
        assert Model() == M.Rearmed(old(Model()), options, Occurrences(listeners, t));
    }

    /** The listeners wired for `t`, in wiring order, each running `Listener(t)`: one arming
        of the heartbeat per listener, and nothing else of the client changes. */
    method RunListeners(t: M.EventType, payload: M.Payload, throwing: set<M.HandlerId>)
      returns (invoked: seq<M.HandlerId>, caught: seq<M.HandlerId>)
      modifies this`heartbeatTimer, this`armings
      ensures armings == old(armings) + Occurrences(listeners, t)
      ensures heartbeatTimer == if armings == old(armings) then old(heartbeatTimer)
                                else Some(M.Arming(armings, options.heartbeatTimeout))
      ensures keys == old(keys) && handlers == old(handlers) && listeners == old(listeners)
      ensures invoked == if payload.Parsed? then
        Fanout(M.HandlersOf(M.Registry(keys, handlers), t), Occurrences(listeners, t)) else []
      ensures caught == Within(invoked, throwing)
    {
      invoked, caught := [], [];
      var ls := listeners;
      ghost var a0, h0 := armings, heartbeatTimer;
      ghost var hs := if payload.Parsed? then M.HandlersOf(M.Registry(keys, handlers), t) else [];
      var i := 0;
      while i < |ls|
        invariant 0 <= i <= |ls|
        invariant ls == listeners && keys == old(keys) && handlers == old(handlers)
        invariant armings == a0 + Occurrences(ls[..i], t)
        invariant armings == a0 ==> heartbeatTimer == h0
        invariant armings != a0 ==> heartbeatTimer == Some(M.Arming(armings, options.heartbeatTimeout))
        invariant invoked == Fanout(hs, Occurrences(ls[..i], t))
        invariant caught == Within(invoked, throwing)
      {
        OccurrencesStep(ls, i, t);
        FanoutStep(ls, i, t, hs);
        if ls[i] == t {
          var ran, failed := Listener(t, payload, throwing);
          WithinAppend(invoked, ran, throwing);
          invoked, caught := invoked + ran, caught + failed;
        }
        i := i + 1;
      }
      assert ls[..|ls|] == ls;
    }

    /** The closure `addEventSourceListener(t)` attaches: re-arm the heartbeat, then, if the
        payload parses, run the handlers registered for `t` at that moment. */
    method Listener(t: M.EventType, payload: M.Payload, throwing: set<M.HandlerId>)
      returns (ran: seq<M.HandlerId>, failed: seq<M.HandlerId>)
      modifies this`heartbeatTimer, this`armings
      ensures armings == old(armings) + 1
      ensures heartbeatTimer == Some(M.Arming(armings, options.heartbeatTimeout))
      ensures keys == old(keys) && handlers == old(handlers) && listeners == old(listeners)
      ensures ran == if payload.Parsed? then M.HandlersOf(M.Registry(keys, handlers), t) else []
      ensures failed == Within(ran, throwing)
    {
      ResetHeartbeatMonitor();
      ran, failed := [], [];
      if payload.Parsed? {
        var current := if t in handlers then handlers[t] else [];
        ran, failed := ForEachIsolated(current, throwing);
      }
    }

    // ------------------------------------------------------------ private helpers

    /** `setState(s)`. */
    method SetState(s: M.ConnectionState)
      modifies this`state, this`notices
      ensures Model() == M.SetState(old(Model()), s)
    {
      if state != s {
        state := s;
        notices := notices + [M.StateChange(s)];
      }
    }

    /** `setupEventListeners()`: one listener per registered key, in key order. */
    method SetupEventListeners()
      modifies this`listeners
      ensures Model() == M.SetupEventListeners(old(Model()))
    {
      if source == M.NoSource {
        return;
      }
      var i := 0;
      while i < |keys|
        invariant 0 <= i <= |keys|
        invariant Model() == old(Model()).(listeners := old(listeners) + keys[..i])
      {
        assert keys[..i + 1] == keys[..i] + [keys[i]];
        AddEventSourceListener(keys[i]);
        i := i + 1;
      }
      assert keys[..|keys|] == keys;
    }

    /** `addEventSourceListener(t)`. */
    method AddEventSourceListener(t: M.EventType)
      modifies this`listeners
      ensures Model() == M.AddEventSourceListener(old(Model()), t)
    {
      if source == M.NoSource {
        return;
      }
      listeners := listeners + [t];
    }

    /** `handleError(error)`. */
    method HandleError(cause: M.ErrorCause)
      requires Detached()
      modifies this
      ensures Model() == M.HandleError(old(Model()), options, cause)
    {
      ClearHeartbeatTimeout();
      notices := notices + [M.Error(cause)];
      if source != M.NoSource {
        source := M.NoSource;
        listeners := [];
      }
      AttemptReconnect();
    }

    /** `attemptReconnect()`. */
    method AttemptReconnect()
      modifies this
      ensures Model() == M.AttemptReconnect(old(Model()), options)
    {
      if options.maxReconnectAttempts > 0 && reconnectAttempts >= options.maxReconnectAttempts {
        SetState(M.Failed);
        return;
      }
      SetState(M.Reconnecting);
      reconnectAttempts := reconnectAttempts + 1;
      notices := notices + [M.Reconnect(reconnectAttempts)];
      var delay := Min(options.initialReconnectDelay * M.Pow2(reconnectAttempts - 1),
                       options.maxReconnectDelay);
      if reconnectTimer.Some? {
        // the pending timer loses its handle without being cleared
        strays := strays + 1;
      }
      reconnectTimer := Some(delay);
    }

    /** `clearReconnectTimeout()`. */
    method ClearReconnectTimeout()
      modifies this`reconnectTimer
      ensures Model() == M.ClearReconnectTimeout(old(Model()))
    {
      if reconnectTimer.Some? {
        reconnectTimer := None;
      }
    }

    /** `startHeartbeatMonitor()`. */
    method StartHeartbeatMonitor()
      modifies this`heartbeatTimer, this`armings
      ensures Model() == M.ResetHeartbeat(old(Model()), options)
    {
      ResetHeartbeatMonitor();
    }

    /** `resetHeartbeatMonitor()`: cancel, then arm a new timer, whose arming is the next. */
    method ResetHeartbeatMonitor()
      modifies this`heartbeatTimer, this`armings
      ensures Model() == M.ResetHeartbeat(old(Model()), options)
    {
      ClearHeartbeatTimeout();
      armings := armings + 1;
      heartbeatTimer := Some(M.Arming(armings, options.heartbeatTimeout));
    }

    /** `clearHeartbeatTimeout()`. */
    method ClearHeartbeatTimeout()
      modifies this`heartbeatTimer
      ensures Model() == M.ClearHeartbeatTimeout(old(Model()))
    {
      if heartbeatTimer.Some? {
        heartbeatTimer := None;
      }
    }
  }
}
