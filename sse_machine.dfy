/**
 * The connection state machine of `SSEClient` (src/services/sse.ts) as pure transition
 * functions over a record of the client's mutable fields. Each function follows one method
 * of the source step by step; the class `SseClient.Client` is proved against them.
 *
 * The browser's `EventSource` becomes `Source` (absent, connecting or open) plus the list of
 * event types wired onto it with `addEventListener` (a list, not a set: wiring the same type
 * twice makes every frame of that type run its handlers twice). The two `setTimeout` handles
 * become `Option` fields holding what is still pending behind them; a handle that fired is
 * recorded as `None`, since clearing a fired timer does nothing. Heartbeat timers carry the
 * number of their arming, so an expiry names the timer it belongs to. A reconnect timer whose
 * handle `attemptReconnect` overwrote while it was still pending can no longer be cancelled:
 * such timers are counted in `strays`, and each of them still calls `connect()` when it
 * fires. The `onStateChange`, `onError` and `onReconnect` callbacks become a log of notices.
 *
 * There is no clock: any pending timer may be the next stimulus, which over-approximates the
 * orders the delays allow.
 */
module SseMachine {
  import opened Wrappers
  import opened SeqSet
  import opened Json

  /** The event vocabulary (`SSEEventType`). `ConnectedEvent` is the type named 'connected'. */
  datatype EventType =
    | ConnectedEvent
    | TicketCreated
    | TicketUpdated
    | TicketStatusChanged
    | TicketAssigned
    | WorklogAdded
    | Notification

  datatype ConnectionState = Disconnected | Connecting | Connected | Reconnecting | Failed

  /** `Required<SSEClientOptions>`; delays are in milliseconds, 0 attempts means unlimited. */
  datatype Options = Options(
    maxReconnectAttempts: nat,
    initialReconnectDelay: nat,
    maxReconnectDelay: nat,
    heartbeatTimeout: nat)

  const DEFAULT_OPTIONS: Options := Options(0, 1000, 30000, 45000)

  /** The partial `SSEClientOptions` a caller passes; a missing key is `None`. */
  datatype Overrides = Overrides(
    maxReconnectAttempts: Option<nat>,
    initialReconnectDelay: Option<nat>,
    maxReconnectDelay: Option<nat>,
    heartbeatTimeout: Option<nat>)

  /** `{ ...DEFAULT_OPTIONS, ...options }`: a given key wins, a missing one takes the default. */
  function WithDefaults(o: Overrides): (r: Options)
    ensures o.maxReconnectAttempts.Some? ==> r.maxReconnectAttempts == o.maxReconnectAttempts.value
    ensures o.maxReconnectAttempts.None? ==> r.maxReconnectAttempts == DEFAULT_OPTIONS.maxReconnectAttempts
    ensures o.initialReconnectDelay.Some? ==> r.initialReconnectDelay == o.initialReconnectDelay.value
    ensures o.initialReconnectDelay.None? ==> r.initialReconnectDelay == DEFAULT_OPTIONS.initialReconnectDelay
    ensures o.maxReconnectDelay.Some? ==> r.maxReconnectDelay == o.maxReconnectDelay.value
    ensures o.maxReconnectDelay.None? ==> r.maxReconnectDelay == DEFAULT_OPTIONS.maxReconnectDelay
    ensures o.heartbeatTimeout.Some? ==> r.heartbeatTimeout == o.heartbeatTimeout.value
    ensures o.heartbeatTimeout.None? ==> r.heartbeatTimeout == DEFAULT_OPTIONS.heartbeatTimeout
  {
    Options(
      o.maxReconnectAttempts.GetOr(DEFAULT_OPTIONS.maxReconnectAttempts),
      o.initialReconnectDelay.GetOr(DEFAULT_OPTIONS.initialReconnectDelay),
      o.maxReconnectDelay.GetOr(DEFAULT_OPTIONS.maxReconnectDelay),
      o.heartbeatTimeout.GetOr(DEFAULT_OPTIONS.heartbeatTimeout))
  }

  // ---------------------------------------------------------------- backoff

  /** `Math.pow(2, k)` for a natural exponent. */
  function Pow2(k: nat): (r: nat)
    ensures r >= 1
  {
    if k == 0 then 1 else 2 * Pow2(k - 1)
  }

  lemma {:induction false} Pow2Monotone(a: nat, b: nat)
    requires a <= b
    ensures Pow2(a) <= Pow2(b)
  {
    if a < b {
      Pow2Monotone(a, b - 1);
    }
  }

  /** The delay before reconnect attempt number `attempt` (counted from 1):
      `min(initialReconnectDelay * 2^(attempt-1), maxReconnectDelay)`. */
  function Backoff(opts: Options, attempt: nat): (delay: nat)
    requires attempt >= 1
    ensures delay <= opts.maxReconnectDelay
    ensures delay <= opts.initialReconnectDelay * Pow2(attempt - 1)
    ensures delay == opts.maxReconnectDelay || delay == opts.initialReconnectDelay * Pow2(attempt - 1)
  {
    Min(opts.initialReconnectDelay * Pow2(attempt - 1), opts.maxReconnectDelay)
  }

  /** Later attempts never wait less. */
  lemma BackoffMonotone(opts: Options, a: nat, b: nat)
    requires 1 <= a <= b
    ensures Backoff(opts, a) <= Backoff(opts, b)
  {
    Pow2Monotone(a - 1, b - 1);
    MulMonotone(opts.initialReconnectDelay, Pow2(a - 1), Pow2(b - 1));
  }

  lemma MulMonotone(k: nat, x: nat, y: nat)
    requires x <= y
    ensures k * x <= k * y
  {
  }

  /** Each delay is the previous one doubled, up to the cap. */
  lemma BackoffDoubles(opts: Options, n: nat)
    requires n >= 1
    ensures Backoff(opts, n + 1) == Min(2 * Backoff(opts, n), opts.maxReconnectDelay)
  {
    var i := opts.initialReconnectDelay;
    assert i * Pow2(n) == 2 * (i * Pow2(n - 1));
  }

  /** With the defaults the delays are 1000, 2000, 4000, 8000, 16000 ms and then 30000 ms
      for every later attempt. */
  lemma {:induction false} DefaultBackoff(n: nat)
    requires n >= 1
    ensures Backoff(DEFAULT_OPTIONS, n) == if n <= 5 then 1000 * Pow2(n - 1) else 30000
    ensures Backoff(DEFAULT_OPTIONS, n) <= 30000
  {
    if n > 5 {
      Pow2Monotone(5, n - 1);
      assert Pow2(5) == 32;
    } else {
      assert Pow2(4) == 16;
      Pow2Monotone(n - 1, 4);
    }
  }

  // ---------------------------------------------------------------- handler registry

  type HandlerId = nat

  /** `eventHandlers: Map<SSEEventType, Set<SSEEventHandler>>`: the keys in insertion order
      and, per key, the handler set in insertion order. */
  datatype Registry = Registry(keys: seq<EventType>, handlers: map<EventType, seq<HandlerId>>)

  const EMPTY_REGISTRY: Registry := Registry([], map[])

  predicate RegistryValid(reg: Registry) {
    && Distinct(reg.keys)
    && (forall t :: t in reg.handlers <==> t in reg.keys)
    && (forall t :: t in reg.handlers ==> Distinct(reg.handlers[t]))
  }

  /** `eventHandlers.get(t)`, an absent key read as the empty set. */
  function HandlersOf(reg: Registry, t: EventType): seq<HandlerId> {
    if t in reg.handlers then reg.handlers[t] else []
  }

  /** The registry half of `on(t, h)`: create the key if missing, then add `h` to its set. */
  function RegisterHandler(reg: Registry, t: EventType, h: HandlerId): (r: Registry)
    ensures HandlersOf(r, t) == Add(HandlersOf(reg, t), h)
    ensures forall u :: u != t ==> HandlersOf(r, u) == HandlersOf(reg, u)
    ensures t in r.handlers
    ensures forall u :: u in r.handlers <==> u in reg.handlers || u == t
    ensures RegistryValid(reg) ==> RegistryValid(r) && r.keys == Add(reg.keys, t)
  {
    if t in reg.handlers then reg.(handlers := reg.handlers[t := Add(reg.handlers[t], h)])
    else Registry(reg.keys + [t], reg.handlers[t := [h]])
  }

  /** `off(t, h)`: removes `h` from the set of `t` if that key exists; the key itself stays,
      possibly with an empty set. */
  function UnregisterHandler(reg: Registry, t: EventType, h: HandlerId): (r: Registry)
    ensures HandlersOf(r, t) == Remove(HandlersOf(reg, t), h)
    ensures forall u :: u != t ==> HandlersOf(r, u) == HandlersOf(reg, u)
    ensures r.keys == reg.keys && r.handlers.Keys == reg.handlers.Keys
    ensures RegistryValid(reg) ==> RegistryValid(r)
  {
    if t in reg.handlers then reg.(handlers := reg.handlers[t := Remove(reg.handlers[t], h)])
    else reg
  }

  /** `offAll(t)`: deletes the key together with its whole set. */
  function DropType(reg: Registry, t: EventType): (r: Registry)
    ensures t !in r.handlers && HandlersOf(r, t) == []
    ensures forall u :: u != t ==> HandlersOf(r, u) == HandlersOf(reg, u)
    ensures r.keys == Remove(reg.keys, t)
    ensures RegistryValid(reg) ==> RegistryValid(r)
  {
    Registry(Remove(reg.keys, t), reg.handlers - {t})
  }

  // ---------------------------------------------------------------- connection record

  /** `eventSource`: null, or an `EventSource` whose readyState is CONNECTING or OPEN. */
  datatype Source = NoSource | SourceConnecting | SourceOpen

  /** What reached `handleError`: the transport's `onerror`, the heartbeat timer, or the
      `EventSource` constructor throwing. */
  datatype ErrorCause = ConnectionError | HeartbeatTimeout | ConstructionFailed

  /** One call of `onStateChange`, `onError` or `onReconnect`. */
  datatype Notice =
    | StateChange(state: ConnectionState)
    | Error(cause: ErrorCause)
    | Reconnect(attempt: nat)

  /** One `setTimeout` of the heartbeat monitor: which arming of the client it was (counted
      from 1), and its delay. */
  datatype Arming = Arming(id: nat, delay: nat)

  /** The mutable fields of one `SSEClient`; `url` and `options` never change.
      `reconnectTimer` is the delay of the pending timer behind `reconnectTimeout`, `strays`
      the number of pending reconnect timers no handle refers to any more,
      `heartbeatTimer` the pending timer behind `heartbeatTimeout`, and `armings` how many
      heartbeat timers have been set so far. */
  datatype Conn = Conn(
    token: string,
    state: ConnectionState,
    attempts: nat,
    source: Source,
    listeners: seq<EventType>,
    reconnectTimer: Option<nat>,
    strays: nat,
    heartbeatTimer: Option<Arming>,
    armings: nat,
    registry: Registry,
    notices: seq<Notice>)

  /** The state a freshly constructed client starts in. */
  function Initial(token: string): (c: Conn)
    ensures c.state == Disconnected && c.source == NoSource && c.attempts == 0
    ensures c.reconnectTimer == None && c.strays == 0 && c.heartbeatTimer == None
    ensures c.armings == 0 && c.notices == []
    ensures forall opts :: Valid(c, opts)
  {
    Conn(token, Disconnected, 0, NoSource, [], None, 0, None, 0, EMPTY_REGISTRY, [])
  }

  /** `maxReconnectAttempts > 0 && reconnectAttempts >= maxReconnectAttempts`: 0 means that
      attempts are never exhausted, and a client that has not attempted yet is exhausted only
      if it was given a limit it already meets. */
  function Exhausted(opts: Options, attempts: nat): (b: bool)
    ensures opts.maxReconnectAttempts == 0 ==> !b
    ensures b ==> attempts >= 1
    ensures b && attempts <= opts.maxReconnectAttempts ==> attempts == opts.maxReconnectAttempts
  {
    opts.maxReconnectAttempts > 0 && attempts >= opts.maxReconnectAttempts
  }

  /** Whether heartbeat arming `id` is the one still pending. */
  predicate Armed(c: Conn, id: nat) {
    c.heartbeatTimer.Some? && c.heartbeatTimer.value.id == id
  }

  /** What holds between any two stimuli, except that a reconnect timer may just have fired.
      A disconnected client holds no transport and no cancellable timer. */
  function Consistent(c: Conn, opts: Options): (b: bool)
    ensures b && c.state == Disconnected ==>
      c.source == NoSource && c.listeners == [] && c.reconnectTimer == None && c.heartbeatTimer == None
  {
    && (c.source == SourceOpen <==> c.state == Connected)
    && (c.source == SourceConnecting <==> c.state == Connecting)
    && (c.source == NoSource ==> c.listeners == [])
    && (c.heartbeatTimer.Some? <==> c.source == SourceOpen)
    && (c.heartbeatTimer.Some? ==> c.heartbeatTimer.value == Arming(c.armings, opts.heartbeatTimeout))
    && (c.state == Connected ==> c.attempts == 0)
    && (c.state == Reconnecting ==> c.attempts >= 1)
    && (c.state == Disconnected ==> c.reconnectTimer == None)
    && (c.state == Failed ==> Exhausted(opts, c.attempts))
    && RegistryValid(c.registry)
  }

  /** The invariant of a client: a live transport exactly when connecting or connected, a
      heartbeat timer exactly while open, a pending reconnect with the backoff delay while
      reconnecting, and failure only once attempts are exhausted. A reconnecting client
      therefore waits at most `maxReconnectDelay`. */
  function Valid(c: Conn, opts: Options): (b: bool)
    ensures b && c.state == Reconnecting ==>
      c.source == NoSource && c.reconnectTimer.Some? && c.reconnectTimer.value <= opts.maxReconnectDelay
  {
    && Consistent(c, opts)
    && (c.state == Reconnecting ==> c.reconnectTimer == Some(Backoff(opts, c.attempts)))
  }

  // ---------------------------------------------------------------- the private helpers

  /** `setState(s)`: the state becomes `s`; `onStateChange` runs only when it differs. */
  function SetState(c: Conn, s: ConnectionState): (r: Conn)
    ensures r.state == s
    ensures r.notices == c.notices <==> c.state == s
    ensures c.state != s ==> r.notices == c.notices + [StateChange(s)]
    ensures r.(state := c.state, notices := c.notices) == c
  {
    if c.state != s then c.(state := s, notices := c.notices + [StateChange(s)]) else c
  }

  /** `clearReconnectTimeout()`: cancels the timer behind the handle, and only that one;
      timers whose handle was overwritten stay pending. */
  function ClearReconnectTimeout(c: Conn): (r: Conn)
    ensures r.reconnectTimer == None && r.strays == c.strays
    ensures r.(reconnectTimer := c.reconnectTimer) == c
  {
    c.(reconnectTimer := None)
  }

  /** `clearHeartbeatTimeout()`: afterwards no heartbeat arming is pending. */
  function ClearHeartbeatTimeout(c: Conn): (r: Conn)
    ensures r.heartbeatTimer.None?
    ensures r.(heartbeatTimer := c.heartbeatTimer) == c
  {
    c.(heartbeatTimer := None)
  }

  /** `resetHeartbeatMonitor`: cancel the pending heartbeat timer and arm a new one, so that
      exactly the new arming is pending. */
  function ResetHeartbeat(c: Conn, opts: Options): (r: Conn)
    ensures r.armings == c.armings + 1
    ensures r.heartbeatTimer == Some(Arming(r.armings, opts.heartbeatTimeout))
    ensures r.(heartbeatTimer := c.heartbeatTimer, armings := c.armings) == c
  {
    var n := c.armings + 1;
    c.(heartbeatTimer := Some(Arming(n, opts.heartbeatTimeout)), armings := n)
  }

  /** `k` listeners in a row re-arming the heartbeat: `k` more armings, the last one pending
      (`RearmedOneMore` shows it is `ResetHeartbeat` applied `k` times). */
  function Rearmed(c: Conn, opts: Options, k: nat): (r: Conn)
    ensures r.armings == c.armings + k
    ensures k > 0 ==> r.heartbeatTimer == Some(Arming(r.armings, opts.heartbeatTimeout))
    ensures k == 0 ==> r == c
  {
    if k == 0 then c
    else c.(heartbeatTimer := Some(Arming(c.armings + k, opts.heartbeatTimeout)), armings := c.armings + k)
  }

  /** One more re-arming after `k` of them is `k + 1` re-armings. */
  lemma RearmedOneMore(c: Conn, opts: Options, k: nat)
    ensures Rearmed(c, opts, k + 1) == ResetHeartbeat(Rearmed(c, opts, k), opts)
  {
  }

  /** One re-arming followed by `k` more is `k + 1` re-armings. */
  lemma RearmedAfterReset(c: Conn, opts: Options, k: nat)
    ensures Rearmed(ResetHeartbeat(c, opts), opts, k) == Rearmed(c, opts, k + 1)
  {
  }

  /** `eventSource.close(); eventSource = null`: the listeners go with the transport. */
  function CloseSource(c: Conn): (r: Conn)
    ensures r.source == NoSource && r.listeners == []
    ensures r.(source := c.source, listeners := c.listeners) == c
  {
    c.(source := NoSource, listeners := [])
  }

  /** `setupEventListeners`: wire one listener per registered key, in key order. */
  function SetupEventListeners(c: Conn): (r: Conn)
    ensures c.source != NoSource ==> r.listeners == c.listeners + c.registry.keys
    ensures r.(listeners := c.listeners) == c
  {
    if c.source == NoSource then c else c.(listeners := c.listeners + c.registry.keys)
  }

  /** `addEventSourceListener(t)`: one more listener for `t` on the current transport. */
  function AddEventSourceListener(c: Conn, t: EventType): (r: Conn)
    ensures c.source != NoSource ==> r.listeners == c.listeners + [t]
    ensures r.(listeners := c.listeners) == c
  {
    if c.source == NoSource then c else c.(listeners := c.listeners + [t])
  }

  /** `attemptReconnect`: fail once the attempts are exhausted, scheduling nothing; otherwise
      count the attempt, report it and schedule a reconnect after the backoff delay. The new
      handle overwrites the old one without clearing it, so a reconnect timer that was still
      pending is orphaned: it stays pending, out of reach of `clearReconnectTimeout`. */
  function AttemptReconnect(c: Conn, opts: Options): (r: Conn)
    ensures r.state == if Exhausted(opts, c.attempts) then Failed else Reconnecting
    ensures Exhausted(opts, c.attempts) ==>
      r.attempts == c.attempts && r.reconnectTimer == c.reconnectTimer && r.strays == c.strays
      && r.notices == c.notices + (if c.state != Failed then [StateChange(Failed)] else [])
    ensures !Exhausted(opts, c.attempts) ==>
      r.attempts == c.attempts + 1 && r.reconnectTimer == Some(Backoff(opts, c.attempts + 1))
      && r.strays == c.strays + (if c.reconnectTimer.Some? then 1 else 0)
      && r.notices == c.notices + (if c.state != Reconnecting then [StateChange(Reconnecting)] else [])
                                + [Reconnect(c.attempts + 1)]
    ensures opts.maxReconnectAttempts == 0 ==> r.state == Reconnecting
    ensures r.(state := c.state, attempts := c.attempts, reconnectTimer := c.reconnectTimer,
               strays := c.strays, notices := c.notices) == c
  {
    if Exhausted(opts, c.attempts) then SetState(c, Failed)
    else
      var n := c.attempts + 1;
      var c1 := SetState(c, Reconnecting).(attempts := n);
      var orphaned := if c.reconnectTimer.Some? then 1 else 0;
      c1.(notices := c1.notices + [Reconnect(n)], reconnectTimer := Some(Backoff(opts, n)),
          strays := c.strays + orphaned)
  }

  /** `handleError`: cancel the heartbeat, report the error, drop the transport, and retry
      or fail. Every error ends in one of the two, and is always reported first. */
  function HandleError(c: Conn, opts: Options, cause: ErrorCause): (r: Conn)
    ensures r.source == NoSource && r.listeners == [] && r.heartbeatTimer == None
    ensures r.state == Reconnecting <==> !Exhausted(opts, c.attempts)
    ensures r.state == Failed <==> Exhausted(opts, c.attempts)
    ensures r.state == Reconnecting ==>
      r.attempts == c.attempts + 1 && r.reconnectTimer == Some(Backoff(opts, r.attempts))
    ensures |r.notices| > |c.notices| && r.notices[..|c.notices| + 1] == c.notices + [Error(cause)]
    ensures r.registry == c.registry && r.token == c.token && r.armings == c.armings
    ensures RegistryValid(c.registry) ==> Valid(r, opts)
  {
    var c1 := ClearHeartbeatTimeout(c).(notices := c.notices + [Error(cause)]);
    var r := AttemptReconnect(CloseSource(c1), opts);
    assert r.notices[..|c.notices| + 1] == c1.notices;
    r
  }

  // ---------------------------------------------------------------- public operations

  /** `disconnect()`: from any state, both timers cancelled, no transport, disconnected;
      handlers, token and the attempt counter are kept. */
  function Disconnect(c: Conn): (r: Conn)
    ensures r.reconnectTimer == None && r.heartbeatTimer == None
    ensures r.source == NoSource && r.listeners == [] && r.state == Disconnected
    ensures r.token == c.token && r.attempts == c.attempts && r.registry == c.registry
    ensures r.strays == c.strays && r.armings == c.armings
    ensures r.notices == c.notices + (if c.state != Disconnected then [StateChange(Disconnected)] else [])
    ensures forall opts :: RegistryValid(c.registry) && Consistent(c, opts) ==> Valid(r, opts)
  {
    SetState(CloseSource(ClearHeartbeatTimeout(ClearReconnectTimeout(c))), Disconnected)
  }

  /** `connect()`: close a live transport first (through `disconnect`), become connecting,
      then either open a new transport wired for every registered key, or, when the
      `EventSource` constructor throws, go through `handleError`. */
  function Connect(c: Conn, opts: Options, constructed: bool): (r: Conn)
    ensures r.token == c.token && r.registry == c.registry
    ensures Consistent(c, opts) ==> r.heartbeatTimer == None
    ensures constructed ==>
      r.source == SourceConnecting && r.state == Connecting && r.listeners == c.registry.keys
      && r.attempts == c.attempts
      && r.reconnectTimer == (if c.source != NoSource then None else c.reconnectTimer)
    ensures !constructed ==> r.source == NoSource && (r.state == Reconnecting || r.state == Failed)
    ensures Consistent(c, opts) ==> Valid(r, opts)
  {
    var c1 := if c.source != NoSource then Disconnect(c) else c;
    var c2 := SetState(c1, Connecting);
    if constructed then SetupEventListeners(c2.(source := SourceConnecting, listeners := []))
    else HandleError(c2, opts, ConstructionFailed)
  }

  /** `updateToken(token)`: always store the token; only a connected client reconnects. */
  function UpdateToken(c: Conn, opts: Options, token: string, constructed: bool): (r: Conn)
    ensures r.token == token
    ensures c.state != Connected ==> r == c.(token := token)
    ensures c.state == Connected ==> r == Connect(Disconnect(c.(token := token)), opts, constructed)
    ensures Valid(c, opts) ==> Valid(r, opts)
  {
    var c1 := c.(token := token);
    if c.state == Connected then Connect(Disconnect(c1), opts, constructed) else c1
  }

  /** `on(t, h)`: register the handler, and wire `t` once more when the transport is open,
      even if it was wired already. */
  function On(c: Conn, t: EventType, h: HandlerId): (r: Conn)
    ensures HandlersOf(r.registry, t) == Add(HandlersOf(c.registry, t), h)
    ensures forall u :: u != t ==> HandlersOf(r.registry, u) == HandlersOf(c.registry, u)
    ensures r.listeners == if c.source == SourceOpen then c.listeners + [t] else c.listeners
    ensures r.(registry := c.registry, listeners := c.listeners) == c
    ensures forall opts :: Valid(c, opts) ==> Valid(r, opts)
  {
    var c1 := c.(registry := RegisterHandler(c.registry, t, h));
    if c1.source == SourceOpen then AddEventSourceListener(c1, t) else c1
  }

  /** `off(t, h)`. */
  function Off(c: Conn, t: EventType, h: HandlerId): (r: Conn)
    ensures r == c.(registry := UnregisterHandler(c.registry, t, h))
    ensures forall opts :: Valid(c, opts) ==> Valid(r, opts)
  {
    c.(registry := UnregisterHandler(c.registry, t, h))
  }

  /** `offAll(t)`: the handlers go, the wiring on the transport stays. */
  function OffAll(c: Conn, t: EventType): (r: Conn)
    ensures r == c.(registry := DropType(c.registry, t))
    ensures forall opts :: Valid(c, opts) ==> Valid(r, opts)
  {
    c.(registry := DropType(c.registry, t))
  }

  /** `clearHandlers()`. */
  function ClearHandlers(c: Conn): (r: Conn)
    ensures r == c.(registry := EMPTY_REGISTRY)
    ensures forall opts :: Valid(c, opts) ==> Valid(r, opts)
  {
    c.(registry := EMPTY_REGISTRY)
  }

  /** The function `on(t, h)` returns calls `off(t, h)`: for a handler not registered before,
      the set of `t` is back to what it was, every other type keeps its handlers, and a
      second call changes nothing more. */
  lemma UnsubscribeUndoesOn(c: Conn, t: EventType, h: HandlerId)
    requires h !in HandlersOf(c.registry, t)
    ensures var r := Off(On(c, t, h), t, h);
      HandlersOf(r.registry, t) == HandlersOf(c.registry, t)
      && (forall u :: u != t ==> HandlersOf(r.registry, u) == HandlersOf(c.registry, u))
      && Off(r, t, h) == r
  {
    RemoveUndoesAdd(HandlersOf(c.registry, t), h);
    var r := Off(On(c, t, h), t, h);
    RemoveIdempotent(Add(HandlersOf(c.registry, t), h), h);
    assert r.registry.handlers[t := Remove(r.registry.handlers[t], h)] == r.registry.handlers;
  }

  // ---------------------------------------------------------------- stimuli from outside

  /** The transport's `onopen`: only a connecting transport opens. The counter resets,
      the state becomes connected and the heartbeat monitor starts. */
  function Open(c: Conn, opts: Options): (r: Conn)
    ensures c.source == SourceConnecting ==>
      r.source == SourceOpen && r.attempts == 0 && r.state == Connected
      && r.armings == c.armings + 1 && Armed(r, r.armings)
    ensures c.source != SourceConnecting ==> r == c
    ensures r.registry == c.registry && r.listeners == c.listeners && r.token == c.token
    ensures Valid(c, opts) ==> Valid(r, opts)
  {
    if c.source != SourceConnecting then c
    else ResetHeartbeat(SetState(c.(source := SourceOpen, attempts := 0), Connected), opts)
  }

  /** The transport's `onerror`. */
  function TransportError(c: Conn, opts: Options): (r: Conn)
    ensures c.source == NoSource ==> r == c
    ensures c.source != NoSource ==> r == HandleError(c, opts, ConnectionError)
    ensures Valid(c, opts) ==> Valid(r, opts)
  {
    if c.source == NoSource then c else HandleError(c, opts, ConnectionError)
  }

  /** The heartbeat timer of arming `id` expiring. A timer that a later reset or a clear
      cancelled never runs; the pending one is treated exactly like a transport error. */
  function HeartbeatFired(c: Conn, opts: Options, id: nat): (r: Conn)
    ensures !Armed(c, id) ==> r == c
    ensures Armed(c, id) ==> r == HandleError(c, opts, HeartbeatTimeout)
    ensures Valid(c, opts) ==> Valid(r, opts)
  {
    if !Armed(c, id) then c else HandleError(c.(heartbeatTimer := None), opts, HeartbeatTimeout)
  }

  /** The reconnect timer behind the handle expiring: it is no longer pending, and
      `connect()` runs. */
  function ReconnectTimerFired(c: Conn, opts: Options, constructed: bool): (r: Conn)
    ensures c.reconnectTimer.None? ==> r == c
    ensures c.reconnectTimer.Some? ==> r == Connect(c.(reconnectTimer := None), opts, constructed)
    ensures Valid(c, opts) ==> Valid(r, opts)
  {
    if c.reconnectTimer.None? then c else Connect(c.(reconnectTimer := None), opts, constructed)
  }

  /** One of the orphaned reconnect timers expiring: it calls `connect()` whatever the
      client's state, a disconnected client included. */
  function StrayFired(c: Conn, opts: Options, constructed: bool): (r: Conn)
    ensures c.strays == 0 ==> r == c
    ensures c.strays > 0 ==> r == Connect(c.(strays := c.strays - 1), opts, constructed)
    ensures c.strays > 0 && constructed ==> r.state == Connecting && r.source == SourceConnecting
    ensures Valid(c, opts) ==> Valid(r, opts)
  {
    if c.strays == 0 then c else Connect(c.(strays := c.strays - 1), opts, constructed)
  }

  /** A frame arriving (`Message` is the default unnamed event handled by `onmessage`). */
  datatype FrameKind = Typed(eventType: EventType) | Message

  /** What `JSON.parse` made of the frame's data. */
  datatype Payload = Parsed(data: Json) | Malformed

  /** Whether a frame reaches the open transport's `onmessage` or a listener wired for it. */
  predicate Heard(c: Conn, kind: FrameKind) {
    c.source == SourceOpen && (kind.Message? || kind.eventType in c.listeners)
  }

  /** The state after a frame: only an open transport delivers, and `onmessage` or each
      listener that runs re-arms the heartbeat, so a heard frame leaves a new arming pending
      and an unheard one keeps the old deadline. Nothing else changes, whatever the payload. */
  function Frame(c: Conn, opts: Options, kind: FrameKind): (r: Conn)
    ensures r.(heartbeatTimer := c.heartbeatTimer, armings := c.armings) == c
    ensures Heard(c, kind) <==> r.armings > c.armings
    ensures Heard(c, kind) ==> r.heartbeatTimer == Some(Arming(r.armings, opts.heartbeatTimeout))
    ensures c.source == SourceOpen && kind.Typed? ==>
      r.armings == c.armings + Occurrences(c.listeners, kind.eventType)
    ensures !Heard(c, kind) ==> r == c
    ensures Valid(c, opts) ==> Valid(r, opts)
  {
    if c.source != SourceOpen then c
    else match kind
      case Message => ResetHeartbeat(c, opts)
      case Typed(t) =>
        OccurrencesZero(c.listeners, t);
        Rearmed(c, opts, Occurrences(c.listeners, t))
  }

  /** A heard frame postpones the heartbeat: the expiry of the arming that was pending
      before it changes nothing, and the arming it leaves pending is the one that counts. */
  lemma FrameDefersHeartbeat(c: Conn, opts: Options, kind: FrameKind)
    requires Valid(c, opts) && Heard(c, kind)
    ensures var r := Frame(c, opts, kind);
      Armed(c, c.armings) && HeartbeatFired(r, opts, c.armings) == r
      && HeartbeatFired(r, opts, r.armings).state == Reconnecting
  {
  }

  /** A frame nobody listens for leaves the pending heartbeat as it was. */
  lemma UnheardFrameKeepsDeadline(c: Conn, opts: Options, kind: FrameKind, id: nat)
    requires !Heard(c, kind)
    ensures HeartbeatFired(Frame(c, opts, kind), opts, id) == HeartbeatFired(c, opts, id)
  {
  }

  /** The handler calls a frame causes, in order: every listener wired for the frame's type
      runs the type's current handler set once, unless the payload does not parse. */
  function Delivered(c: Conn, kind: FrameKind, payload: Payload): (hs: seq<HandlerId>)
    ensures forall h :: h in hs <==>
      c.source == SourceOpen && kind.Typed? && payload.Parsed? && kind.eventType in c.listeners
      && h in HandlersOf(c.registry, kind.eventType)
    ensures payload.Malformed? || c.source != SourceOpen || kind.Message? ==> hs == []
  {
    if c.source == SourceOpen && kind.Typed? && payload.Parsed? then
      OccurrencesZero(c.listeners, kind.eventType);
      Fanout(HandlersOf(c.registry, kind.eventType), Occurrences(c.listeners, kind.eventType))
    else []
  }

  /** Each handler registered for `t` runs once per listener wired for `t`. */
  lemma DeliveredOncePerListener(c: Conn, opts: Options, t: EventType, d: Json, h: HandlerId)
    requires Valid(c, opts) && c.source == SourceOpen && h in HandlersOf(c.registry, t)
    ensures Occurrences(Delivered(c, Typed(t), Parsed(d)), h) == Occurrences(c.listeners, t)
  {
    var hs := HandlersOf(c.registry, t);
    FanoutOccurrences(hs, Occurrences(c.listeners, t), h);
    OccurrencesDistinct(hs, h);
  }

  // ---------------------------------------------------------------- runs of stimuli

  /** Everything that can happen to a client: a public call or a callback from outside. */
  datatype Stimulus =
    | CallConnect(constructed: bool)
    | CallDisconnect
    | CallUpdateToken(token: string, constructed: bool)
    | CallOn(t: EventType, h: HandlerId)
    | CallOff(t: EventType, h: HandlerId)
    | CallOffAll(t: EventType)
    | CallClearHandlers
    | Opened
    | Errored
    | HeartbeatElapsed(arming: nat)
    | ReconnectElapsed(constructed: bool)
    | StrayElapsed(constructed: bool)
    | Received(kind: FrameKind)

  function Step(c: Conn, opts: Options, s: Stimulus): (r: Conn)
    ensures Valid(c, opts) ==> Valid(r, opts)
  {
    match s
    case CallConnect(b) => Connect(c, opts, b)
    case CallDisconnect => Disconnect(c)
    case CallUpdateToken(tok, b) => UpdateToken(c, opts, tok, b)
    case CallOn(t, h) => On(c, t, h)
    case CallOff(t, h) => Off(c, t, h)
    case CallOffAll(t) => OffAll(c, t)
    case CallClearHandlers => ClearHandlers(c)
    case Opened => Open(c, opts)
    case Errored => TransportError(c, opts)
    case HeartbeatElapsed(id) => HeartbeatFired(c, opts, id)
    case ReconnectElapsed(b) => ReconnectTimerFired(c, opts, b)
    case StrayElapsed(b) => StrayFired(c, opts, b)
    case Received(kind) => Frame(c, opts, kind)
  }

  /** The stimuli applied one after another; the invariant holds after any run. */
  function Run(c: Conn, opts: Options, ss: seq<Stimulus>): (r: Conn)
    ensures Valid(c, opts) ==> Valid(r, opts)
    decreases |ss|
  {
    if ss == [] then c else Run(Step(c, opts, ss[0]), opts, ss[1..])
  }

  lemma {:induction false} RunAppend(c: Conn, opts: Options, a: seq<Stimulus>, b: seq<Stimulus>)
    ensures Run(c, opts, a + b) == Run(Run(c, opts, a), opts, b)
    decreases |a|
  {
    if a == [] {
      assert a + b == b;
    } else {
      assert (a + b)[1..] == a[1..] + b;
      RunAppend(Step(c, opts, a[0]), opts, a[1..], b);
    }
  }

  /** With unlimited attempts (the default) the failed state is never reached. */
  lemma UnlimitedNeverFails(c: Conn, opts: Options, ss: seq<Stimulus>)
    requires Valid(c, opts) && opts.maxReconnectAttempts == 0
    ensures Run(c, opts, ss).state != Failed
  {
  }

  /** After `disconnect()` nothing reconnects by itself, provided no orphaned reconnect
      timer is pending: whatever timers, transport events or handler calls follow, the client
      stays disconnected until `connect()` is called. `OrphanedTimerReconnects` shows that
      the proviso is needed. */
  lemma {:induction false} StaysDisconnected(c: Conn, opts: Options, ss: seq<Stimulus>)
    requires Valid(c, opts) && c.state == Disconnected && c.strays == 0
    requires forall i :: 0 <= i < |ss| ==> !ss[i].CallConnect?
    ensures var r := Run(c, opts, ss);
      r.state == Disconnected && r.source == NoSource && r.reconnectTimer == None
      && r.heartbeatTimer == None && r.strays == 0
    decreases |ss|
  {
    if ss != [] {
      var c1 := Step(c, opts, ss[0]);
      assert c1.state == Disconnected;
      StaysDisconnected(c1, opts, ss[1..]);
    }
  }

  /** Timers and transport callbacks that arrive after `disconnect()` change nothing, except
      the orphaned reconnect timers, which `disconnect()` cannot reach. */
  lemma DisconnectCancels(c: Conn, opts: Options, constructed: bool)
    ensures var d := Disconnect(c);
      ReconnectTimerFired(d, opts, constructed) == d && (forall id :: HeartbeatFired(d, opts, id) == d)
      && TransportError(d, opts) == d && Open(d, opts) == d
      && d.strays == c.strays && (c.strays == 0 ==> StrayFired(d, opts, constructed) == d)
  {
  }

  // ---------------------------------------------------------------- the orphaned reconnect timer

  /** The code as written. `connect()` while a reconnect is pending (the client has no
      transport, so `disconnect()` is not called and the timer stays), then the new transport
      opens and fails: the second `attemptReconnect` overwrites the handle of the first
      timer, which is still pending. After `disconnect()` the client is disconnected and
      holds no handle, yet the orphaned timer fires and the client connects again. */
  lemma OrphanedTimerReconnects()
    ensures var o := DEFAULT_OPTIONS;
      var d := Disconnect(TransportError(Open(Connect(TransportError(
                 Connect(Initial(""), o, true), o), o, true), o), o));
      d.state == Disconnected && d.reconnectTimer == None && d.strays == 1
      && StrayFired(d, o, true).state == Connecting
  {
    var o := DEFAULT_OPTIONS;
    var c2 := TransportError(Connect(Initial(""), o, true), o);
    assert c2.reconnectTimer.Some? && c2.strays == 0;
    var c3 := Connect(c2, o, true);
    assert c3.reconnectTimer.Some? && c3.strays == 0;
    var c5 := TransportError(Open(c3, o), o);
    assert c5.strays == 1;
  }

  /** `attemptReconnect` with `clearReconnectTimeout()` before the new `setTimeout`: the
      same as the code as written except that no timer is orphaned. */
  function AttemptReconnectCleared(c: Conn, opts: Options): (r: Conn)
    ensures r.strays == c.strays
    ensures r == AttemptReconnect(c, opts).(strays := c.strays)
  {
    if Exhausted(opts, c.attempts) then AttemptReconnect(c, opts)
    else AttemptReconnect(ClearReconnectTimeout(c), opts)
  }

  /** `handleError` over the corrected `attemptReconnect`. */
  function HandleErrorCleared(c: Conn, opts: Options, cause: ErrorCause): (r: Conn)
    ensures r.strays == c.strays
    ensures r == HandleError(c, opts, cause).(strays := c.strays)
  {
    var c1 := ClearHeartbeatTimeout(c).(notices := c.notices + [Error(cause)]);
    AttemptReconnectCleared(CloseSource(c1), opts)
  }

  /** With the correction, an error on a client that has no orphaned timer leaves none, so a
      later `disconnect()` is final: whatever stimuli other than `connect()` follow, the
      client stays disconnected. In the run above, the second error is such an error. */
  lemma {:induction false} ClearedDisconnectIsFinal(c: Conn, opts: Options, cause: ErrorCause, ss: seq<Stimulus>)
    requires Valid(c, opts) && c.strays == 0
    requires forall i :: 0 <= i < |ss| ==> !ss[i].CallConnect?
    ensures var d := Disconnect(HandleErrorCleared(c, opts, cause));
      d.strays == 0 && Run(d, opts, ss).state == Disconnected
  {
    var e := HandleErrorCleared(c, opts, cause);
    assert Valid(e, opts);
    StaysDisconnected(Disconnect(e), opts, ss);
  }

  /** One reconnect that fails again: the reconnect timer fires, and the new transport
      reports an error. */
  const RETRY_CYCLE: seq<Stimulus> := [ReconnectElapsed(true), Errored]

  /** `n` reconnect cycles that each fail again. */
  function FailingRetries(n: nat): (ss: seq<Stimulus>)
    ensures |ss| == 2 * n
  {
    if n == 0 then [] else RETRY_CYCLE + FailingRetries(n - 1)
  }

  /** One failed reconnect cycle, callback by callback. */
  function Cycle(c: Conn, opts: Options): Conn {
    TransportError(ReconnectTimerFired(c, opts, true), opts)
  }

  /** The state after `n` failed reconnect cycles, one cycle at a time. */
  function Retried(c: Conn, opts: Options, n: nat): Conn
    decreases n
  {
    if n == 0 then c else Retried(Cycle(c, opts), opts, n - 1)
  }

  lemma RunCycle(c: Conn, opts: Options)
    ensures Run(c, opts, RETRY_CYCLE) == Cycle(c, opts)
  {
    RunTwo(c, opts, ReconnectElapsed(true), Errored);
  }

  lemma {:induction false} RunFailingRetries(c: Conn, opts: Options, n: nat)
    ensures Run(c, opts, FailingRetries(n)) == Retried(c, opts, n)
    decreases n
  {
    if n > 0 {
      RunAppend(c, opts, RETRY_CYCLE, FailingRetries(n - 1));
      RunCycle(c, opts);
      RunFailingRetries(Cycle(c, opts), opts, n - 1);
    }
  }

  lemma RunTwo(c: Conn, opts: Options, a: Stimulus, b: Stimulus)
    ensures Run(c, opts, [a, b]) == Step(Step(c, opts, a), opts, b)
  {
    assert [a, b][1..] == [b];
    assert Run(c, opts, [a, b]) == Run(Step(c, opts, a), opts, [b]);
    assert [b][1..] == [];
    assert Run(Step(c, opts, a), opts, [b]) == Run(Step(Step(c, opts, a), opts, b), opts, []);
  }

  /** One failed reconnect cycle from the reconnecting state counts one more attempt and
      schedules the next delay of the backoff. */
  lemma OneRetry(c: Conn, opts: Options)
    requires Valid(c, opts) && c.state == Reconnecting && opts.maxReconnectAttempts == 0
    ensures var r := Cycle(c, opts);
      Valid(r, opts) && r.state == Reconnecting && r.attempts == c.attempts + 1
  {
    var c1 := ReconnectTimerFired(c, opts, true);
    assert c1.source == SourceConnecting && c1.attempts == c.attempts;
    var c2 := TransportError(c1, opts);
    assert c2 == HandleError(c1, opts, ConnectionError);
  }

  lemma {:induction false} RetriedCount(c: Conn, opts: Options, n: nat)
    requires Valid(c, opts) && c.state == Reconnecting && opts.maxReconnectAttempts == 0
    ensures var r := Retried(c, opts, n);
      Valid(r, opts) && r.state == Reconnecting && r.attempts == c.attempts + n
    decreases n
  {
    if n > 0 {
      var c1 := Cycle(c, opts);
      OneRetry(c, opts);
      RetriedCount(c1, opts, n - 1);
      assert Retried(c, opts, n) == Retried(c1, opts, n - 1);
    }
  }

  /** Each of `n` failed reconnect cycles counts one more attempt and schedules the next
      delay of the backoff. */
  lemma RetriesCount(c: Conn, opts: Options, n: nat)
    requires Valid(c, opts) && c.state == Reconnecting && opts.maxReconnectAttempts == 0
    ensures var r := Run(c, opts, FailingRetries(n));
      Valid(r, opts) && r.state == Reconnecting && r.attempts == c.attempts + n
      && r.reconnectTimer == Some(Backoff(opts, c.attempts + n))
  {
    var r := Retried(c, opts, n);
    RunFailingRetries(c, opts, n);
    RetriedCount(c, opts, n);
    PendingBackoff(r, opts);
    assert Run(c, opts, FailingRetries(n)) == r;
  }

  /** A reconnecting client waits for the backoff delay of its attempt count. */
  lemma PendingBackoff(c: Conn, opts: Options)
    requires Valid(c, opts) && c.state == Reconnecting
    ensures c.reconnectTimer == Some(Backoff(opts, c.attempts))
  {
  }

  /** After the `n`-th consecutive failure of a connection attempt the counter is `n` and
      the pending delay is `Backoff(opts, n)`; the next successful open resets the counter. */
  lemma ConsecutiveFailures(c: Conn, opts: Options, n: nat)
    requires Valid(c, opts) && c.state == Connecting && c.attempts == 0
    requires opts.maxReconnectAttempts == 0 && n >= 1
    ensures var r := Run(c, opts, [Errored] + FailingRetries(n - 1));
      r.attempts == n && r.reconnectTimer == Some(Backoff(opts, n))
      && Run(r, opts, [ReconnectElapsed(true), Opened]).attempts == 0
  {
    var c1 := Run(c, opts, [Errored]);
    FirstFailure(c, opts);
    RunAppend(c, opts, [Errored], FailingRetries(n - 1));
    RetriesCount(c1, opts, n - 1);
    AfterRetriesOpen(Run(c1, opts, FailingRetries(n - 1)), opts);
  }

  /** The first failure of a fresh connection attempt schedules the first reconnect. */
  lemma FirstFailure(c: Conn, opts: Options)
    requires Valid(c, opts) && c.state == Connecting && c.attempts == 0
    requires opts.maxReconnectAttempts == 0
    ensures var c1 := Run(c, opts, [Errored]);
      Valid(c1, opts) && c1.state == Reconnecting && c1.attempts == 1
  {
    assert Run(c, opts, [Errored]) == Step(c, opts, Errored);
  }

  /** A reconnecting client whose next transport opens is connected with the counter reset. */
  lemma AfterRetriesOpen(r: Conn, opts: Options)
    requires Valid(r, opts) && r.state == Reconnecting
    ensures Run(r, opts, [ReconnectElapsed(true), Opened]).attempts == 0
  {
    RunTwo(r, opts, ReconnectElapsed(true), Opened);
  }

  /** Once attempts are exhausted, an error ends in the failed state and schedules nothing. */
  lemma ExhaustedFails(c: Conn, opts: Options)
    requires Valid(c, opts) && c.source != NoSource && Exhausted(opts, c.attempts)
    ensures var r := TransportError(c, opts);
      r.state == Failed && r.reconnectTimer == c.reconnectTimer && r.attempts == c.attempts
      && Error(ConnectionError) in r.notices
  {
    var r := TransportError(c, opts);
    assert r.notices[|c.notices|] == Error(ConnectionError);
  }

  /** A connected client whose pending heartbeat expires goes to reconnecting once; no
      heartbeat expiry after that changes anything. */
  lemma HeartbeatTimeoutOnce(c: Conn, opts: Options)
    requires Valid(c, opts) && c.state == Connected
    ensures var r := HeartbeatFired(c, opts, c.armings);
      r.state == Reconnecting && r.attempts == 1 && r.source == NoSource
      && forall id :: HeartbeatFired(r, opts, id) == r
  {
  }

  /** `connect()` on a live transport passes through 'disconnected' on its way to
      'connecting': observers see both changes. */
  lemma ConnectOnLiveFlickers(c: Conn, opts: Options)
    requires Valid(c, opts) && c.source != NoSource
    ensures Connect(c, opts, true).notices == c.notices + [StateChange(Disconnected), StateChange(Connecting)]
  {
  }

  /** `updateToken` on a connected client: disconnect, then connect with the new token. */
  lemma UpdateTokenReconnects(c: Conn, opts: Options, token: string)
    requires Valid(c, opts) && c.state == Connected
    ensures var r := UpdateToken(c, opts, token, true);
      r.token == token && r.state == Connecting && r.source == SourceConnecting
      && r.notices == c.notices + [StateChange(Disconnected), StateChange(Connecting)]
  {
  }

  /** A type registered while the transport is still connecting is not wired onto it:
      after the open, its frames reach nobody; the next `connect()` wires it. */
  lemma LateRegistrationMissed(c: Conn, opts: Options, t: EventType, h: HandlerId, d: Json)
    requires Valid(c, opts) && c.source == SourceConnecting && t !in c.listeners
    ensures var late := Open(On(c, t, h), opts);
      Delivered(late, Typed(t), Parsed(d)) == []
      && h in Delivered(Open(Connect(late, opts, true), opts), Typed(t), Parsed(d))
  {
    var c1 := On(c, t, h);
    UnwiredMissed(c1, opts, t, d);
    WiredOnReconnect(Open(c1, opts), opts, t, d);
  }

  /** Frames of a type the transport has no listener for reach nobody. */
  lemma UnwiredMissed(c: Conn, opts: Options, t: EventType, d: Json)
    requires t !in c.listeners
    ensures Delivered(Open(c, opts), Typed(t), Parsed(d)) == []
  {
    assert Open(c, opts).listeners == c.listeners;
    OccurrencesZero(c.listeners, t);
  }

  /** `connect()` wires every registered type exactly once, so once the new transport opens,
      a frame of `t` runs each handler registered for `t` once. */
  lemma WiredOnReconnect(c: Conn, opts: Options, t: EventType, d: Json)
    requires Consistent(c, opts)
    ensures Delivered(Open(Connect(c, opts, true), opts), Typed(t), Parsed(d)) == HandlersOf(c.registry, t)
  {
    var again := Connect(c, opts, true);
    assert again.listeners == c.registry.keys && again.source == SourceConnecting;
    var live := Open(again, opts);
    assert live.listeners == c.registry.keys && live.registry == c.registry;
    WiredOnceDelivers(live, t, d);
  }

  /** A transport wired once per registered key delivers a frame of `t` to each handler of `t`
      once. */
  lemma WiredOnceDelivers(c: Conn, t: EventType, d: Json)
    requires c.source == SourceOpen && c.listeners == c.registry.keys && RegistryValid(c.registry)
    ensures Delivered(c, Typed(t), Parsed(d)) == HandlersOf(c.registry, t)
  {
    var hs := HandlersOf(c.registry, t);
    if t in c.registry.keys {
      OccurrencesDistinct(c.registry.keys, t);
      assert Fanout(hs, 1) == hs + [];
    } else {
      assert hs == [];
    }
  }

  /** Two `on(t, h)` calls on an open transport wire `t` twice and register `h` once. */
  lemma OnTwiceWiresTwice(c: Conn, opts: Options, t: EventType, h: HandlerId)
    requires Valid(c, opts) && c.source == SourceOpen
    ensures var twice := On(On(c, t, h), t, h);
      twice.listeners == c.listeners + [t] + [t] && twice.source == SourceOpen
      && HandlersOf(twice.registry, t) == Add(HandlersOf(c.registry, t), h)
      && Valid(twice, opts)
  {
    var c1 := On(c, t, h);
    assert Valid(c1, opts) && c1.source == SourceOpen;
  }

  /** Frames of a type wired exactly twice reach each of its handlers twice. */
  lemma WiredTwiceDeliversTwice(c: Conn, opts: Options, t: EventType, h: HandlerId, d: Json, l: seq<EventType>)
    requires Valid(c, opts) && c.source == SourceOpen && h in HandlersOf(c.registry, t)
    requires c.listeners == l + [t] + [t] && t !in l
    ensures Occurrences(Delivered(c, Typed(t), Parsed(d)), h) == 2
  {
    OccurrencesAppend(l + [t], [t], t);
    OccurrencesAppend(l, [t], t);
    OccurrencesZero(l, t);
    DeliveredOncePerListener(c, opts, t, d, h);
  }

  /** A second `on(t, h)` for the same pair on an open transport, with `t` not wired before,
      makes every frame of `t` run `h` twice; when `t` had no handlers, `h` is all that runs. */
  lemma DuplicateDispatch(c: Conn, opts: Options, t: EventType, h: HandlerId, d: Json)
    requires Valid(c, opts) && c.source == SourceOpen && t !in c.listeners
    ensures var twice := On(On(c, t, h), t, h);
      Occurrences(Delivered(twice, Typed(t), Parsed(d)), h) == 2
      && (t !in c.registry.keys ==> Delivered(twice, Typed(t), Parsed(d)) == [h, h])
  {
    OnTwiceWiresTwice(c, opts, t, h);
    var c2 := On(On(c, t, h), t, h);
    assert h in HandlersOf(c2.registry, t);
    WiredTwiceDeliversTwice(c2, opts, t, h, d, c.listeners);
    if t !in c.registry.keys {
      FreshTypeDeliversTwice(c, c2, opts, t, h, d);
    }
  }

  lemma FreshTypeDeliversTwice(c: Conn, c2: Conn, opts: Options, t: EventType, h: HandlerId, d: Json)
    requires Valid(c, opts) && t !in c.registry.keys && t !in c.listeners
    requires c2.source == SourceOpen && c2.listeners == c.listeners + [t] + [t]
    requires HandlersOf(c2.registry, t) == Add(HandlersOf(c.registry, t), h)
    ensures Delivered(c2, Typed(t), Parsed(d)) == [h, h]
  {
    assert HandlersOf(c.registry, t) == [];
    OccurrencesZero(c.listeners, t);
    OccurrencesAppend(c.listeners + [t], [t], t);
    OccurrencesAppend(c.listeners, [t], t);
    assert Fanout([h], 2) == [h, h];
  }

  // ---------------------------------------------------------------- what observers see

  /** The state an `onStateChange` listener last heard of, having started out believing `s`,
      after the notices `ns`. */
  function Observed(s: ConnectionState, ns: seq<Notice>): ConnectionState
    decreases |ns|
  {
    if ns == [] then s else Observed(if ns[0].StateChange? then ns[0].state else s, ns[1..])
  }

  lemma {:induction false} ObservedAppend(s: ConnectionState, a: seq<Notice>, b: seq<Notice>)
    ensures Observed(s, a + b) == Observed(Observed(s, a), b)
    decreases |a|
  {
    if a == [] {
      assert a + b == b;
    } else {
      assert (a + b)[1..] == a[1..] + b;
      ObservedAppend(if a[0].StateChange? then a[0].state else s, a[1..], b);
    }
  }

  /** Notices that open with a state change leave the listener with the same belief,
      whatever it believed before. */
  lemma ObservedForgets(s1: ConnectionState, s2: ConnectionState, ns: seq<Notice>)
    requires ns != [] && ns[0].StateChange?
    ensures Observed(s1, ns) == Observed(s2, ns)
  {
  }

  /** `r` extends the notices of `c`, and a listener that knew the state of `c` knows the
      state of `r` after hearing the new notices. */
  predicate Tracks(c: Conn, r: Conn) {
    && |c.notices| <= |r.notices|
    && r.notices[..|c.notices|] == c.notices
    && Observed(c.state, r.notices[|c.notices|..]) == r.state
  }

  lemma TracksTrans(a: Conn, b: Conn, c: Conn)
    requires Tracks(a, b) && Tracks(b, c)
    ensures Tracks(a, c)
  {
    var x := b.notices[|a.notices|..];
    var y := c.notices[|b.notices|..];
    assert b.notices == a.notices + x;
    assert c.notices == a.notices + x + y;
    assert c.notices[|a.notices|..] == x + y;
    ObservedAppend(a.state, x, y);
  }

  /** A step that changes neither the state nor the notices. */
  lemma QuietTracks(c: Conn, r: Conn)
    requires r.state == c.state && r.notices == c.notices
    ensures Tracks(c, r)
  {
    assert r.notices[|c.notices|..] == [];
  }

  /** A step that adds one notice that is not a state change, leaving the state. */
  lemma NoticeTracks(c: Conn, r: Conn, n: Notice)
    requires r.state == c.state && r.notices == c.notices + [n] && !n.StateChange?
    ensures Tracks(c, r)
  {
    assert r.notices[|c.notices|..] == [n];
  }

  lemma SetStateTracks(c: Conn, s: ConnectionState)
    ensures Tracks(c, SetState(c, s))
  {
    var r := SetState(c, s);
    if c.state != s {
      assert r.notices[|c.notices|..] == [StateChange(s)];
    } else {
      QuietTracks(c, r);
    }
  }

  lemma AttemptReconnectTracks(c: Conn, opts: Options)
    ensures Tracks(c, AttemptReconnect(c, opts))
  {
    if Exhausted(opts, c.attempts) {
      SetStateTracks(c, Failed);
    } else {
      var n := c.attempts + 1;
      var c1 := SetState(c, Reconnecting).(attempts := n);
      SetStateTracks(c, Reconnecting);
      QuietTracks(SetState(c, Reconnecting), c1);
      TracksTrans(c, SetState(c, Reconnecting), c1);
      var r := AttemptReconnect(c, opts);
      NoticeTracks(c1, r, Reconnect(n));
      TracksTrans(c, c1, r);
    }
  }

  lemma HandleErrorTracks(c: Conn, opts: Options, cause: ErrorCause)
    ensures Tracks(c, HandleError(c, opts, cause))
  {
    var c1 := ClearHeartbeatTimeout(c).(notices := c.notices + [Error(cause)]);
    NoticeTracks(c, c1, Error(cause));
    QuietTracks(c1, CloseSource(c1));
    TracksTrans(c, c1, CloseSource(c1));
    AttemptReconnectTracks(CloseSource(c1), opts);
    TracksTrans(c, CloseSource(c1), HandleError(c, opts, cause));
  }

  lemma DisconnectTracks(c: Conn)
    ensures Tracks(c, Disconnect(c))
  {
    var c1 := CloseSource(ClearHeartbeatTimeout(ClearReconnectTimeout(c)));
    QuietTracks(c, c1);
    SetStateTracks(c1, Disconnected);
    TracksTrans(c, c1, Disconnect(c));
  }

  lemma ConnectTracks(c: Conn, opts: Options, constructed: bool)
    ensures Tracks(c, Connect(c, opts, constructed))
  {
    var c1 := if c.source != NoSource then Disconnect(c) else c;
    if c.source != NoSource {
      DisconnectTracks(c);
    } else {
      QuietTracks(c, c1);
    }
    var c2 := SetState(c1, Connecting);
    SetStateTracks(c1, Connecting);
    TracksTrans(c, c1, c2);
    var r := Connect(c, opts, constructed);
    if constructed {
      QuietTracks(c2, r);
    } else {
      HandleErrorTracks(c2, opts, ConstructionFailed);
    }
    TracksTrans(c, c2, r);
  }

  /** `connect()` on a client without a transport that is not already connecting opens its
      notices with the change to 'connecting'. */
  lemma ConnectAnnounces(c: Conn, opts: Options, constructed: bool)
    requires c.source == NoSource && c.state != Connecting
    ensures var r := Connect(c, opts, constructed);
      |r.notices| > |c.notices| && r.notices[|c.notices|] == StateChange(Connecting)
  {
    var c2 := SetState(c, Connecting);
    assert c2.notices == c.notices + [StateChange(Connecting)];
    if !constructed {
      var r := HandleError(c2, opts, ConstructionFailed);
      assert r.notices[..|c2.notices|] == c2.notices;
    }
  }

  lemma UpdateTokenTracks(c: Conn, opts: Options, tok: string, b: bool)
    ensures Tracks(c, UpdateToken(c, opts, tok, b))
  {
    var r := UpdateToken(c, opts, tok, b);
    if c.state == Connected {
      var c1 := c.(token := tok);
      QuietTracks(c, c1);
      DisconnectTracks(c1);
      TracksTrans(c, c1, Disconnect(c1));
      ConnectTracks(Disconnect(c1), opts, b);
      TracksTrans(c, Disconnect(c1), r);
    } else {
      QuietTracks(c, r);
    }
  }

  lemma OpenTracks(c: Conn, opts: Options)
    ensures Tracks(c, Open(c, opts))
  {
    var r := Open(c, opts);
    if c.source == SourceConnecting {
      var c1 := c.(source := SourceOpen, attempts := 0);
      QuietTracks(c, c1);
      SetStateTracks(c1, Connected);
      TracksTrans(c, c1, SetState(c1, Connected));
      QuietTracks(SetState(c1, Connected), r);
      TracksTrans(c, SetState(c1, Connected), r);
    } else {
      QuietTracks(c, r);
    }
  }

  lemma TimerTracks(c: Conn, opts: Options, s: Stimulus)
    requires s.HeartbeatElapsed? || s.ReconnectElapsed? || s.StrayElapsed?
    ensures Tracks(c, Step(c, opts, s))
  {
    var r := Step(c, opts, s);
    match s
    case HeartbeatElapsed(id) =>
      if Armed(c, id) {
        var c1 := c.(heartbeatTimer := None);
        QuietTracks(c, c1);
        HandleErrorTracks(c1, opts, HeartbeatTimeout);
        TracksTrans(c, c1, r);
      } else {
        QuietTracks(c, r);
      }
    case ReconnectElapsed(b) =>
      if c.reconnectTimer.Some? {
        var c1 := c.(reconnectTimer := None);
        QuietTracks(c, c1);
        ConnectTracks(c1, opts, b);
        TracksTrans(c, c1, r);
      } else {
        QuietTracks(c, r);
      }
    case StrayElapsed(b) =>
      if c.strays > 0 {
        var c1 := c.(strays := c.strays - 1);
        QuietTracks(c, c1);
        ConnectTracks(c1, opts, b);
        TracksTrans(c, c1, r);
      } else {
        QuietTracks(c, r);
      }
  }

  /** Every stimulus keeps an `onStateChange` listener informed: the state it last heard of
      is the client's state. */
  lemma StepTracks(c: Conn, opts: Options, s: Stimulus)
    ensures Tracks(c, Step(c, opts, s))
  {
    var r := Step(c, opts, s);
    match s
    case CallConnect(b) => ConnectTracks(c, opts, b);
    case CallDisconnect => DisconnectTracks(c);
    case CallUpdateToken(tok, b) => UpdateTokenTracks(c, opts, tok, b);
    case CallOn(t, h) => QuietTracks(c, r);
    case CallOff(t, h) => QuietTracks(c, r);
    case CallOffAll(t) => QuietTracks(c, r);
    case CallClearHandlers => QuietTracks(c, r);
    case Opened => OpenTracks(c, opts);
    case Errored =>
      if c.source != NoSource {
        HandleErrorTracks(c, opts, ConnectionError);
      } else {
        QuietTracks(c, r);
      }
    case HeartbeatElapsed(id) => TimerTracks(c, opts, s);
    case ReconnectElapsed(b) => TimerTracks(c, opts, s);
    case StrayElapsed(b) => TimerTracks(c, opts, s);
    case Received(kind) => QuietTracks(c, r);
  }

  // ---------------------------------------------------------------- wiring kept by callbacks

  /** A live transport carries exactly one listener per registered key, in key order. */
  predicate WiredOnce(c: Conn) {
    c.source != NoSource ==> c.listeners == c.registry.keys
  }

  /** Stimuli that leave the registry alone. */
  predicate KeepsRegistry(s: Stimulus) {
    !(s.CallOn? || s.CallOff? || s.CallOffAll? || s.CallClearHandlers?)
  }

  /** A client whose registry no longer changes stays wired once per key: `connect()` wires
      every key, and every other step either keeps the listeners or drops the transport. */
  lemma StaysWiredOnce(c: Conn, opts: Options, s: Stimulus)
    requires Consistent(c, opts) && WiredOnce(c) && KeepsRegistry(s)
    ensures Step(c, opts, s).registry == c.registry && WiredOnce(Step(c, opts, s))
  {
    match s
    case CallUpdateToken(tok, b) =>
      if c.state == Connected {
        var c1 := Disconnect(c.(token := tok));
        assert Consistent(c1, opts);
      }
    case ReconnectElapsed(b) =>
      if c.reconnectTimer.Some? {
        assert Consistent(c.(reconnectTimer := None), opts);
      }
    case StrayElapsed(b) =>
      if c.strays > 0 {
        assert Consistent(c.(strays := c.strays - 1), opts);
      }
    case _ =>
  }
}
