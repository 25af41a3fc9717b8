/**
 * Concrete runs of a fresh `SseClient.Client`, one per behaviour of src/services/sse.ts
 * worth seeing end to end: the quirks of wiring (duplicate dispatch, late registration),
 * the flicker of a second `connect()`, the backoff schedule, heartbeat expiry and its
 * deferral by frames, the orphaned reconnect timer, the cap on attempts, and the isolation
 * of throwing handlers. Each result is pinned down exactly.
 */
module SseScenarios {
  import opened Wrappers
  import opened SeqSet
  import opened Json
  import opened SseClient
  import M = SseMachine

  const TICKETS_URL: string := "/api/v1/sse/tickets"
  const NO_OVERRIDES: M.Overrides := M.Overrides(None, None, None, None)

  /** `on(t, h)` twice on an open transport: one frame of `t` runs `h` twice. */
  method DuplicateDispatch(d: Json) returns (invoked: seq<M.HandlerId>)
    ensures invoked == [1, 1]
  {
    var c := new Client(TICKETS_URL, "token", NO_OVERRIDES);
    c.Connect(true);
    c.Open();
    ghost var before := c.Model();
    M.DuplicateDispatch(before, c.options, M.TicketCreated, 1, d);
    c.On(M.TicketCreated, 1);
    c.On(M.TicketCreated, 1);
    var caught;
    invoked, caught := c.Frame(M.Typed(M.TicketCreated), M.Parsed(d), {});
  }

  /** `on(t, h)` while the transport is still connecting: once open, frames of `t` reach
      nobody; after the next `connect()` and open they reach `h`. */
  method LateRegistration(d: Json) returns (missed: seq<M.HandlerId>, later: seq<M.HandlerId>)
    ensures missed == [] && later == [1]
  {
    var c := new Client(TICKETS_URL, "token", NO_OVERRIDES);
    c.Connect(true);
    M.LateRegistrationMissed(c.Model(), c.options, M.TicketUpdated, 1, d);
    c.On(M.TicketUpdated, 1);
    c.Open();
    var caught;
    missed, caught := c.Frame(M.Typed(M.TicketUpdated), M.Parsed(d), {});
    M.WiredOnReconnect(c.Model(), c.options, M.TicketUpdated, d);
    assert M.HandlersOf(c.Model().registry, M.TicketUpdated) == [1];
    c.Connect(true);
    c.Open();
    later, caught := c.Frame(M.Typed(M.TicketUpdated), M.Parsed(d), {});
  }

  /** `connect()` on a live client: observers see 'disconnected' before 'connecting'. */
  method ConnectTwice() returns (seen: seq<M.Notice>)
    ensures seen == [M.StateChange(M.Connecting), M.StateChange(M.Connected),
                     M.StateChange(M.Disconnected), M.StateChange(M.Connecting)]
  {
    var c := new Client(TICKETS_URL, "token", NO_OVERRIDES);
    c.Connect(true);
    c.Open();
    c.Connect(true);
    seen := c.notices;
  }

  /** A fresh, never connected client with the distinct handlers `hs` registered for `t`. */
  method RegisteredWith(t: M.EventType, hs: seq<M.HandlerId>) returns (c: Client)
    requires Distinct(hs)
    ensures fresh(c) && c.Valid() && c.source == M.NoSource && c.options == M.DEFAULT_OPTIONS
    ensures c.keys == (if hs == [] then [] else [t]) && M.HandlersOf(c.Model().registry, t) == hs
  {
    c := new Client(TICKETS_URL, "token", NO_OVERRIDES);
    var i := 0;
    while i < |hs|
      invariant 0 <= i <= |hs|
      invariant c.Valid() && c.source == M.NoSource && c.options == M.DEFAULT_OPTIONS
      invariant c.keys == (if i == 0 then [] else [t]) && M.HandlersOf(c.Model().registry, t) == hs[..i]
    {
      assert hs[..i + 1] == hs[..i] + [hs[i]];
      assert hs[i] !in hs[..i];
      c.On(t, hs[i]);
      i := i + 1;
    }
    assert hs[..|hs|] == hs;
  }

  /** The same, connected and open: `t` is wired once if it has handlers. */
  method OpenWith(t: M.EventType, hs: seq<M.HandlerId>) returns (c: Client)
    requires Distinct(hs)
    ensures fresh(c) && c.Valid() && c.source == M.SourceOpen
    ensures c.listeners == (if hs == [] then [] else [t]) && M.HandlersOf(c.Model().registry, t) == hs
  {
    c := RegisteredWith(t, hs);
    c.Connect(true);
    c.Open();
  }

  /** A handler that throws does not stop the handlers after it. */
  method ThrowingHandler(d: Json) returns (invoked: seq<M.HandlerId>, caught: seq<M.HandlerId>)
    ensures invoked == [1, 2, 3] && caught == [2]
  {
    var c := OpenWith(M.Notification, [1, 2, 3]);
    assert Occurrences(c.listeners, M.Notification) == 1;
    invoked, caught := c.Frame(M.Typed(M.Notification), M.Parsed(d), {2});
    assert invoked == Fanout([1, 2, 3], 1) == [1, 2, 3];
    assert [1, 2, 3][1..] == [2, 3] && [2, 3][1..] == [3];
  }

  /** A frame whose data does not parse runs no handler and leaves the client connected. */
  method MalformedFrame() returns (invoked: seq<M.HandlerId>, state: M.ConnectionState)
    ensures invoked == [] && state == M.Connected
  {
    var c := new Client(TICKETS_URL, "token", NO_OVERRIDES);
    c.On(M.TicketAssigned, 1);
    c.Connect(true);
    c.Open();
    var caught;
    invoked, caught := c.Frame(M.Typed(M.TicketAssigned), M.Malformed, {});
    state := c.state;
  }

  /** With the default options, `n` failed attempts in a row schedule the delays 1000,
      2000, 4000, 8000, 16000 ms and then 30000 ms for every later attempt. */
  method BackoffSchedule(n: nat) returns (delays: seq<nat>)
    ensures |delays| == n
    ensures forall j :: 0 <= j < n ==> delays[j] == if j < 5 then 1000 * M.Pow2(j) else 30000
  {
    var c := new Client(TICKETS_URL, "token", NO_OVERRIDES);
    c.Connect(true);
    delays := [];
    var i := 0;
    while i < n
      invariant 0 <= i <= n
      invariant c.Valid() && c.options == M.DEFAULT_OPTIONS
      invariant c.source == M.SourceConnecting && c.reconnectAttempts == i
      invariant |delays| == i
      invariant forall j :: 0 <= j < i ==> delays[j] == if j < 5 then 1000 * M.Pow2(j) else 30000
    {
      c.TransportError();
      M.DefaultBackoff(i + 1);
      delays := delays + [c.reconnectTimer.value];
      c.ReconnectTimerFired(true);
      i := i + 1;
    }
  }

  /** A connected client whose heartbeat expires schedules its first reconnect after 1000 ms;
      a second expiry finds no timer. */
  method HeartbeatExpiry() returns (state: M.ConnectionState, timer: Option<nat>, again: M.ConnectionState)
    ensures state == M.Reconnecting && timer == Some(1000) && again == M.Reconnecting
  {
    var c := new Client(TICKETS_URL, "token", NO_OVERRIDES);
    c.Connect(true);
    c.Open();
    var pending := c.armings;
    c.HeartbeatFired(pending);
    state, timer := c.state, c.reconnectTimer;
    c.HeartbeatFired(pending);
    again := c.state;
  }

  /** A frame re-arms the heartbeat: when the timer armed before it goes off, nothing
      happens; the client fails over only when the timer the frame armed expires. */
  method HeartbeatDeferred(d: Json) returns (kept: M.ConnectionState, expired: M.ConnectionState)
    ensures kept == M.Connected && expired == M.Reconnecting
  {
    var c := new Client(TICKETS_URL, "token", NO_OVERRIDES);
    c.Connect(true);
    c.Open();
    var first := c.armings;
    var invoked, caught := c.Frame(M.Message, M.Parsed(d), {});
    c.HeartbeatFired(first);
    kept := c.state;
    c.HeartbeatFired(c.armings);
    expired := c.state;
  }

  /** `connect()` while a reconnect is pending, then an open and an error: the first timer's
      handle is overwritten, so `disconnect()` cannot cancel it, and when it fires the
      disconnected client connects again. */
  method OrphanedReconnectTimer() returns (stopped: M.ConnectionState, revived: M.ConnectionState)
    ensures stopped == M.Disconnected && revived == M.Connecting
  {
    var c := new Client(TICKETS_URL, "token", NO_OVERRIDES);
    c.Connect(true);
    c.TransportError();
    c.Connect(true);
    c.Open();
    c.TransportError();
    c.Disconnect();
    stopped := c.state;
    c.StrayFired(true);
    revived := c.state;
  }

  /** With at most two attempts, the third error in a row fails the client, which then
      schedules nothing. */
  method AttemptsExhausted() returns (state: M.ConnectionState, attempts: nat, timer: Option<nat>)
    ensures state == M.Failed && attempts == 2 && timer == None
  {
    var c := new Client(TICKETS_URL, "token", M.Overrides(Some(2), None, None, None));
    c.Connect(true);
    c.TransportError();
    c.ReconnectTimerFired(true);
    c.TransportError();
    c.ReconnectTimerFired(true);
    c.TransportError();
    state, attempts, timer := c.state, c.reconnectAttempts, c.reconnectTimer;
  }

  /** Timers that fire after `disconnect()` find nothing to do. */
  method DisconnectWhileReconnecting() returns (state: M.ConnectionState, source: M.Source)
    ensures state == M.Disconnected && source == M.NoSource
  {
    var c := new Client(TICKETS_URL, "token", NO_OVERRIDES);
    c.Connect(true);
    c.TransportError();
    c.Disconnect();
    c.ReconnectTimerFired(true);
    c.HeartbeatFired(c.armings);
    c.StrayFired(true);
    state, source := c.state, c.source;
  }
}
