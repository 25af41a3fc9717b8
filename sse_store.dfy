/**
 * The SSE store (src/stores/sse.ts) as a class that owns two `SseClient.Client`s, one for
 * the ticket stream and one for the notification stream, and the `useSSE` composable as a
 * class over a store.
 *
 * The handlers the store registers on its clients are closures; the model names the one
 * for type `t` by `InternalHandler(t)` and runs its body itself after the client reports
 * the call. Those bodies only touch the store, so running them after the client's
 * dispatch loop instead of inside it changes nothing observable.
 */
module SseStore {
  import opened Wrappers
  import opened SeqSet
  import opened Json
  import opened Dispatch
  import opened SseEvents
  import opened SseClient
  import M = SseMachine

  const API_BASE_URL: string := "/api/v1"
  const TICKETS_URL: string := API_BASE_URL + "/sse/tickets"
  const NOTIFICATIONS_URL: string := API_BASE_URL + "/sse/notifications"

  /** The options both clients are created with; together with the defaults they are
      exactly `DEFAULT_OPTIONS`. */
  const CLIENT_OVERRIDES: M.Overrides := M.Overrides(Some(0), Some(1000), Some(30000), None)

  /** The types the ticket stream's events are kept for. */
  const TICKET_EVENT_TYPES: seq<M.EventType> :=
    [M.TicketCreated, M.TicketUpdated, M.TicketStatusChanged, M.TicketAssigned, M.WorklogAdded]

  /** The identity of the closure the store registers for `t`. */
  function InternalHandler(t: M.EventType): M.HandlerId {
    match t
    case ConnectedEvent => 0
    case TicketCreated => 1
    case TicketUpdated => 2
    case TicketStatusChanged => 3
    case TicketAssigned => 4
    case WorklogAdded => 5
    case Notification => 6
  }

  datatype Topic = Tickets | Notifications

  /** The types the store listens for on a stream. */
  function TopicTypes(topic: Topic): (ts: seq<M.EventType>)
    ensures Distinct(ts)
    ensures topic == Tickets ==> M.Notification !in ts && M.ConnectedEvent !in ts
    ensures topic == Notifications ==> ts == [M.Notification]
  {
    if topic == Tickets then TICKET_EVENT_TYPES else [M.Notification]
  }

  /** Transport and timer callbacks reaching one of the store's clients. */
  datatype Signal =
    | Opened
    | Errored
    | HeartbeatElapsed(arming: nat)
    | ReconnectElapsed(constructed: bool)
    | StrayElapsed(constructed: bool)

  function StimulusOf(s: Signal): M.Stimulus {
    match s
    case Opened => M.Opened
    case Errored => M.Errored
    case HeartbeatElapsed(id) => M.HeartbeatElapsed(id)
    case ReconnectElapsed(b) => M.ReconnectElapsed(b)
    case StrayElapsed(b) => M.StrayElapsed(b)
  }

  /** A client as the store leaves it: default options, exactly its topic's types
      registered, each with the store's one handler, and, while it has a transport, each
      wired once. */
  ghost predicate Wired(c: Client, topic: Topic)
    reads c
  {
    && c.Valid()
    && c.options == M.DEFAULT_OPTIONS
    && c.keys == TopicTypes(topic)
    && (forall t :: t in TopicTypes(topic) ==> c.handlers[t] == [InternalHandler(t)])
    && M.WiredOnce(c.Model())
  }

  /** The other stream. */
  function Other(topic: Topic): Topic {
    if topic == Tickets then Notifications else Tickets
  }

  /** The overrides the store passes fill in to exactly the defaults. */
  lemma DefaultOverrides()
    ensures M.WithDefaults(CLIENT_OVERRIDES) == M.DEFAULT_OPTIONS
  {
  }

  /** A fresh client for `topic` once the store's handlers are registered on it. */
  ghost function Installed(topic: Topic, token: string): M.Conn {
    Registered(topic, token, |TopicTypes(topic)|)
  }

  /** A fresh client after the first `i` types of `topic` are registered. */
  ghost function Registered(topic: Topic, token: string, i: nat): M.Conn
    requires i <= |TopicTypes(topic)|
  {
    var types := TopicTypes(topic)[..i];
    M.Initial(token).(registry := M.Registry(types, map t | t in types :: [InternalHandler(t)]))
  }

  /** Registering the next type of `topic` on a transport-less client extends the prefix. */
  lemma RegisterNext(topic: Topic, token: string, i: nat)
    requires i < |TopicTypes(topic)|
    ensures var t := TopicTypes(topic)[i];
      M.On(Registered(topic, token, i), t, InternalHandler(t)) == Registered(topic, token, i + 1)
  {
    var types := TopicTypes(topic);
    var t := types[i];
    var pre := types[..i];
    assert types[..i + 1] == pre + [t];
    assert t !in pre by {
      forall j | 0 <= j < i ensures pre[j] != t {
        assert pre[j] == types[j];
      }
    }
    var m := map u | u in pre :: [InternalHandler(u)];
    assert m[t := [InternalHandler(t)]] == map u | u in pre + [t] :: [InternalHandler(u)];
    assert M.RegisterHandler(M.Registry(pre, m), t, InternalHandler(t))
        == M.Registry(pre + [t], m[t := [InternalHandler(t)]]);
  }

  /** The registration loop of `setupInternalHandlers` for one client. */
  method RegisterInternalHandlers(c: Client, topic: Topic)
    requires c.Model() == M.Initial(c.token) && c.options == M.DEFAULT_OPTIONS
    modifies c
    ensures Wired(c, topic) && c.Model() == Installed(topic, old(c.token))
  {
    var types := TopicTypes(topic);
    ghost var token := c.token;
    assert types[..0] == [];
    var i := 0;
    while i < |types|
      invariant 0 <= i <= |types|
      invariant c.Valid() && c.options == M.DEFAULT_OPTIONS
      invariant c.Model() == Registered(topic, token, i)
    {
      var t := types[i];
      RegisterNext(topic, token, i);
      c.On(t, InternalHandler(t));
      i := i + 1;
    }
    assert types[..|types|] == types;
  }

  /** A transport or timer callback reaching a client. */
  method Stimulate(c: Client, s: Signal)
    requires c.Valid()
    modifies c
    ensures c.Valid()
    ensures c.Model() == M.Step(old(c.Model()), c.options, StimulusOf(s))
  {
    match s
    case Opened => c.Open();
    case Errored => c.TransportError();
    case HeartbeatElapsed(id) => c.HeartbeatFired(id);
    case ReconnectElapsed(b) => c.ReconnectTimerFired(b);
    case StrayElapsed(b) => c.StrayFired(b);
  }

  class Store {
    var ticketsClient: Client?
    var notificationsClient: Client?
    var ticketsConnectionState: M.ConnectionState
    var notificationsConnectionState: M.ConnectionState
    var recentEvents: seq<Event>
    var unreadNotificationCount: nat
    var eventCallbacks: Callbacks

    function ClientOf(topic: Topic): Client?
      reads this
    {
      if topic == Tickets then ticketsClient else notificationsClient
    }

    /** Both clients or neither; each state ref is what its client's `onStateChange` last
        reported, which is the client's state; the history is within its cap. */
    ghost function Valid(): (b: bool)
      reads this, ticketsClient, notificationsClient
      ensures b && ticketsConnectionState == M.Connected ==>
        ticketsClient != null && ticketsClient.source == M.SourceOpen
      ensures b && notificationsConnectionState == M.Connected ==>
        notificationsClient != null && notificationsClient.source == M.SourceOpen
    {
      && (ticketsClient == null <==> notificationsClient == null)
      && (ticketsClient != null ==>
            && ticketsClient != notificationsClient
            && Wired(ticketsClient, Tickets) && Wired(notificationsClient, Notifications)
            && ticketsConnectionState == ticketsClient.state
            && notificationsConnectionState == notificationsClient.state)
      && (ticketsClient == null ==>
            ticketsConnectionState == M.Disconnected && notificationsConnectionState == M.Disconnected)
      && |recentEvents| <= MAX_STORED_EVENTS
      && CallbacksValid(eventCallbacks)
    }

    constructor()
      ensures Valid()
      ensures ticketsClient == null && notificationsClient == null
      ensures recentEvents == [] && unreadNotificationCount == 0 && eventCallbacks == map[]
    {
      ticketsClient := null;
      notificationsClient := null;
      ticketsConnectionState := M.Disconnected;
      notificationsConnectionState := M.Disconnected;
      recentEvents := [];
      unreadNotificationCount := 0;
      eventCallbacks := map[];
    }

    /** `isTicketsConnected`: under the invariant, the ticket client's transport is open. */
    function IsTicketsConnected(): (b: bool)
      reads this, ticketsClient, notificationsClient
      ensures Valid() ==> (b <==> ticketsClient != null && ticketsClient.source == M.SourceOpen)
    {
      ticketsConnectionState == M.Connected
    }

    /** `isNotificationsConnected`. */
    function IsNotificationsConnected(): (b: bool)
      reads this, ticketsClient, notificationsClient
      ensures Valid() ==>
        (b <==> notificationsClient != null && notificationsClient.source == M.SourceOpen)
    {
      notificationsConnectionState == M.Connected
    }

    /** `isConnected`: at least one of the two streams is open. */
    function IsConnected(): (b: bool)
      reads this, ticketsClient, notificationsClient
      ensures Valid() ==> (b <==> (ticketsClient != null &&
        (ticketsClient.source == M.SourceOpen || notificationsClient.source == M.SourceOpen)))
      ensures Valid() && ticketsClient == null ==> !b
    {
      IsTicketsConnected() || IsNotificationsConnected()
    }

    /** The state ref the `onStateChange` callback of the client for `topic` writes. */
    function StateRef(topic: Topic): M.ConnectionState
      reads this
    {
      if topic == Tickets then ticketsConnectionState else notificationsConnectionState
    }

    /** The client for `topic` is open, the frame is of a type the store registered on it,
        and its data parses: exactly then the store's handler runs. */
    ghost predicate Takes(topic: Topic, kind: M.FrameKind, payload: M.Payload)
      reads this, ticketsClient, notificationsClient
    {
      && ClientOf(topic) != null && ClientOf(topic).source == M.SourceOpen
      && kind.Typed? && payload.Parsed? && kind.eventType in TopicTypes(topic)
    }

    /** What `initialize()` with `token` leaves: a client per stream URL, each holding
        exactly the store's handlers and then connected once. */
    ghost predicate Started(token: string, ticketsConstructed: bool, notificationsConstructed: bool)
      reads this, ticketsClient, notificationsClient
    {
      && ticketsClient != null && notificationsClient != null
      && ticketsClient.url == TICKETS_URL && notificationsClient.url == NOTIFICATIONS_URL
      && ticketsClient.Model() == M.Connect(Installed(Tickets, token), M.DEFAULT_OPTIONS, ticketsConstructed)
      && notificationsClient.Model()
         == M.Connect(Installed(Notifications, token), M.DEFAULT_OPTIONS, notificationsConstructed)
    }

    // ---------------------------------------------------------- starting and stopping

    /** `initialize()`. Without a token nothing happens. Otherwise two new clients replace
        whatever the store held, get the store's handlers, and connect; each client's whole
        new state is given by `CreateClients` and `ConnectClients`. Clients the store held
        before are dropped as they are, without `disconnect()`: their transports and timers
        stay live. */
    method Initialize(token: Option<string>, ticketsConstructed: bool, notificationsConstructed: bool)
      requires Valid()
      modifies this
      ensures Valid()
      ensures !IsAuthenticated(token) ==>
        ticketsClient == old(ticketsClient) && notificationsClient == old(notificationsClient)
      ensures IsAuthenticated(token) ==>
        && fresh(ticketsClient) && fresh(notificationsClient)
        && Started(token.value, ticketsConstructed, notificationsConstructed)
        && ticketsClient.token == token.value && notificationsClient.token == token.value
        && ticketsClient.Model().registry == Installed(Tickets, token.value).registry
        && notificationsClient.Model().registry == Installed(Notifications, token.value).registry
        && (ticketsClient.source == M.SourceConnecting <==> ticketsConstructed)
        && (notificationsClient.source == M.SourceConnecting <==> notificationsConstructed)
      ensures old(ticketsClient) != null ==>
        old(ticketsClient).Model() == old(ticketsClient.Model())
        && old(notificationsClient).Model() == old(notificationsClient.Model())
      ensures recentEvents == old(recentEvents) && unreadNotificationCount == old(unreadNotificationCount)
      ensures eventCallbacks == old(eventCallbacks)
    {
      if !IsAuthenticated(token) {
        return;
      }
      CreateClients(token.value);
      ConnectClients(ticketsConstructed, notificationsConstructed);
    }

    /** The first half of `initialize()`: two new clients, each with the store's handlers. */
    method CreateClients(token: string)
      modifies this
      ensures ticketsClient != null && notificationsClient != null
      ensures fresh(ticketsClient) && fresh(notificationsClient) && ticketsClient != notificationsClient
      ensures ticketsClient.url == TICKETS_URL && notificationsClient.url == NOTIFICATIONS_URL
      ensures Wired(ticketsClient, Tickets) && Wired(notificationsClient, Notifications)
      ensures ticketsClient.Model() == Installed(Tickets, token)
      ensures notificationsClient.Model() == Installed(Notifications, token)
      ensures recentEvents == old(recentEvents) && unreadNotificationCount == old(unreadNotificationCount)
      ensures eventCallbacks == old(eventCallbacks)
    {
      DefaultOverrides();
      ticketsClient := new Client(TICKETS_URL, token, CLIENT_OVERRIDES);
      notificationsClient := new Client(NOTIFICATIONS_URL, token, CLIENT_OVERRIDES);
      SetupInternalHandlers();
    }

    /** The second half of `initialize()`: connect the ticket client, then the notification
        client. */
    method ConnectClients(ticketsConstructed: bool, notificationsConstructed: bool)
      requires ticketsClient != null && notificationsClient != null && ticketsClient != notificationsClient
      requires Wired(ticketsClient, Tickets) && Wired(notificationsClient, Notifications)
      requires ticketsClient.state == M.Disconnected && ticketsClient.source == M.NoSource
      requires notificationsClient.state == M.Disconnected && notificationsClient.source == M.NoSource
      requires |recentEvents| <= MAX_STORED_EVENTS && CallbacksValid(eventCallbacks)
      modifies this, ticketsClient, notificationsClient
      ensures Valid()
      ensures ticketsClient == old(ticketsClient) && notificationsClient == old(notificationsClient)
      ensures ticketsClient.Model() == M.Connect(old(ticketsClient.Model()), M.DEFAULT_OPTIONS, ticketsConstructed)
      ensures notificationsClient.Model() ==
        M.Connect(old(notificationsClient.Model()), M.DEFAULT_OPTIONS, notificationsConstructed)
      ensures recentEvents == old(recentEvents) && unreadNotificationCount == old(unreadNotificationCount)
      ensures eventCallbacks == old(eventCallbacks)
    {
      ConnectNew(Tickets, ticketsConstructed);
      ghost var connected := ticketsClient.Model();
      assert Wired(ticketsClient, Tickets) && ticketsConnectionState == ticketsClient.state;
      ConnectNew(Notifications, notificationsConstructed);
      assert ticketsClient.Model() == connected;
      assert Wired(ticketsClient, Tickets) && ticketsConnectionState == ticketsClient.state;
    }

    /** `setupInternalHandlers()`: every ticket type on the ticket client, `notification` on
        the notification client. */
    method SetupInternalHandlers()
      requires ticketsClient != null && notificationsClient != null
      requires ticketsClient != notificationsClient
      requires ticketsClient.Model() == M.Initial(ticketsClient.token)
      requires notificationsClient.Model() == M.Initial(notificationsClient.token)
      requires ticketsClient.options == M.DEFAULT_OPTIONS && notificationsClient.options == M.DEFAULT_OPTIONS
      modifies ticketsClient, notificationsClient
      ensures Wired(ticketsClient, Tickets) && Wired(notificationsClient, Notifications)
      ensures ticketsClient.Model() == Installed(Tickets, old(ticketsClient.token))
      ensures notificationsClient.Model() == Installed(Notifications, old(notificationsClient.token))
    {
      RegisterInternalHandlers(ticketsClient, Tickets);
      RegisterInternalHandlers(notificationsClient, Notifications);
    }

    /** `client.connect()` on a just-wired client, with its state ref following along. */
    method ConnectNew(topic: Topic, constructed: bool)
      requires ClientOf(topic) != null && Wired(ClientOf(topic), topic)
      requires ClientOf(topic).state == M.Disconnected && ClientOf(topic).source == M.NoSource
      modifies this, ClientOf(topic)
      ensures ticketsClient == old(ticketsClient) && notificationsClient == old(notificationsClient)
      ensures Wired(ClientOf(topic), topic)
      ensures ClientOf(topic).Model() == M.Connect(old(ClientOf(topic).Model()), M.DEFAULT_OPTIONS, constructed)
      ensures StateRef(topic) == ClientOf(topic).state
      ensures StateRef(Other(topic)) == old(StateRef(Other(topic)))
      ensures recentEvents == old(recentEvents) && unreadNotificationCount == old(unreadNotificationCount)
      ensures eventCallbacks == old(eventCallbacks)
    {
      var c := ClientOf(topic);
      ghost var before := c.Model();
      var n0 := |c.notices|;
      c.Connect(constructed);
      M.ConnectTracks(before, M.DEFAULT_OPTIONS, constructed);
      M.ConnectAnnounces(before, M.DEFAULT_OPTIONS, constructed);
      M.StaysWiredOnce(before, M.DEFAULT_OPTIONS, M.CallConnect(constructed));
      Follow(topic, n0, before);
    }

    /** The `onStateChange` callback of the client for `topic`, once per notice. */
    method OnStateChange(topic: Topic, ns: seq<M.Notice>)
      modifies this
      ensures StateRef(topic) == M.Observed(old(StateRef(topic)), ns)
      ensures StateRef(Other(topic)) == old(StateRef(Other(topic)))
      ensures ticketsClient == old(ticketsClient) && notificationsClient == old(notificationsClient)
      ensures recentEvents == old(recentEvents) && unreadNotificationCount == old(unreadNotificationCount)
      ensures eventCallbacks == old(eventCallbacks)
    {
      if topic == Tickets {
        ticketsConnectionState := M.Observed(ticketsConnectionState, ns);
      } else {
        notificationsConnectionState := M.Observed(notificationsConnectionState, ns);
      }
    }

    /** The client for `topic` went from `before` to where it is now, keeping its listener
        informed; the ref either knew `before`'s state or the new notices open with a state
        change. Hearing them brings the ref to the client's state. */
    method Follow(topic: Topic, n0: nat, ghost before: M.Conn)
      requires ClientOf(topic) != null && n0 == |before.notices|
      requires M.Tracks(before, ClientOf(topic).Model())
      requires StateRef(topic) == before.state
        || (|ClientOf(topic).notices| > n0 && ClientOf(topic).notices[n0].StateChange?)
      modifies this
      ensures ticketsClient == old(ticketsClient) && notificationsClient == old(notificationsClient)
      ensures StateRef(topic) == ClientOf(topic).state
      ensures StateRef(Other(topic)) == old(StateRef(Other(topic)))
      ensures recentEvents == old(recentEvents) && unreadNotificationCount == old(unreadNotificationCount)
      ensures eventCallbacks == old(eventCallbacks)
    {
      var c := ClientOf(topic);
      ghost var heard := c.notices[n0..];
      if StateRef(topic) != before.state {
        M.ObservedForgets(before.state, StateRef(topic), heard);
      }
      OnStateChange(topic, c.notices[n0..]);
    }

    /** `disconnect()`: both clients disconnected and dropped, every component's
        subscription gone; the history and the unread count stay. */
    method Disconnect()
      requires Valid()
      modifies this, ticketsClient, notificationsClient
      ensures Valid()
      ensures ticketsClient == null && notificationsClient == null && eventCallbacks == map[]
      ensures old(ticketsClient) != null ==>
        old(ticketsClient).Model() == M.Disconnect(old(ticketsClient.Model()))
        && old(notificationsClient).Model() == M.Disconnect(old(notificationsClient.Model()))
      ensures recentEvents == old(recentEvents) && unreadNotificationCount == old(unreadNotificationCount)
    {
      if ticketsClient != null {
        DisconnectClient(Tickets);
      }
      if notificationsClient != null {
        DisconnectClient(Notifications);
      }
      ticketsClient := null;
      notificationsClient := null;
      eventCallbacks := map[];
    }

    method DisconnectClient(topic: Topic)
      requires Valid() && ClientOf(topic) != null
      modifies this, ClientOf(topic)
      ensures ticketsClient == old(ticketsClient) && notificationsClient == old(notificationsClient)
      ensures ClientOf(topic).Model() == M.Disconnect(old(ClientOf(topic).Model()))
      ensures ClientOf(topic).Valid() && StateRef(topic) == M.Disconnected
      ensures StateRef(Other(topic)) == old(StateRef(Other(topic)))
      ensures recentEvents == old(recentEvents) && unreadNotificationCount == old(unreadNotificationCount)
      ensures eventCallbacks == old(eventCallbacks)
    {
      var c := ClientOf(topic);
      ghost var before := c.Model();
      var n0 := |c.notices|;
      c.Disconnect();
      M.DisconnectTracks(before);
      Follow(topic, n0, before);
    }

    /** `reconnect()`: `disconnect()` then `initialize()`, with the token current then. */
    method Reconnect(token: Option<string>, ticketsConstructed: bool, notificationsConstructed: bool)
      requires Valid()
      modifies this, ticketsClient, notificationsClient
      ensures Valid()
      ensures eventCallbacks == map[]
      ensures old(ticketsClient) != null ==>
        old(ticketsClient).Model() == M.Disconnect(old(ticketsClient.Model()))
        && old(notificationsClient).Model() == M.Disconnect(old(notificationsClient.Model()))
      ensures !IsAuthenticated(token) ==> ticketsClient == null && notificationsClient == null
      ensures IsAuthenticated(token) ==>
        fresh(ticketsClient) && fresh(notificationsClient)
        && Started(token.value, ticketsConstructed, notificationsConstructed)
      ensures recentEvents == old(recentEvents) && unreadNotificationCount == old(unreadNotificationCount)
    {
      Disconnect();
      Initialize(token, ticketsConstructed, notificationsConstructed);
    }

    // ---------------------------------------------------------- what the streams deliver

    /** A transport or timer callback on the client for `topic`; the state ref follows. */
    method Drive(topic: Topic, s: Signal)
      requires Valid()
      modifies this, ticketsClient, notificationsClient
      ensures Valid()
      ensures ticketsClient == old(ticketsClient) && notificationsClient == old(notificationsClient)
      ensures ClientOf(topic) != null ==>
        ClientOf(topic).Model() == M.Step(old(ClientOf(topic).Model()), M.DEFAULT_OPTIONS, StimulusOf(s))
        && ClientOf(Other(topic)).Model() == old(ClientOf(Other(topic)).Model())
      ensures recentEvents == old(recentEvents) && unreadNotificationCount == old(unreadNotificationCount)
      ensures eventCallbacks == old(eventCallbacks)
    {
      var c := ClientOf(topic);
      if c == null {
        return;
      }
      ghost var before := c.Model();
      var n0 := |c.notices|;
      Stimulate(c, s);
      M.StepTracks(before, M.DEFAULT_OPTIONS, StimulusOf(s));
      M.StaysWiredOnce(before, M.DEFAULT_OPTIONS, StimulusOf(s));
      Follow(topic, n0, before);
    }

    /** A frame on the stream for `topic`. When the store takes it, the store's handler runs
        once: the event is recorded, the components subscribed to its type are called, and on
        the notification stream the unread count goes up by one, even when a component's
        callback throws. Otherwise the store is left as it was. */
    method Receive(topic: Topic, kind: M.FrameKind, payload: M.Payload, stamp: Stamp,
                   throwing: set<CallbackId>)
      returns (called: seq<CallbackId>, caught: seq<CallbackId>)
      requires Valid()
      modifies this, ticketsClient, notificationsClient
      ensures Valid()
      ensures ticketsClient == old(ticketsClient) && notificationsClient == old(notificationsClient)
      ensures eventCallbacks == old(eventCallbacks)
      ensures ClientOf(topic) != null ==>
        ClientOf(topic).Model() == M.Frame(old(ClientOf(topic).Model()), M.DEFAULT_OPTIONS, kind)
        && ClientOf(Other(topic)).Model() == old(ClientOf(Other(topic)).Model())
      ensures ticketsConnectionState == old(ticketsConnectionState)
      ensures notificationsConnectionState == old(notificationsConnectionState)
      ensures old(Takes(topic, kind, payload)) ==>
        && recentEvents == Record(old(recentEvents), Stamped(kind.eventType, payload.data, stamp))
        && called == CallbacksOf(eventCallbacks, kind.eventType)
        && caught == Within(called, throwing)
        && unreadNotificationCount == old(unreadNotificationCount) + if topic == Notifications then 1 else 0
      ensures !old(Takes(topic, kind, payload)) ==>
        && recentEvents == old(recentEvents) && unreadNotificationCount == old(unreadNotificationCount)
        && called == [] && caught == []
    {
      called, caught := [], [];
      var handled := FrameOn(topic, kind, payload);
      if handled.Some? {
        called, caught := RunInternalHandler(topic, handled.value, payload.data, stamp, throwing);
      }
    }

    /** The frame reaching the client for `topic`; it reports which of the store's handlers
        ran, if any. */
    method FrameOn(topic: Topic, kind: M.FrameKind, payload: M.Payload) returns (handled: Option<M.EventType>)
      requires Valid()
      modifies ticketsClient, notificationsClient
      ensures Valid()
      ensures ClientOf(topic) != null ==>
        ClientOf(topic).Model() == M.Frame(old(ClientOf(topic).Model()), M.DEFAULT_OPTIONS, kind)
        && ClientOf(Other(topic)).Model() == old(ClientOf(Other(topic)).Model())
      ensures handled.Some? <==> old(Takes(topic, kind, payload))
      ensures handled.Some? ==> kind.Typed? && payload.Parsed? && handled.value == kind.eventType
    {
      var c := ClientOf(topic);
      if c == null {
        return None;
      }
      var invoked, failed := c.Frame(kind, payload, {});
      if invoked == [] {
        return None;
      }
      var t := kind.eventType;
      OccurrencesDistinct(TopicTypes(topic), t);
      assert invoked == Fanout([InternalHandler(t)], 1) == [InternalHandler(t)];
      return Some(t);
    }

    /** The body of the handler the store registered for `t` on the client for `topic`. */
    method RunInternalHandler(topic: Topic, t: M.EventType, data: Json, stamp: Stamp,
                              throwing: set<CallbackId>)
      returns (called: seq<CallbackId>, caught: seq<CallbackId>)
      requires |recentEvents| <= MAX_STORED_EVENTS
      modifies this
      ensures recentEvents == Record(old(recentEvents), Stamped(t, data, stamp))
      ensures called == CallbacksOf(eventCallbacks, t) && caught == Within(called, throwing)
      ensures unreadNotificationCount == old(unreadNotificationCount) + if topic == Notifications then 1 else 0
      ensures ticketsClient == old(ticketsClient) && notificationsClient == old(notificationsClient)
      ensures ticketsConnectionState == old(ticketsConnectionState)
      ensures notificationsConnectionState == old(notificationsConnectionState)
      ensures eventCallbacks == old(eventCallbacks)
    {
      called, caught := AddEvent(t, data, stamp, throwing);
      if topic == Notifications {
        unreadNotificationCount := unreadNotificationCount + 1;
      }
    }

    /** `addEvent(t, data)`: record the event, then call each callback subscribed to `t`, each
        in its own `try`/`catch`. */
    method AddEvent(t: M.EventType, data: Json, stamp: Stamp, throwing: set<CallbackId>)
      returns (called: seq<CallbackId>, caught: seq<CallbackId>)
      modifies this
      ensures recentEvents == Record(old(recentEvents), Stamped(t, data, stamp))
      ensures called == CallbacksOf(eventCallbacks, t) && caught == Within(called, throwing)
      ensures ticketsClient == old(ticketsClient) && notificationsClient == old(notificationsClient)
      ensures ticketsConnectionState == old(ticketsConnectionState)
      ensures notificationsConnectionState == old(notificationsConnectionState)
      ensures unreadNotificationCount == old(unreadNotificationCount)
      ensures eventCallbacks == old(eventCallbacks)
    {
      var event := Event(stamp.id, t, data, stamp.receivedAt);
      recentEvents := [event] + recentEvents;
      if |recentEvents| > MAX_STORED_EVENTS {
        recentEvents := recentEvents[..MAX_STORED_EVENTS];
      }
      var callbacks := if t in eventCallbacks then eventCallbacks[t] else [];
      called, caught := ForEachIsolated(callbacks, throwing);
    }

    // ---------------------------------------------------------- components' side

    /** `subscribe(t, cb)`, and the six `on…` wrappers, each of which fixes `t`. */
    method Subscribe(t: M.EventType, cb: CallbackId) returns (s: Subscription)
      modifies this`eventCallbacks
      ensures s == Subscription(t, cb)
      ensures eventCallbacks == Subscribed(old(eventCallbacks), t, cb)
      ensures old(Valid()) ==> Valid()
    {
      if t !in eventCallbacks {
        eventCallbacks := eventCallbacks[t := []];
      }
      eventCallbacks := eventCallbacks[t := Add(eventCallbacks[t], cb)];
      s := Subscription(t, cb);
    }

    /** Calling the handle `subscribe` returned. */
    method Unsubscribe(s: Subscription)
      modifies this`eventCallbacks
      ensures eventCallbacks == Unsubscribed(old(eventCallbacks), s)
    {
      if s.eventType in eventCallbacks {
        eventCallbacks := eventCallbacks[s.eventType := Remove(eventCallbacks[s.eventType], s.callback)];
      }
    }

    /** `markNotificationsRead()`. */
    method MarkNotificationsRead()
      modifies this`unreadNotificationCount
      ensures unreadNotificationCount == 0
    {
      unreadNotificationCount := 0;
    }

    /** `clearEvents()`. */
    method ClearEvents()
      modifies this`recentEvents
      ensures recentEvents == []
    {
      recentEvents := [];
    }

    /** `getEventsByType(t)`. */
    function GetEventsByType(t: M.EventType): (r: seq<Event>)
      reads this
      ensures forall e :: e in r <==> e in recentEvents && e.eventType == t
    {
      EventsByType(recentEvents, t)
    }

    /** `getEventsForTicket(id)`. */
    function GetEventsForTicket(id: string): (r: seq<Event>)
      reads this
      ensures forall e :: e in r <==> e in recentEvents && MentionsTicket(e.data, id)
    {
      EventsForTicket(recentEvents, id)
    }
  }

  /** The `useSSE()` composable of one component: the store it shares, the handles of the
      subscriptions it made, and its watch on the login state. */
  class UseSse {
    const store: Store
    var unsubscribers: seq<Subscription>
    var watching: bool
    var lastAuthenticated: bool

    constructor(store: Store)
      ensures this.store == store && unsubscribers == [] && !watching
    {
      this.store := store;
      unsubscribers := [];
      watching := false;
      lastAuthenticated := false;
    }

    /** The body of `useSSE()` itself: start the streams if not connected and logged in,
        then start watching the login state. */
    method Mount(token: Option<string>, ticketsConstructed: bool, notificationsConstructed: bool)
      requires store.Valid()
      modifies this`watching, this`lastAuthenticated, store
      ensures store.Valid() && watching && lastAuthenticated == IsAuthenticated(token)
      ensures OnMount(old(store.IsConnected()), IsAuthenticated(token)) ==>
        fresh(store.ticketsClient) && fresh(store.notificationsClient)
        && store.Started(token.value, ticketsConstructed, notificationsConstructed)
      ensures !OnMount(old(store.IsConnected()), IsAuthenticated(token)) ==> unchanged(store)
      ensures store.recentEvents == old(store.recentEvents)
      ensures store.unreadNotificationCount == old(store.unreadNotificationCount)
      ensures store.eventCallbacks == old(store.eventCallbacks)
    {
      var authenticated := IsAuthenticated(token);
      var start := OnMount(store.IsConnected(), authenticated);
      // the watch is set up after the call; the two touch disjoint state
      watching, lastAuthenticated := true, authenticated;
      if start {
        store.Initialize(token, ticketsConstructed, notificationsConstructed);
      }
    }

    /** The login state may have changed; the watch fires only when it did. */
    method AuthChanged(token: Option<string>, ticketsConstructed: bool, notificationsConstructed: bool)
      requires store.Valid()
      modifies this, store, store.ticketsClient, store.notificationsClient
      ensures store.Valid() && lastAuthenticated == IsAuthenticated(token)
      ensures var fired := old(watching) && IsAuthenticated(token) != old(lastAuthenticated);
        var action := OnAuthChange(IsAuthenticated(token), old(store.IsConnected()));
        && (fired && action == StartStreams ==>
              fresh(store.ticketsClient) && fresh(store.notificationsClient)
              && store.Started(token.value, ticketsConstructed, notificationsConstructed)
              && store.eventCallbacks == old(store.eventCallbacks))
        && (fired && action == StopStreams ==>
              store.ticketsClient == null && store.notificationsClient == null && store.eventCallbacks == map[]
              && (old(store.ticketsClient) != null ==>
                    old(store.ticketsClient).Model() == M.Disconnect(old(store.ticketsClient.Model()))
                    && old(store.notificationsClient).Model() == M.Disconnect(old(store.notificationsClient.Model()))))
        && (!fired || action == LeaveAlone ==>
              unchanged(store) && (store.ticketsClient != null ==>
                unchanged(store.ticketsClient) && unchanged(store.notificationsClient)))
      ensures store.recentEvents == old(store.recentEvents)
      ensures store.unreadNotificationCount == old(store.unreadNotificationCount)
    {
      var now := IsAuthenticated(token);
      var fired := watching && now != lastAuthenticated;
      lastAuthenticated := now;
      if !fired {
        return;
      }
      match OnAuthChange(now, store.IsConnected())
      case StartStreams => store.Initialize(token, ticketsConstructed, notificationsConstructed);
      case StopStreams => store.Disconnect();
      case LeaveAlone =>
    }

    /** One of the six tracked `on…` wrappers: subscribe and remember the handle. */
    method Track(t: M.EventType, cb: CallbackId) returns (s: Subscription)
      modifies this, store`eventCallbacks
      ensures s == Subscription(t, cb)
      ensures store.eventCallbacks == Subscribed(old(store.eventCallbacks), t, cb)
      ensures unsubscribers == old(unsubscribers) + [s]
      ensures watching == old(watching) && lastAuthenticated == old(lastAuthenticated)
      ensures old(store.Valid()) ==> store.Valid()
      ensures store.IsConnected() == old(store.IsConnected())
    {
      s := store.Subscribe(t, cb);
      unsubscribers := unsubscribers + [s];
    }

    /** The `onUnmounted` callback: stop watching, then call every remembered handle in
        order. Afterwards none of this component's subscriptions is left. */
    method Unmount()
      modifies this, store`eventCallbacks
      ensures !watching && unsubscribers == old(unsubscribers)
      ensures store.eventCallbacks == UnsubscribedAll(old(store.eventCallbacks), unsubscribers)
    {
      watching := false;
      var i := 0;
      while i < |unsubscribers|
        invariant 0 <= i <= |unsubscribers|
        invariant !watching && unsubscribers == old(unsubscribers)
        invariant store.eventCallbacks == UnsubscribedAll(old(store.eventCallbacks), unsubscribers[..i])
      {
        UnsubscribedAllSnoc(old(store.eventCallbacks), unsubscribers[..i], unsubscribers[i]);
        assert unsubscribers[..i + 1] == unsubscribers[..i] + [unsubscribers[i]];
        store.Unsubscribe(unsubscribers[i]);
        i := i + 1;
      }
      assert unsubscribers[..|unsubscribers|] == unsubscribers;
    }
  }
}
