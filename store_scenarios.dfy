/**
 * Concrete runs of `SseStore.Store` and `SseStore.UseSse` that follow one event from
 * the stream to a component, and one logout from the watch to the cleared registry.
 */
module StoreScenarios {
  import opened Wrappers
  import opened SeqSet
  import opened Json
  import opened SseEvents
  import opened SseStore
  import SseClient
  import M = SseMachine

  /** A logged-in store whose two streams are open. */
  method OpenStore(token: string) returns (s: Store)
    requires token != ""
    ensures fresh(s) && s.Valid()
    ensures s.ticketsClient != null && fresh(s.ticketsClient) && fresh(s.notificationsClient)
    ensures s.ticketsClient.source == M.SourceOpen && s.notificationsClient.source == M.SourceOpen
    ensures s.recentEvents == [] && s.unreadNotificationCount == 0 && s.eventCallbacks == map[]
  {
    s := StartedStore(token);
    s.Drive(Tickets, Opened);
    assert s.ticketsClient.source == M.SourceOpen;
    s.Drive(Notifications, Opened);
  }

  /** A logged-in store whose two streams are open, with one component's callback `cb`
      subscribed to `t`. */
  method SubscribedStore(t: M.EventType, cb: CallbackId) returns (s: Store)
    ensures fresh(s) && s.Valid()
    ensures s.ticketsClient != null && fresh(s.ticketsClient) && fresh(s.notificationsClient)
    ensures s.ticketsClient.source == M.SourceOpen && s.notificationsClient.source == M.SourceOpen
    ensures s.recentEvents == [] && s.unreadNotificationCount == 0 && s.eventCallbacks == map[t := [cb]]
  {
    s := OpenStore("token");
    var sub := s.Subscribe(t, cb);
    assert Add([], cb) == [cb];
  }

  /** A logged-in store whose two streams are connecting. */
  method StartedStore(token: string) returns (s: Store)
    requires token != ""
    ensures fresh(s) && s.Valid()
    ensures s.ticketsClient != null && fresh(s.ticketsClient) && fresh(s.notificationsClient)
    ensures s.ticketsClient.source == M.SourceConnecting && s.notificationsClient.source == M.SourceConnecting
    ensures s.recentEvents == [] && s.unreadNotificationCount == 0 && s.eventCallbacks == map[]
  {
    s := new Store();
    s.Initialize(Some(token), true, true);
  }

  /** One `ticket_created` frame: it is the whole history, the one subscriber hears it,
      and the unread count stays at zero. */
  method OneTicketEvent(d: Json, stamp: Stamp)
    returns (called: seq<CallbackId>, history: seq<Event>, byType: seq<Event>, unread: nat)
    ensures called == [7]
    ensures history == [Stamped(M.TicketCreated, d, stamp)] && byType == history
    ensures unread == 0
  {
    var s := SubscribedStore(M.TicketCreated, 7);
    var caught;
    called, caught := s.Receive(Tickets, M.Typed(M.TicketCreated), M.Parsed(d), stamp, {});
    history, unread := s.recentEvents, s.unreadNotificationCount;
    byType := s.GetEventsByType(M.TicketCreated);
  }

  /** A `notification` frame raises the unread count by one even when its only subscriber
      throws; a `notification` frame on the ticket stream is nobody's. */
  method NotificationCounts(d: Json, stamp: Stamp)
    returns (unread: nat, caught: seq<CallbackId>, stray: seq<CallbackId>, after: nat)
    ensures unread == 1 && caught == [3] && stray == [] && after == 1
  {
    var s := SubscribedStore(M.Notification, 3);
    var called;
    called, caught := s.Receive(Notifications, M.Typed(M.Notification), M.Parsed(d), stamp, {3});
    unread := s.unreadNotificationCount;
    var none;
    stray, none := s.Receive(Tickets, M.Typed(M.Notification), M.Parsed(d), stamp, {});
    after := s.unreadNotificationCount;
  }

  /** Logging out while connected stops both streams and drops the subscriptions of every
      component, not only of the one whose watch fired. */
  method LogoutClearsEveryone() returns (clients: bool, callbacks: Callbacks)
    ensures !clients && callbacks == map[]
  {
    var s := OpenStore("token");
    var first := TwoComponents(s);
    first.AuthChanged(None, true, true);
    clients, callbacks := s.ticketsClient != null, s.eventCallbacks;
  }

  /** Two components on a connected store, each with a subscription; the first watches a
      logged-in user. */
  method TwoComponents(s: Store) returns (first: UseSse)
    requires s.Valid() && s.IsConnected()
    modifies s
    ensures fresh(first) && first.store == s && first.watching && first.lastAuthenticated
    ensures s.Valid() && s.IsConnected()
    ensures s.ticketsClient == old(s.ticketsClient) && s.notificationsClient == old(s.notificationsClient)
  {
    first := MountedComponent(s);
    var second := new UseSse(s);
    var other := second.Track(M.Notification, 2);
  }

  /** A component mounted on a connected store, with one subscription: mounting leaves the
      streams alone. */
  method MountedComponent(s: Store) returns (c: UseSse)
    requires s.Valid() && s.IsConnected()
    modifies s
    ensures fresh(c) && c.store == s && c.watching && c.lastAuthenticated
    ensures s.Valid() && s.IsConnected()
    ensures s.ticketsClient == old(s.ticketsClient) && s.notificationsClient == old(s.notificationsClient)
  {
    c := new UseSse(s);
    c.Mount(Some("token"), true, true);
    var sub := c.Track(M.TicketUpdated, 1);
  }

  /** A component mounting on a logged-in store whose streams are still connecting: the
      store's ticket client is replaced, and the one it held before is left connecting. */
  method MountWhileConnecting() returns (s: Store, first: SseClient.Client)
    ensures fresh(first) && s.ticketsClient != first
    ensures Wired(first, Tickets) && first.source == M.SourceConnecting
  {
    s := StartedStore("token");
    first := s.ticketsClient;
    var c := new UseSse(s);
    c.Mount(Some("token"), true, true);
  }

  /** A second component mounting while the streams are still connecting starts them again:
      the store now holds new clients, while the first ticket client, never disconnected,
      keeps its transport. Once that transport opens, its frames still run the store's
      handler, which records into the same history. */
  method SecondMount(d: Json) returns (replaced: bool, orphan: M.Source, invoked: seq<M.HandlerId>)
    ensures replaced && orphan == M.SourceOpen
    ensures invoked == [InternalHandler(M.TicketCreated)]
  {
    var s, first := MountWhileConnecting();
    replaced := s.ticketsClient != first;
    first.Open();
    orphan := first.source;
    var caught;
    invoked, caught := first.Frame(M.Typed(M.TicketCreated), M.Parsed(d), {});
    OccurrencesDistinct(TopicTypes(Tickets), M.TicketCreated);
    assert Fanout([InternalHandler(M.TicketCreated)], 1) == [InternalHandler(M.TicketCreated)];
  }
}
