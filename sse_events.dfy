/**
 * The value-level half of the SSE store (src/stores/sse.ts): the capped, newest-first
 * event history, the two history filters, the per-type callback registry that components
 * subscribe to, and the rule by which the `useSSE` composable starts and stops the
 * streams when the user logs in or out.
 */
module SseEvents {
  import opened Wrappers
  import opened SeqSet
  import opened Json
  import M = SseMachine

  /** How many events the history keeps. */
  const MAX_STORED_EVENTS: nat := 100

  /** The nondeterministic parts of an event (`${type}-${Date.now()}-${random}` and
      `new Date()`), supplied from outside; nothing is assumed about them. */
  datatype Stamp = Stamp(id: string, receivedAt: int)

  /** `SSEEvent`: what the store keeps of one delivered frame. */
  datatype Event = Event(id: string, eventType: M.EventType, data: Json, receivedAt: int)

  function Stamped(t: M.EventType, data: Json, stamp: Stamp): (e: Event)
    ensures e.eventType == t && e.data == data
  {
    Event(stamp.id, t, data, stamp.receivedAt)
  }

  // ------------------------------------------------------------ the history

  /** `recentEvents.unshift(e)`, then the cut back to `MAX_STORED_EVENTS` once it is longer:
      the new event comes first, followed by as much of the old history, newest first, as
      fits; whatever falls off the end is the oldest. */
  function Record(history: seq<Event>, e: Event): (r: seq<Event>)
    ensures |r| == Min(|history| + 1, MAX_STORED_EVENTS)
    ensures r[0] == e
    ensures r[1..] == history[..Min(|history|, MAX_STORED_EVENTS - 1)]
  {
    var grown := [e] + history;
    if |grown| > MAX_STORED_EVENTS then grown[..MAX_STORED_EVENTS] else grown
  }

  /** A full history loses exactly its oldest entry. */
  lemma RecordEvictsOldest(history: seq<Event>, e: Event)
    requires |history| == MAX_STORED_EVENTS
    ensures |Record(history, e)| == MAX_STORED_EVENTS
    ensures Record(history, e) == [e] + history[..MAX_STORED_EVENTS - 1]
  {
    var r := Record(history, e);
    assert r == [r[0]] + r[1..];
  }

  /** The events `es`, in order of arrival, each recorded as it comes. */
  function RecordAll(history: seq<Event>, es: seq<Event>): (r: seq<Event>)
    ensures |history| <= MAX_STORED_EVENTS ==> |r| <= MAX_STORED_EVENTS
    decreases |es|
  {
    if es == [] then history else RecordAll(Record(history, es[0]), es[1..])
  }

  lemma PrefixOfConcat<T>(a: seq<T>, b: seq<T>, k: nat, j: nat)
    requires k <= |b| && j <= |a| + k
    ensures (a + b[..k])[..j] == (a + b)[..j]
  {
    assert forall i :: 0 <= i < j ==> (a + b[..k])[i] == (a + b)[i];
  }

  lemma PrefixOfSnocConcat<T>(a: seq<T>, x: T, b: seq<T>, k: nat, j: nat)
    requires k <= |b| + 1 && j <= |a| + k
    ensures (a + ([x] + b)[..k])[..j] == ((a + [x]) + b)[..j]
  {
    PrefixOfConcat(a, [x] + b, k, j);
    assert a + ([x] + b) == (a + [x]) + b;
  }

  /** The history after a burst of arrivals is the burst newest first, then the old
      history, cut to the cap: the store always holds the most recent events. */
  lemma {:induction false} RecordAllNewestFirst(history: seq<Event>, es: seq<Event>)
    requires |history| <= MAX_STORED_EVENTS
    ensures RecordAll(history, es)
         == (Reverse(es) + history)[..Min(|es| + |history|, MAX_STORED_EVENTS)]
    decreases |es|
  {
    if es == [] {
      assert Reverse(es) + history == history;
    } else {
      RecordAllNewestFirst(Record(history, es[0]), es[1..]);
      NewestFirstStep(history, es[0], es[1..]);
      assert [es[0]] + es[1..] == es;
    }
  }

  /** One arrival in front of a burst: recording it first and then the rest newest first is
      the whole burst newest first over the old history. */
  lemma NewestFirstStep(history: seq<Event>, e: Event, rest: seq<Event>)
    requires |history| <= MAX_STORED_EVENTS
    ensures var h1 := Record(history, e);
      (Reverse(rest) + h1)[..Min(|rest| + |h1|, MAX_STORED_EVENTS)]
      == (Reverse([e] + rest) + history)[..Min(|rest| + 1 + |history|, MAX_STORED_EVENTS)]
  {
    var h1 := Record(history, e);
    var m1 := Min(|history| + 1, MAX_STORED_EVENTS);
    var j := Min(|rest| + m1, MAX_STORED_EVENTS);
    assert |h1| == m1 && j == Min(|rest| + 1 + |history|, MAX_STORED_EVENTS);
    assert h1 == ([e] + history)[..m1];
    PrefixOfSnocConcat(Reverse(rest), e, history, m1, j);
    ReverseCons(e, rest);
  }

  /** A burst of at least `MAX_STORED_EVENTS` events leaves nothing of the old history. */
  lemma LongBurstEvictsAll(history: seq<Event>, es: seq<Event>)
    requires |history| <= MAX_STORED_EVENTS && |es| >= MAX_STORED_EVENTS
    ensures RecordAll(history, es) == Reverse(es)[..MAX_STORED_EVENTS]
  {
    RecordAllNewestFirst(history, es);
    PrefixOfConcat(Reverse(es), history, 0, MAX_STORED_EVENTS);
    assert Reverse(es) + history[..0] == Reverse(es);
  }

  // ------------------------------------------------------------ the filters

  /** `getEventsByType(t)`. */
  function EventsByType(history: seq<Event>, t: M.EventType): (r: seq<Event>)
    ensures |r| <= |history|
    ensures forall e :: e in r <==> e in history && e.eventType == t
  {
    Filter(history, (e: Event) => e.eventType == t)
  }

  /** The filter sees a new event at the front exactly when it has the type asked for; the
      rest is the filter of what the cap keeps of the old history, so the filter keeps
      history order. */
  lemma EventsByTypeRecord(history: seq<Event>, e: Event, t: M.EventType)
    ensures EventsByType(Record(history, e), t)
         == (if e.eventType == t then [e] else [])
            + EventsByType(history[..Min(|history|, MAX_STORED_EVENTS - 1)], t)
  {
    assert Record(history, e) == [e] + history[..Min(|history|, MAX_STORED_EVENTS - 1)];
    FilterAppend([e], history[..Min(|history|, MAX_STORED_EVENTS - 1)],
                 (x: Event) => x.eventType == t);
    assert Filter([e], (x: Event) => x.eventType == t) == (if e.eventType == t then [e] else []);
  }

  /** `data?.ticket?.id === id || data?.ticket_id === id || data?.worklog?.ticket_id === id`,
      with strict equality: only a string equal to `id` matches. */
  function MentionsTicket(data: Json, id: string): (b: bool)
    ensures b ==> data.JObject?
  {
    var d := Some(data);
    || IsString(Member(Member(d, "ticket"), "id"), id)
    || IsString(Member(d, "ticket_id"), id)
    || IsString(Member(Member(d, "worklog"), "ticket_id"), id)
  }

  /** `getEventsForTicket(id)`. */
  function EventsForTicket(history: seq<Event>, id: string): (r: seq<Event>)
    ensures |r| <= |history|
    ensures forall e :: e in r <==> e in history && MentionsTicket(e.data, id)
  {
    Filter(history, (e: Event) => MentionsTicket(e.data, id))
  }

  /** The same for the ticket filter. */
  lemma EventsForTicketRecord(history: seq<Event>, e: Event, id: string)
    ensures EventsForTicket(Record(history, e), id)
         == (if MentionsTicket(e.data, id) then [e] else [])
            + EventsForTicket(history[..Min(|history|, MAX_STORED_EVENTS - 1)], id)
  {
    assert Record(history, e) == [e] + history[..Min(|history|, MAX_STORED_EVENTS - 1)];
    FilterAppend([e], history[..Min(|history|, MAX_STORED_EVENTS - 1)],
                 (x: Event) => MentionsTicket(x.data, id));
    assert Filter([e], (x: Event) => MentionsTicket(x.data, id))
        == (if MentionsTicket(e.data, id) then [e] else []);
  }

  /** The three payload shapes that name a ticket: `{ticket: {id}}` (ticket events),
      `{ticket_id}`, and `{worklog: {ticket_id}}` (worklog events). */
  lemma PayloadShapesMention(id: string, rest: map<string, Json>)
    ensures MentionsTicket(JObject(rest["ticket" := JObject(map["id" := JString(id)])]), id)
    ensures MentionsTicket(JObject(rest["ticket_id" := JString(id)]), id)
    ensures MentionsTicket(JObject(rest["worklog" := JObject(map["ticket_id" := JString(id)])]), id)
  {
    var d1 := Some(JObject(rest["ticket" := JObject(map["id" := JString(id)])]));
    assert Member(Member(d1, "ticket"), "id") == Some(JString(id));
    var d3 := Some(JObject(rest["worklog" := JObject(map["ticket_id" := JString(id)])]));
    assert Member(Member(d3, "worklog"), "ticket_id") == Some(JString(id));
  }

  /** Strict equality: a numeric ticket id never matches, and neither does a payload that is
      not an object. */
  lemma NonStringsNeverMention(data: Json, id: string, n: int)
    ensures !MentionsTicket(JObject(map["ticket" := JObject(map["id" := JNumber(n)])]), id)
    ensures !data.JObject? ==> !MentionsTicket(data, id)
  {
    var d := Some(JObject(map["ticket" := JObject(map["id" := JNumber(n)])]));
    assert Member(Member(d, "ticket"), "id") == Some(JNumber(n));
    assert Member(d, "ticket_id") == None;
    assert Member(d, "worklog") == None;
  }

  // ------------------------------------------------------------ the callback registry

  type CallbackId = nat

  /** `eventCallbacks: Map<type, Set<callback>>`; only each set's order is observable. */
  type Callbacks = map<M.EventType, seq<CallbackId>>

  /** The handle `subscribe` returns: calling it unsubscribes this callback from this type. */
  datatype Subscription = Subscription(eventType: M.EventType, callback: CallbackId)

  predicate CallbacksValid(cbs: Callbacks) {
    forall t :: t in cbs ==> Distinct(cbs[t])
  }

  /** `eventCallbacks.get(t)`, an absent key read as the empty set. */
  function CallbacksOf(cbs: Callbacks, t: M.EventType): seq<CallbackId> {
    if t in cbs then cbs[t] else []
  }

  /** `subscribe(t, cb)`: create the set if missing, then add `cb` to it. */
  function Subscribed(cbs: Callbacks, t: M.EventType, cb: CallbackId): (r: Callbacks)
    ensures CallbacksOf(r, t) == Add(CallbacksOf(cbs, t), cb)
    ensures forall u :: u != t ==> CallbacksOf(r, u) == CallbacksOf(cbs, u)
    ensures CallbacksValid(cbs) ==> CallbacksValid(r)
  {
    cbs[t := Add(CallbacksOf(cbs, t), cb)]
  }

  /** The returned handle: `eventCallbacks.get(t)?.delete(cb)`. Exactly `cb` leaves exactly
      the set of `t`. */
  function Unsubscribed(cbs: Callbacks, s: Subscription): (r: Callbacks)
    ensures CallbacksOf(r, s.eventType) == Remove(CallbacksOf(cbs, s.eventType), s.callback)
    ensures forall u :: u != s.eventType ==> CallbacksOf(r, u) == CallbacksOf(cbs, u)
    ensures forall c :: c in CallbacksOf(r, s.eventType) <==>
      c in CallbacksOf(cbs, s.eventType) && c != s.callback
    ensures CallbacksValid(cbs) ==> CallbacksValid(r)
  {
    if s.eventType in cbs then cbs[s.eventType := Remove(cbs[s.eventType], s.callback)] else cbs
  }

  /** Unsubscribing a fresh subscription restores every type's set; calling the handle
      again changes nothing. */
  lemma {:induction false} UnsubscribeUndoesSubscribe(cbs: Callbacks, t: M.EventType, cb: CallbackId)
    requires cb !in CallbacksOf(cbs, t)
    ensures var r := Unsubscribed(Subscribed(cbs, t, cb), Subscription(t, cb));
      (forall u :: CallbacksOf(r, u) == CallbacksOf(cbs, u))
      && Unsubscribed(r, Subscription(t, cb)) == r
  {
    RemoveUndoesAdd(CallbacksOf(cbs, t), cb);
    var r := Unsubscribed(Subscribed(cbs, t, cb), Subscription(t, cb));
    RemoveIdempotent(Add(CallbacksOf(cbs, t), cb), cb);
    assert r[t := Remove(r[t], cb)] == r;
  }

  /** Every handle in `subs` called once, in order (what unmounting a component does). */
  function UnsubscribedAll(cbs: Callbacks, subs: seq<Subscription>): (r: Callbacks)
    ensures forall t, c :: c in CallbacksOf(r, t) <==>
      c in CallbacksOf(cbs, t) && Subscription(t, c) !in subs
    ensures CallbacksValid(cbs) ==> CallbacksValid(r)
    decreases |subs|
  {
    if subs == [] then cbs else UnsubscribedAll(Unsubscribed(cbs, subs[0]), subs[1..])
  }

  /** Calling one more handle after a run of them is unsubscribing it from the result. */
  lemma {:induction false} UnsubscribedAllSnoc(cbs: Callbacks, subs: seq<Subscription>, s: Subscription)
    ensures UnsubscribedAll(cbs, subs + [s]) == Unsubscribed(UnsubscribedAll(cbs, subs), s)
    decreases |subs|
  {
    if subs == [] {
      assert subs + [s] == [s];
      assert [s][1..] == [];
    } else {
      assert (subs + [s])[1..] == subs[1..] + [s];
      UnsubscribedAllSnoc(Unsubscribed(cbs, subs[0]), subs[1..], s);
    }
  }

  // ------------------------------------------------------------ starting and stopping

  /** `isAuthenticated = !!token`: a missing or empty token is not a login. */
  function IsAuthenticated(token: Option<string>): (b: bool)
    ensures token.None? ==> !b
    ensures token == Some("") ==> !b
    ensures token.Some? && |token.value| > 0 ==> b
  {
    token.Some? && token.value != ""
  }

  datatype AuthAction = StartStreams | StopStreams | LeaveAlone

  /** The `watch` callback of `useSSE`: log in while not connected starts the streams, log
      out while connected stops them, and nothing else does anything. */
  function OnAuthChange(isAuthenticated: bool, isConnected: bool): (a: AuthAction)
    ensures a == StartStreams <==> isAuthenticated && !isConnected
    ensures a == StopStreams <==> !isAuthenticated && isConnected
  {
    if isAuthenticated && !isConnected then StartStreams
    else if !isAuthenticated && isConnected then StopStreams
    else LeaveAlone
  }

  /** The check `useSSE` makes once when a component mounts: it starts the streams exactly
      when the watch would, and never stops them. */
  function OnMount(isConnected: bool, isAuthenticated: bool): (start: bool)
    ensures start <==> OnAuthChange(isAuthenticated, isConnected) == StartStreams
  {
    !isConnected && isAuthenticated
  }
}
