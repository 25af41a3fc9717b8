# Live ticket events, locale helpers and the navigation guard, in Dafny

This project models four parts of a Vue front end for a help-desk / EV-charger service
system:

- the `SSEClient` class (src/services/sse.ts). It is one Server-Sent-Events connection with:
  - a connection-state machine;
  - exponential-backoff reconnection;
  - a heartbeat deadline;
  - a per-event-type handler registry.
- the SSE store and the `useSSE` composable (src/stores/sse.ts). The store owns two clients:
  - one for the ticket stream and one for the notification stream;
  - a bounded, newest-first event history;
  - an unread-notification counter;
  - a registry of component callbacks.

  The composable starts and stops the streams with the login state and drops a component's
  subscriptions when it unmounts.
- the locale helpers of src/composables/useI18n.ts:
  - the supported locales and locale toggling;
  - relative times, durations in minutes, currency choice;
  - the enum translators with their fallbacks, and the select-option lists.
- the route table and the `beforeEach` guard of src/router/index.ts.

Layout:

- `sse_machine.dfy` (module `SseMachine`) is the pure specification of the client.
  - A record `Conn` holds the client's mutable fields.
  - There is one transition function per method of the class.
  - `Valid` is the invariant every step keeps.
  - Lemmas cover the backoff, heartbeat, cancellation, wiring and observer properties.
- `sse_client.dfy` (class `SseClient.Client`) is the imperative class. Each method ensures
  `Model() == SseMachine.<Op>(old(Model()), ...)` and keeps `Valid()`.
- `sse_events.dfy` holds the store's pure parts:
  - the history cap;
  - the two history filters;
  - the callback registry;
  - the login watch.
- `sse_store.dfy` holds the classes `Store` and `UseSse`. `Store` owns two `Client`s. Its
  invariant ties each connection-state ref to its client's state.
- `locale.dfy` and `router.dfy` are pure.
- `seqset.dfy`, `json.dfy`, `dispatch.dfy` and `wrappers.dfy` are small shared pieces:
  - ordered sets as duplicate-free sequences, for JavaScript `Set`/`Map` iteration order;
  - the payload value with optional chaining;
  - the isolated-`try` callback loop;
  - `Option`.
- `sse_scenarios.dfy` and `store_scenarios.dfy` are concrete runs with fixed outcomes.

Inputs the model cannot compute become explicit parameters:

- **The browser's `EventSource`:**
  - `constructed` says whether the constructor succeeded;
  - `Open`, `TransportError` and `Frame` are its callbacks;
  - a frame is a `FrameKind` and a `Payload`, which says whether `JSON.parse` succeeded.
- **Timers:** there is no clock, so any pending timer may be the next stimulus.
  - The reconnect timer behind `reconnectTimeout` is an `Option<nat>` holding its delay.
  - `strays` counts reconnect timers that are still pending but whose handle
    `attemptReconnect` overwrote. Each of them still calls `connect()` when it fires.
  - Each heartbeat timer is an `Arming`, numbered by the count `armings` of timers set so
    far. An expiry names its arming, and an arming that a later reset or clear cancelled
    does nothing.
  - `ReconnectTimerFired`, `StrayFired` and `HeartbeatFired` are the firings.
- **Handlers and callbacks:**
  - handlers and component callbacks are numbered identities;
  - which of them throw is a set parameter.
- **The login state:**
  - the token is an `Option<string>`;
  - `isAuthenticated` is `!!token`.
- **The clock:** the elapsed time of `formatRelativeTime` is an input.
- **Translations:** the `t` translation function is a function parameter.

Behaviour of the code that the model keeps as written:

- **Heartbeat reset:** the heartbeat is re-armed only by frames that reach `onmessage` or a
  wired listener, once per listener that runs. A frame of a type the client never wired
  never reaches the page, so it leaves the deadline as it was
  (`SseMachine.UnheardFrameKeepsDeadline`).
- **Wiring on an open transport:** `on()` wires the type onto the live transport every time,
  even when it is already wired. After that, each frame of that type runs its handlers once
  per wiring (`SseMachine.DuplicateDispatch`).
- **Late registration:** a type registered while the transport is still connecting is not
  wired until the next `connect()` (`SseMachine.LateRegistrationMissed`).
- **Attempt limit:** attempts are exhausted when the counter *reaches*
  `maxReconnectAttempts` (`>=`).
- **Overwritten reconnect timer:** see "## Findings".
- **Repeated `initialize`:** `useSSE` calls `initialize()` on mount whenever neither stream
  is 'connected', and each mounted component's login watch calls it again when the login
  state turns true while neither stream is 'connected'. That happens when a second
  component mounts before the first open, or while the streams are reconnecting, and on a
  login with two components mounted: the second watch runs before any stream has opened.
  `initialize` then replaces both clients without
  disconnecting the old ones (`SseStore.Store.Initialize`, `StoreScenarios.SecondMount`).
  The old clients keep their transports and timers, and their callbacks keep writing the
  store's state refs, history and unread count, even after `disconnect()`.
- **`isConnected` and the state refs:** the store's `isConnected` reads its two state refs.
  Those are written by the clients' `onStateChange` callbacks. In the model, where a
  replaced client is no longer followed, the `Store.Valid` invariant proves that the refs
  equal the states of the clients the store holds.

## Model

| member | source | states |
|---|---|---|
| SseMachine.WithDefaults | src/services/sse.ts:41-46 | each option the caller gives wins, and each missing one is the default: 0 attempts (unlimited), 1000 ms, 30000 ms, 45000 ms |
| SseMachine.Backoff | src/services/sse.ts:263-267 | the delay never exceeds the cap, never exceeds `initial * 2^(attempt-1)`, and equals one of the two |
| SseMachine.BackoffMonotone | src/services/sse.ts:263-267 | a later attempt never waits less |
| SseMachine.BackoffDoubles | src/services/sse.ts:263-267 | each delay is the previous one doubled, cut at the cap |
| SseMachine.DefaultBackoff | src/services/sse.ts:41-46 | with the defaults, attempt n waits 1000·2^(n-1) ms up to the fifth attempt and 30000 ms from then on |
| SseMachine.RegisterHandler | src/services/sse.ts:149-154 | the handler set of `t` gains `h` (kept once), every other type's set is unchanged, and `t` becomes a key (appended if new) |
| SseMachine.UnregisterHandler | src/services/sse.ts:170-175 | `h` leaves only the set of `t`, and the keys stay, even a key whose set becomes empty |
| SseMachine.DropType | src/services/sse.ts:180-182 | `t` loses its key and all its handlers, and every other type is untouched |
| SseMachine.Initial | src/services/sse.ts:48-58 | a new client is disconnected, with no transport, no timers, no attempts and no notices, and satisfies the invariant |
| SseMachine.Exhausted | src/services/sse.ts:251-254 | a limit of 0 is never exhausted, exhaustion needs at least one attempt, and a counter at or below the limit is exhausted only when it equals it |
| SseMachine.Consistent | src/services/sse.ts:89-301 | the client invariant between stimuli: a disconnected client holds no transport, no listeners and no cancellable timer |
| SseMachine.Valid | src/services/sse.ts:89-301 | the client invariant: besides `Consistent`, a reconnecting client has no transport and waits at most `maxReconnectDelay` |
| SseMachine.SetState | src/services/sse.ts:191-196 | the state becomes `s`, and `onStateChange` is called exactly when `s` differs from the old state; nothing else changes |
| SseMachine.ClearReconnectTimeout | src/services/sse.ts:276-281 | the timer behind the handle is cancelled; strays and everything else are kept |
| SseMachine.ClearHeartbeatTimeout | src/services/sse.ts:296-301 | no heartbeat arming is pending afterwards; nothing else changes |
| SseMachine.ResetHeartbeat | src/services/sse.ts:287-294 | one more arming is counted and exactly that arming is pending, with the heartbeat timeout; nothing else changes |
| SseMachine.Rearmed | src/services/sse.ts:216-217 | `k` listeners re-arming in a row count `k` more armings and leave the last one pending; none leaves the client as it was |
| SseMachine.RearmedOneMore | src/services/sse.ts:216-217 | `k + 1` re-armings are `k` re-armings followed by one reset |
| SseMachine.RearmedAfterReset | src/services/sse.ts:216-217 | one reset followed by `k` re-armings is `k + 1` re-armings |
| SseMachine.CloseSource | src/services/sse.ts:126-129 | no transport and no listeners afterwards; nothing else changes |
| SseMachine.SetupEventListeners | src/services/sse.ts:198-211 | with a transport, one listener per registered key, in key order; nothing else changes |
| SseMachine.AddEventSourceListener | src/services/sse.ts:213-216 | with a transport, one more listener for `t`; nothing else changes |
| SseMachine.AttemptReconnect | src/services/sse.ts:249-274 | exhausted: the client fails and schedules nothing. Otherwise: the attempt is counted, reported after the state change, and a reconnect is scheduled after `Backoff`; a reconnect timer still pending is not cleared and becomes a stray. Unlimited attempts never fail |
| SseMachine.HandleError | src/services/sse.ts:237-247 | the heartbeat is cancelled and the transport dropped, and the error is reported first. The client ends reconnecting exactly when attempts are left and failed exactly when they are not. Registry and token are kept, and the invariant is restored |
| SseMachine.Disconnect | src/services/sse.ts:122-132 | from any state: the timers behind both handles are cancelled, there is no transport, and the client is disconnected. Token, attempts, handlers and strays are kept, with one state notice at most |
| SseMachine.Connect | src/services/sse.ts:89-117 | on success: connecting, every registered key wired once, attempts kept. On a constructor failure: no transport, and the client is reconnecting or failed. Token and handlers are kept, and the invariant holds |
| SseMachine.UpdateToken | src/services/sse.ts:137-144 | the token is always stored. A connected client disconnects and then connects with it; any other client changes nothing else |
| SseMachine.On | src/services/sse.ts:149-165 | the handler is registered for `t` only. `t` is wired once more exactly when the transport is open. The invariant is kept |
| SseMachine.Off | src/services/sse.ts:170-175 | only the registry changes, by `UnregisterHandler`; the invariant is kept |
| SseMachine.OffAll | src/services/sse.ts:180-182 | only the registry changes, by `DropType`, and the transport wiring stays; the invariant is kept |
| SseMachine.ClearHandlers | src/services/sse.ts:187-189 | the registry becomes empty and nothing else changes |
| SseMachine.UnsubscribeUndoesOn | src/services/sse.ts:161-164 | the function `on` returns restores every type's handler set, and calling it again changes nothing |
| SseMachine.Open | src/services/sse.ts:100-104 | a connecting transport opens: attempts reset to 0, the client is connected, and a new heartbeat arming is pending. Any other client is unchanged |
| SseMachine.TransportError | src/services/sse.ts:106-109 | with a transport, the same as `handleError`; without one, no effect |
| SseMachine.HeartbeatFired | src/services/sse.ts:287-294 | the expiry of the pending heartbeat arming is `handleError` with a heartbeat timeout; the expiry of an arming that was cancelled or replaced has no effect |
| SseMachine.ReconnectTimerFired | src/services/sse.ts:271-273 | the timer behind the handle firing is no longer pending, and `connect()` runs; with none pending, no effect |
| SseMachine.StrayFired | src/services/sse.ts:271-273 | an orphaned reconnect timer firing is one stray fewer, and `connect()` runs whatever the state, so a disconnected client starts connecting; with no stray, no effect |
| SseMachine.Frame | src/services/sse.ts:207-234 | only the heartbeat can change. A frame heard by `onmessage` or by a wired listener leaves a new arming pending, one more arming per listener that ran; a frame nobody hears changes nothing, whatever the payload |
| SseMachine.FrameDefersHeartbeat | src/services/sse.ts:207-217 | after a heard frame, the expiry of the arming pending before it changes nothing, and the expiry of the arming it left makes the client reconnect |
| SseMachine.UnheardFrameKeepsDeadline | src/services/sse.ts:213-217 | a frame nobody hears leaves every heartbeat expiry with the effect it had before |
| SseMachine.Delivered | src/services/sse.ts:219-233 | a handler runs exactly when the transport is open, the frame is named, its payload parses, its type has a listener and the handler is registered for it. A malformed payload, a closed transport or a plain message runs none |
| SseMachine.DeliveredOncePerListener | src/services/sse.ts:216-230 | each handler of `t` runs exactly once per listener wired for `t` |
| SseMachine.Step | src/services/sse.ts:89-301 | every public call, transport callback and timer firing keeps the client invariant |
| SseMachine.Run | src/services/sse.ts:89-301 | the invariant holds after any sequence of stimuli |
| SseMachine.RunAppend | src/services/sse.ts:89-301 | running two sequences one after the other is running their concatenation |
| SseMachine.UnlimitedNeverFails | src/services/sse.ts:251-257 | with unlimited attempts, no sequence of stimuli reaches the failed state |
| SseMachine.StaysDisconnected | src/services/sse.ts:122-132 | after `disconnect()`, when no orphaned reconnect timer is pending, any sequence of stimuli without a `connect()` call leaves the client disconnected, with no transport and no timers |
| SseMachine.DisconnectCancels | src/services/sse.ts:122-132 | reconnect firings, heartbeat expiries of any arming, errors and opens arriving after `disconnect()` change nothing; the orphaned reconnect timers survive it, and only when there are none does their firing do nothing |
| SseMachine.OrphanedTimerReconnects | src/services/sse.ts:89-98 | connect while reconnecting, open, error, disconnect: the client is disconnected with no handle, one orphaned timer is pending, and its firing makes the client connect again |
| SseMachine.AttemptReconnectCleared | src/services/sse.ts:249-274 | the corrected `attemptReconnect` clears the pending timer first: it is the code as written except that no stray is added |
| SseMachine.HandleErrorCleared | src/services/sse.ts:237-247 | `handleError` over the corrected `attemptReconnect`: the code as written except that no stray is added |
| SseMachine.ClearedDisconnectIsFinal | src/services/sse.ts:122-132 | with the correction, an error leaves no orphaned timer, and after a later `disconnect()` no sequence of stimuli without `connect()` brings the client out of the disconnected state |
| SseMachine.FailingRetries | src/services/sse.ts:249-274 | `n` failed reconnect cycles are `2n` stimuli |
| SseMachine.RunFailingRetries | src/services/sse.ts:249-274 | running `n` failed reconnect cycles as stimuli is the same as applying the cycle `n` times |
| SseMachine.OneRetry | src/services/sse.ts:249-274 | one reconnect that fails again counts exactly one more attempt and stays reconnecting |
| SseMachine.RetriedCount | src/services/sse.ts:249-274 | after `n` failed cycles the client is still reconnecting, keeps its invariant and has counted `n` more attempts |
| SseMachine.PendingBackoff | src/services/sse.ts:263-267 | a reconnecting client waits exactly the backoff delay of its attempt count |
| SseMachine.RetriesCount | src/services/sse.ts:249-274 | after `n` failed cycles, `n` more attempts are counted and the pending delay is `Backoff` at the new count |
| SseMachine.ConsecutiveFailures | src/services/sse.ts:100-104 | after the n-th consecutive failure the counter is n and the pending delay is `Backoff(n)`; the next successful open resets the counter to 0 |
| SseMachine.FirstFailure | src/services/sse.ts:106-109 | the first transport error of a fresh connection attempt leaves the client reconnecting with one attempt counted |
| SseMachine.AfterRetriesOpen | src/services/sse.ts:100-104 | a reconnect whose transport opens resets the attempt counter to 0 |
| SseMachine.ExhaustedFails | src/services/sse.ts:251-257 | with attempts exhausted, an error reports itself, fails the client and schedules nothing |
| SseMachine.HeartbeatTimeoutOnce | src/services/sse.ts:287-294 | a connected client whose pending heartbeat expires becomes reconnecting with one attempt; no later heartbeat expiry changes anything |
| SseMachine.ConnectOnLiveFlickers | src/services/sse.ts:89-94 | `connect()` on a live transport reports 'disconnected' and then 'connecting' |
| SseMachine.UpdateTokenReconnects | src/services/sse.ts:137-144 | a connected client given a new token is connecting on a new transport, after the two state notices |
| SseMachine.LateRegistrationMissed | src/services/sse.ts:156-159 | a type registered while connecting is not wired. After the open its frames reach nobody; after the next `connect()` and open, they reach the handler |
| SseMachine.UnwiredMissed | src/services/sse.ts:156-159 | frames of a type the transport has no listener for reach no handler |
| SseMachine.WiredOnReconnect | src/services/sse.ts:89-104 | after `connect()` and the open, a frame of any type runs exactly the handlers registered for it, each once |
| SseMachine.OnTwiceWiresTwice | src/services/sse.ts:149-159 | two identical `on` calls on an open transport register the handler once but wire the type twice |
| SseMachine.WiredTwiceDeliversTwice | src/services/sse.ts:213-230 | a type wired twice runs each of its handlers twice per frame |
| SseMachine.DuplicateDispatch | src/services/sse.ts:149-159 | repeating `on(t, h)` on an open transport makes every frame of `t` run `h` twice, and exactly `[h, h]` when `t` had no other handler |
| SseMachine.FreshTypeDeliversTwice | src/services/sse.ts:213-230 | a new type wired twice with one handler runs exactly that handler twice |
| SseMachine.ObservedAppend | src/services/sse.ts:191-196 | what an `onStateChange` listener believes after two batches of notices is the second batch applied to the first |
| SseMachine.ObservedForgets | src/services/sse.ts:191-196 | notices that begin with a state change leave the listener with the same belief, whatever it believed before |
| SseMachine.TracksTrans | src/services/sse.ts:191-196 | keeping a listener informed composes over steps |
| SseMachine.QuietTracks | src/services/sse.ts:191-196 | a step that changes neither the state nor the notices keeps a listener informed |
| SseMachine.NoticeTracks | src/services/sse.ts:237-261 | an error or reconnect notice alone keeps a listener informed |
| SseMachine.SetStateTracks | src/services/sse.ts:191-196 | `setState` keeps a listener informed |
| SseMachine.AttemptReconnectTracks | src/services/sse.ts:249-274 | `attemptReconnect` keeps a listener informed |
| SseMachine.HandleErrorTracks | src/services/sse.ts:237-247 | `handleError` keeps a listener informed |
| SseMachine.DisconnectTracks | src/services/sse.ts:122-132 | `disconnect` keeps a listener informed |
| SseMachine.ConnectTracks | src/services/sse.ts:89-117 | `connect` keeps a listener informed |
| SseMachine.UpdateTokenTracks | src/services/sse.ts:137-144 | `updateToken` keeps a listener informed |
| SseMachine.OpenTracks | src/services/sse.ts:100-104 | the transport opening keeps a listener informed |
| SseMachine.TimerTracks | src/services/sse.ts:271-273 | every timer firing, heartbeat, reconnect or stray, keeps a listener informed |
| SseMachine.ConnectAnnounces | src/services/sse.ts:94 | `connect()` without a transport, when not already connecting, first reports 'connecting' |
| SseMachine.StepTracks | src/services/sse.ts:191-196 | after every stimulus, the state an `onStateChange` listener last heard of is the client's state |
| SseMachine.StaysWiredOnce | src/services/sse.ts:198-204 | as long as the registry does not change, a live transport carries exactly one listener per key |
| SseClient.Client.constructor | src/services/sse.ts:60-70 | keeps the url, merges the options with the defaults, and starts in `Initial(token)` |
| SseClient.Client.IsConnected | src/services/sse.ts:82-84 | under the invariant, true exactly when the transport is open and the heartbeat armed |
| SseClient.Client.Connect | src/services/sse.ts:89-117 | the new state is `SseMachine.Connect` of the old, and the invariant holds |
| SseClient.Client.Disconnect | src/services/sse.ts:122-132 | the new state is `SseMachine.Disconnect` of the old, and the invariant holds |
| SseClient.Client.UpdateToken | src/services/sse.ts:137-144 | the new state is `SseMachine.UpdateToken` of the old, and the invariant holds |
| SseClient.Client.On | src/services/sse.ts:149-165 | the new state is `SseMachine.On` of the old, and the invariant holds |
| SseClient.Client.Off | src/services/sse.ts:170-175 | the new state is `SseMachine.Off` of the old, and the invariant holds |
| SseClient.Client.OffAll | src/services/sse.ts:180-182 | the new state is `SseMachine.OffAll` of the old, and the invariant holds |
| SseClient.Client.ClearHandlers | src/services/sse.ts:187-189 | the new state is `SseMachine.ClearHandlers` of the old, and the invariant holds |
| SseClient.Client.Open | src/services/sse.ts:100-104 | the new state is `SseMachine.Open` of the old, and the invariant holds |
| SseClient.Client.TransportError | src/services/sse.ts:106-109 | the new state is `SseMachine.TransportError` of the old, and the invariant holds |
| SseClient.Client.HeartbeatFired | src/services/sse.ts:290-293 | the new state is `SseMachine.HeartbeatFired` of the old, and the invariant holds |
| SseClient.Client.ReconnectTimerFired | src/services/sse.ts:271-273 | the new state is `SseMachine.ReconnectTimerFired` of the old, and the invariant holds |
| SseClient.Client.StrayFired | src/services/sse.ts:271-273 | the new state is `SseMachine.StrayFired` of the old, and the invariant holds |
| SseClient.Client.Frame | src/services/sse.ts:207-234 | the new state is `SseMachine.Frame`: one new heartbeat arming per listener that ran, nothing else. The handlers called are `SseMachine.Delivered`, in order, and the caught throws are the throwing ones among them |
| SseClient.Client.RunListeners | src/services/sse.ts:216-234 | the listeners wired for `t` run the handler list of `t` once per wiring (none for a malformed payload) and leave the state as it was |
| SseClient.Client.Listener | src/services/sse.ts:216-234 | one listener: every handler of `t` runs, in order, and a throw is caught without stopping the rest; a malformed payload runs none |
| SseClient.Client.SetState | src/services/sse.ts:191-196 | the new state is `SseMachine.SetState` of the old |
| SseClient.Client.SetupEventListeners | src/services/sse.ts:198-211 | the new state is `SseMachine.SetupEventListeners` of the old |
| SseClient.Client.AddEventSourceListener | src/services/sse.ts:213-235 | the new state is `SseMachine.AddEventSourceListener` of the old |
| SseClient.Client.HandleError | src/services/sse.ts:237-247 | the new state is `SseMachine.HandleError` of the old |
| SseClient.Client.AttemptReconnect | src/services/sse.ts:249-274 | the new state is `SseMachine.AttemptReconnect` of the old, including the stray left by overwriting a pending handle |
| SseClient.Client.ClearReconnectTimeout | src/services/sse.ts:276-281 | the timer behind the handle is cancelled; orphaned reconnect timers (strays) stay pending, and nothing else changes |
| SseClient.Client.StartHeartbeatMonitor | src/services/sse.ts:283-285 | the new state is `SseMachine.ResetHeartbeat`: a new arming with the heartbeat timeout is pending |
| SseClient.Client.ResetHeartbeatMonitor | src/services/sse.ts:287-294 | the pending heartbeat is cancelled and a new arming, numbered one more, is pending with the heartbeat timeout |
| SseClient.Client.ClearHeartbeatTimeout | src/services/sse.ts:296-301 | no heartbeat timer is pending afterwards, and nothing else changes |
| SseScenarios.DuplicateDispatch | src/services/sse.ts:149-159 | `on(t, 1)` twice on an open client: one frame of `t` calls handler 1 twice |
| SseScenarios.LateRegistration | src/services/sse.ts:156-159 | registering while connecting: the first open delivers nothing, and after a reconnect the frame reaches the handler |
| SseScenarios.ConnectTwice | src/services/sse.ts:89-104 | connect, open, connect again: observers see connecting, connected, disconnected, connecting |
| SseScenarios.RegisteredWith | src/services/sse.ts:149-154 | registering distinct handlers on a new client gives exactly those handlers, under one key |
| SseScenarios.OpenWith | src/services/sse.ts:198-204 | after connect and open, the registered type is wired exactly once |
| SseScenarios.ThrowingHandler | src/services/sse.ts:223-229 | with three handlers of which the second throws, all three run and only the second is caught |
| SseScenarios.MalformedFrame | src/services/sse.ts:219-233 | a frame whose data does not parse calls no handler and leaves the client connected |
| SseScenarios.BackoffSchedule | src/services/sse.ts:263-267 | with the defaults, n consecutive failures schedule 1000, 2000, 4000, 8000, 16000 ms and then 30000 ms |
| SseScenarios.HeartbeatExpiry | src/services/sse.ts:287-294 | a heartbeat expiry on a connected client schedules a reconnect after 1000 ms; a second expiry changes nothing |
| SseScenarios.HeartbeatDeferred | src/services/sse.ts:207-217 | after a frame, the expiry of the earlier heartbeat leaves the client connected, and the expiry of the frame's arming makes it reconnect |
| SseScenarios.OrphanedReconnectTimer | src/services/sse.ts:271-273 | connect while reconnecting, open, error, disconnect: the client is disconnected, and the orphaned timer firing makes it connect again |
| SseScenarios.AttemptsExhausted | src/services/sse.ts:251-257 | with at most two attempts, the third error in a row fails the client with no timer pending |
| SseScenarios.DisconnectWhileReconnecting | src/services/sse.ts:122-132 | timers that fire after `disconnect()` leave the client disconnected with no transport |
| SeqSet.Add | src/services/sse.ts:150-154 | `Set.add`: the members are the old ones plus `x`, kept in insertion order, with `x` appended only if new |
| SeqSet.Remove | src/services/sse.ts:171-174 | `Set.delete`: exactly `x` leaves, and a set without `x` is unchanged |
| SeqSet.RemoveUndoesAdd | src/services/sse.ts:161-164 | removing a member that was just added gives back the original set |
| SeqSet.RemoveIdempotent | src/stores/sse.ts:227-229 | calling an unsubscribe handle twice is calling it once |
| SeqSet.RemoveCommutes | src/stores/sse.ts:369-372 | the order in which two handles are called does not matter |
| SeqSet.Occurrences | src/services/sse.ts:216 | counts how often an event type is wired; zero exactly when it is not wired |
| SeqSet.OccurrencesDistinct | src/services/sse.ts:202-204 | a key of the handler map is wired once when each key is wired once |
| SeqSet.Fanout | src/services/sse.ts:216-230 | n listeners each running the same handler list run its members n times, in that order, and nothing else |
| SeqSet.FanoutOccurrences | src/services/sse.ts:216-230 | each handler runs n times as often across n listeners |
| SeqSet.Within | src/services/sse.ts:224-228 | the caught throws are the throwing callbacks among those called, in call order |
| SeqSet.Filter | src/stores/sse.ts:289 | `filter` keeps exactly the elements that pass, and never more than were there |
| Json.Member | src/stores/sse.ts:297-299 | `v?.key` is defined exactly on an object that has the key, and is that member |
| Dispatch.ForEachIsolated | src/stores/sse.ts:207-216 | every callback runs in order, whether or not an earlier one threw; the caught ones are exactly the throwing ones, in order |
| SseEvents.Stamped | src/stores/sse.ts:191-197 | the event carries the given type and payload |
| SseEvents.Record | src/stores/sse.ts:199-204 | the new event comes first, the old history follows, and the length is cut to 100 |
| SseEvents.RecordEvictsOldest | src/stores/sse.ts:199-204 | a full history loses exactly its oldest entry and stays at 100 |
| SseEvents.RecordAll | src/stores/sse.ts:199-204 | a history within the cap stays within it, however many events arrive |
| SseEvents.RecordAllNewestFirst | src/stores/sse.ts:199-204 | after a burst, the history is the burst newest first, then the old history, cut to 100 |
| SseEvents.NewestFirstStep | src/stores/sse.ts:199-204 | recording one event and then a burst newest first equals recording the whole burst newest first over the old history |
| SseEvents.LongBurstEvictsAll | src/stores/sse.ts:199-204 | a burst of 100 or more events leaves only its 100 newest, newest first |
| SseEvents.EventsByType | src/stores/sse.ts:288-290 | `getEventsByType`: exactly the events of that type |
| SseEvents.EventsByTypeRecord | src/stores/sse.ts:288-290 | for any history, full ones included: a new event is at the front of the filtered list exactly when it has the type, followed by the filter of the entries the cap keeps, in order |
| SseEvents.EventsForTicket | src/stores/sse.ts:293-302 | `getEventsForTicket`: exactly the events whose payload names the ticket |
| SseEvents.MentionsTicket | src/stores/sse.ts:294-300 | only an object payload can name a ticket |
| SseEvents.EventsForTicketRecord | src/stores/sse.ts:293-302 | for any history, full ones included: a new event is at the front of the ticket filter exactly when it names the ticket, followed by the ticket filter of the entries the cap keeps, in order |
| SseEvents.PayloadShapesMention | src/stores/sse.ts:297-299 | `{ticket: {id}}`, `{ticket_id}` and `{worklog: {ticket_id}}` each match, whatever else the payload holds |
| SseEvents.NonStringsNeverMention | src/stores/sse.ts:297-299 | strict equality: a numeric id never matches a string id, and neither does a payload that is not an object |
| SseEvents.Subscribed | src/stores/sse.ts:220-224 | `subscribe(t, cb)` adds `cb` to the set of `t` only, keeping the registry well-formed |
| SseEvents.Unsubscribed | src/stores/sse.ts:227-229 | the handle removes exactly `cb` from exactly the set of `t` |
| SseEvents.UnsubscribeUndoesSubscribe | src/stores/sse.ts:220-230 | unsubscribing a new subscription restores every type's set, and a second call changes nothing |
| SseEvents.UnsubscribedAll | src/stores/sse.ts:369-372 | after calling every handle, a callback remains for a type exactly when it was there and none of the handles names that pair |
| SseEvents.UnsubscribedAllSnoc | src/stores/sse.ts:371 | calling one more handle at the end is unsubscribing it from the result |
| SseEvents.OnAuthChange | src/stores/sse.ts:357-366 | a login while not connected starts the streams, a logout while connected stops them, and nothing else does anything |
| SseEvents.OnMount | src/stores/sse.ts:352-354 | on mount the streams start exactly when the watch would start them, and are never stopped |
| SseEvents.IsAuthenticated | src/stores/sse.ts:352 | `!!token`: a missing or empty token is no login, and any other token is one |
| SseStore.TopicTypes | src/stores/sse.ts:170-188 | the ticket stream listens for the five ticket types and the notification stream for `notification` only, with no type twice |
| SseStore.DefaultOverrides | src/stores/sse.ts:116-120 | the options the store passes, merged with the defaults, are exactly the defaults |
| SseStore.RegisterInternalHandlers | src/stores/sse.ts:178-188 | the client ends with exactly its topic's types, each with the store's one handler, and nothing wired |
| SseStore.RegisterNext | src/stores/sse.ts:178-188 | registering the next type of a topic on a fresh client extends the registered prefix by that type and its one handler |
| SseStore.Stimulate | src/services/sse.ts:100-109 | an open, error, heartbeat expiry or reconnect firing on a client is the machine's step, and keeps its invariant |
| SseStore.Store.Valid | src/stores/sse.ts:96-98 | the store invariant: a state ref reads 'connected' only when the store holds that client and its transport is open |
| SseStore.Store.constructor | src/stores/sse.ts:88-101 | no clients, both states disconnected, no events, nothing unread, no callbacks |
| SseStore.Store.IsTicketsConnected | src/stores/sse.ts:96 | under the invariant, true exactly when the ticket client exists and its transport is open |
| SseStore.Store.IsNotificationsConnected | src/stores/sse.ts:97 | under the invariant, true exactly when the notification client exists and its transport is open |
| SseStore.Store.IsConnected | src/stores/sse.ts:98 | under the invariant, true exactly when one of the two transports is open, and never without clients |
| SseStore.Store.Initialize | src/stores/sse.ts:104-164 | without a token, the clients stay as they were. Otherwise there are two new clients for the two urls and the token, each holding the store's handlers and connected once, connecting exactly when its transport was created. The clients held before are left as they were, not disconnected. History, count and callbacks are kept and the store invariant holds |
| SseStore.Store.CreateClients | src/stores/sse.ts:112-161 | two new, distinct clients for the two urls, each holding only the store's handlers for its topic; history, count and callbacks are kept |
| SseStore.Store.ConnectClients | src/stores/sse.ts:163-164 | each client's new state is `connect()` applied to its old one, and the store's invariant holds again |
| SseStore.Store.SetupInternalHandlers | src/stores/sse.ts:166-189 | each new client ends with exactly its topic's types and the store's handlers, nothing else changed |
| SseStore.Store.ConnectNew | src/stores/sse.ts:162-163 | the client connects, its state ref follows it, and the other stream and the rest of the store are untouched |
| SseStore.Store.OnStateChange | src/stores/sse.ts:122-124 | the topic's state ref ends at the state last reported; everything else is untouched |
| SseStore.Store.Follow | src/stores/sse.ts:145-147 | after hearing a client's new notices, the topic's ref equals the client's state |
| SseStore.Store.Disconnect | src/stores/sse.ts:273-279 | both clients are disconnected and dropped and every callback is gone; history and count stay |
| SseStore.Store.DisconnectClient | src/stores/sse.ts:274-275 | one client is disconnected and its ref reads 'disconnected'; the other stream is untouched |
| SseStore.Store.Reconnect | src/stores/sse.ts:282-285 | the old clients are disconnected and every callback is gone. With a token there are two new clients for the two urls holding that token and the store's handlers, connected once; without one there are none. History and count stay |
| SseStore.Store.Drive | src/services/sse.ts:100-109 | a callback on one client is that client's step. The other client is untouched, the refs follow, and the invariant is kept |
| SseStore.Store.Receive | src/stores/sse.ts:179-188 | the client for the topic takes the frame as `SseMachine.Frame`, and the other client and both state refs are untouched. When the client is open, the type is the store's and the data parses: the event is recorded first, every subscriber of the type is called in order with throws isolated, and a notification counts one more unread. Otherwise history, count and callbacks are unchanged |
| SseStore.Store.FrameOn | src/services/sse.ts:216-234 | the client for the topic takes the frame as `SseMachine.Frame` and the other client is untouched; the store's handler runs exactly when the client is open, the type is one the store registered and the data parses |
| SseStore.Store.RunInternalHandler | src/stores/sse.ts:179-188 | records the event, calls the type's subscribers, and counts one unread for the notification stream only |
| SseStore.Store.AddEvent | src/stores/sse.ts:191-217 | the event is recorded under the cap and every subscriber of the type is called in order, with throws caught one by one |
| SseStore.Store.Subscribe | src/stores/sse.ts:220-260 | the callback is added to the type's set, the handle names the pair, and the invariant is kept |
| SseStore.Store.Unsubscribe | src/stores/sse.ts:227-229 | the handle removes exactly its callback |
| SseStore.Store.MarkNotificationsRead | src/stores/sse.ts:263-265 | the unread count is 0 |
| SseStore.Store.ClearEvents | src/stores/sse.ts:268-270 | the history is empty |
| SseStore.Store.GetEventsByType | src/stores/sse.ts:288-290 | exactly the stored events of that type |
| SseStore.Store.GetEventsForTicket | src/stores/sse.ts:293-302 | exactly the stored events whose payload names the ticket |
| SseStore.UseSse.constructor | src/stores/sse.ts:346-349 | a component with no handles, not yet watching |
| SseStore.UseSse.Mount | src/stores/sse.ts:351-366 | when `OnMount` says so, two new clients holding the token and the store's handlers are connected once; otherwise the store is unchanged. The component then watches the login state |
| SseStore.UseSse.AuthChanged | src/stores/sse.ts:357-366 | the watch fires only on a change of the login state. As `OnAuthChange` decides, it then starts two new clients holding the token and the store's handlers, or disconnects the clients and drops all callbacks, or leaves everything |
| SseStore.UseSse.Track | src/stores/sse.ts:375-409 | subscribes and remembers the handle at the end of the component's list |
| SseStore.UseSse.Unmount | src/stores/sse.ts:368-372 | the component stops watching, and none of its subscriptions is left; other components' subscriptions stay |
| StoreScenarios.StartedStore | src/stores/sse.ts:104-164 | initializing with a token leaves both new clients connecting, with an empty history |
| StoreScenarios.OpenStore | src/stores/sse.ts:104-164 | after both transports open, both clients are open |
| StoreScenarios.SubscribedStore | src/stores/sse.ts:220-224 | a logged-in store with both streams open and one callback subscribed holds exactly that subscription |
| StoreScenarios.OneTicketEvent | src/stores/sse.ts:179-217 | one `ticket_created` frame: history of length one, the same by type, the subscriber called, nothing unread |
| StoreScenarios.NotificationCounts | src/stores/sse.ts:185-188 | a notification counts one unread even when its subscriber throws; a `notification` frame on the ticket stream is ignored |
| StoreScenarios.LogoutClearsEveryone | src/stores/sse.ts:357-366 | a logout seen by one component drops the clients and every component's callbacks |
| StoreScenarios.TwoComponents | src/stores/sse.ts:375-409 | two components can subscribe on a connected store without disturbing it |
| StoreScenarios.MountedComponent | src/stores/sse.ts:351-356 | mounting a component on a connected store leaves both streams alone |
| StoreScenarios.SecondMount | src/stores/sse.ts:351-354 | a second mount while connecting replaces the clients; the first ticket client, never disconnected, opens and still runs the store's handler for a ticket frame |
| StoreScenarios.MountWhileConnecting | src/stores/sse.ts:351-354 | a mount on a logged-in store whose streams are still connecting replaces the ticket client, and the one held before is left connecting with the store's handlers |
| Locale.FindByCode | src/composables/useI18n.ts:23-25 | `find`: none exactly when no config has the code, otherwise the first one that has it |
| Locale.CurrentLocaleConfig | src/composables/useI18n.ts:23-25 | the config of a supported locale, and Korean for any other |
| Locale.Toggled | src/composables/useI18n.ts:36-39 | English exactly from Korean, Korean from anything else |
| Locale.ToggleTwice | src/composables/useI18n.ts:36-39 | toggling twice is the identity on supported locales; from any other it lands on English |
| Locale.LocaleState.constructor | src/composables/useI18n.ts:18-21 | starts at the given locale |
| Locale.LocaleState.SetLocale | src/composables/useI18n.ts:27-34 | the locale becomes the given one |
| Locale.LocaleState.ToggleLocale | src/composables/useI18n.ts:36-39 | the locale becomes `Toggled` of the old one, and is supported |
| Locale.NatToString | src/composables/useI18n.ts:180-187 | a count prints as a non-empty run of digits |
| Locale.IntToString | src/composables/useI18n.ts:180-187 | an integer prints non-empty, and a natural number as its digits |
| Locale.DigitsValueOfNat | src/composables/useI18n.ts:180-187 | the printed digits read back as the number |
| Locale.UnitsFor | src/composables/useI18n.ts:178-187 | the hour and minute units are different non-empty words that do not start with a digit |
| Locale.JsRem | src/composables/useI18n.ts:176 | `%` as JavaScript computes it: the dividend is a multiple of the divisor plus the result, which is the Euclidean remainder for a non-negative dividend and lies in (-b, 0] for a negative one, so it is the one value JavaScript gives |
| Locale.FormatMinutes | src/composables/useI18n.ts:172-173 | a missing value prints as '-' |
| Locale.FormatMinutesReadsBack | src/composables/useI18n.ts:172-189 | for a non-negative count, reading the hours and minutes back from the text gives the count, in both locales |
| Locale.PrintedReadsBack | src/composables/useI18n.ts:172-189 | the text for whole hours and leftover minutes reads back as their total in minutes |
| Locale.MinutesSplit | src/composables/useI18n.ts:175-176 | whole hours times 60 plus the minutes left over is the count, with fewer than 60 minutes left over |
| Locale.NegativeMinutesLoseHours | src/composables/useI18n.ts:175-187 | a negative count shows only its remainder: -90 prints as "-30m" |
| Locale.Bucket | src/composables/useI18n.ts:106-122 | below a minute: just now; then minutes, hours and days. Each bucket is taken exactly for its range, and its count is the floored number of whole units |
| Locale.Plural | src/composables/useI18n.ts:120-122 | the suffix is "s" exactly for a count above one, and empty otherwise |
| Locale.RenderElapsed | src/composables/useI18n.ts:112-124 | a week or more is the formatted date; a counted bucket starts with its count and ends with " ago" (Korean: " 전"); in English the unit is plural exactly for a count above one |
| Locale.EnglishAgo | src/composables/useI18n.ts:120-122 | the English text of a count: it starts with the count and ends with " ago", and the letter before " ago" is 's' exactly for a count above one |
| Locale.KoreanAgo | src/composables/useI18n.ts:113-115 | the Korean text of a count: it starts with the count and ends with " 전" |
| Locale.FormatRelativeTime | src/composables/useI18n.ts:99-125 | a missing, empty or unparsable date prints '-'. Under a minute prints "방금 전" or "just now", and a week or more prints the formatted date |
| Locale.EnglishMinutes | src/composables/useI18n.ts:120 | in English, minutes are singular for one and plural from two |
| Locale.CurrencyFormatFor | src/composables/useI18n.ts:149-160 | a non-empty currency is used as given; otherwise KRW in Korean and USD in English. Fraction digits are fixed: 0 for KRW and 2 for any other currency |
| Locale.CurrencyChoice | src/composables/useI18n.ts:152-158 | an explicit currency makes the locale irrelevant, and an empty one counts as missing |
| Locale.Spaced | src/composables/useI18n.ts:209 | every underscore becomes a space, and nothing else changes |
| Locale.UpperWordStarts | src/composables/useI18n.ts:209 | exactly the characters that start a word are upper-cased |
| Locale.TitleCase | src/composables/useI18n.ts:209 | the text keeps its length and has no underscore left |
| Locale.Capitalized | src/composables/useI18n.ts:218 | only the first character is upper-cased, and the rest is kept |
| Locale.Unspaced | src/composables/useI18n.ts:209 | spaces back to underscores and letters lower-cased, position by position |
| Locale.TitleCaseReversible | src/composables/useI18n.ts:209 | the fallback text of a lower-case snake-case key gives the key back |
| Locale.TitleCaseIdempotent | src/composables/useI18n.ts:209 | title-casing a title-cased text changes nothing |
| Locale.Translate | src/composables/useI18n.ts:206-211 | the translation is used exactly when `t` has one (the result differs from the key); otherwise the fallback |
| Locale.TranslateStatus | src/composables/useI18n.ts:204-212 | the `status.` translation when there is one, otherwise the title-cased status |
| Locale.StatusFallbackReadsBack | src/composables/useI18n.ts:204-212 | an untranslated status keeps its length, and a snake-case status can be read back from the text |
| Locale.UntranslatedStatus | src/composables/useI18n.ts:209 | with no translations, `in_progress` reads "In Progress" |
| Locale.TranslatePriority | src/composables/useI18n.ts:214-221 | the `priority.` translation when there is one, otherwise capitalized |
| Locale.TranslateCategory | src/composables/useI18n.ts:223-230 | the `category.` translation when there is one, otherwise capitalized |
| Locale.TranslateChannel | src/composables/useI18n.ts:232-239 | the `channel.` translation when there is one, otherwise capitalized |
| Locale.TranslateWorkType | src/composables/useI18n.ts:241-248 | the `workType.` translation when there is one, otherwise capitalized |
| Locale.TranslateChargerStatus | src/composables/useI18n.ts:250-257 | the `chargerStatus.` translation when there is one, otherwise capitalized |
| Locale.OptionsFor | src/composables/useI18n.ts:262-265 | one option per value, in order, with the value and its translated label |
| Locale.GetStatusOptions | src/composables/useI18n.ts:260-266 | the eight statuses in order, each with `translateStatus` as its label |
| Locale.GetPriorityOptions | src/composables/useI18n.ts:268-274 | the four priorities in order, each with `translatePriority` as its label |
| Locale.GetCategoryOptions | src/composables/useI18n.ts:276-282 | the seven categories in order, each with `translateCategory` as its label |
| Locale.GetChannelOptions | src/composables/useI18n.ts:284-290 | the five channels in order, each with `translateChannel` as its label |
| Locale.GetWorkTypeOptions | src/composables/useI18n.ts:292-298 | the seven work types in order, each with `translateWorkType` as its label |
| Router.Guard | src/router/index.ts:59-81 | login is required exactly for a protected route without a login, redirecting back to the full path. The dashboard is chosen exactly for a refused role or a logged-in visit to the login page. Every navigation that is neither proceeds |
| Router.HasRole | src/router/index.ts:68 | a missing or empty role is no role, and any other role is one |
| Router.RoleRefused | src/router/index.ts:68-70 | the role check fires only when the route lists roles and the user has one; a route listing no role refuses every user who has one |
| Router.NoRoleSkipsRoleCheck | src/router/index.ts:68 | without a (truthy) role, the route's role list makes no difference |
| Router.LoginIsFixedPoint | src/router/index.ts:8-11 | the login page lets through anyone not logged in |
| Router.DashboardIsFixedPoint | src/router/index.ts:14-18 | the dashboard lets through every logged-in user, whatever the role |
| Router.RolesNeedLogin | src/router/index.ts:38-54 | every route of the table that lists roles also requires a login |
| Router.RedirectsSettle | src/router/index.ts:59-81 | the guard cannot loop on the table: a redirect to login happens only without a login and login then proceeds; a redirect to the dashboard happens only with a login and the dashboard then proceeds |
| Router.MyWorkRoles | src/router/index.ts:37-42 | a logged-in user with a role reaches `my-work` exactly as a field engineer |
| Router.ReportsRoles | src/router/index.ts:43-54 | a logged-in user with a role reaches the reports and report snapshots exactly as an administrator, tenant administrator or service manager |
| Router.LoggedInSkipsLogin | src/router/index.ts:76-78 | a logged-in user asking for the login page goes to the dashboard |

## Left out

- The browser's `EventSource` and the network: opening, errors and frames are inputs to the model (`constructed`, `Open`, `TransportError`, `Frame`), as are the URL with its encoded token and `readyState`.
- `JSON.parse`: a payload is given either as parsed data or as "does not parse".
- JSON numbers are integers in the model (`Json.JNumber`): fractional numbers are not represented, and no modelled behaviour reads a number.
- Time: `setTimeout` and `clearTimeout` are modelled as pending timers and explicit firings, in any order. A fired timer's handle is cleared in the model, where the source leaves the stale handle in the field; a later `clearTimeout` on that handle cancels nothing in either.
- Handlers that unsubscribe or subscribe while a dispatch is running: the handler list of a frame is read once before the loop.
- Asynchronous scheduling: every call and callback runs to completion before the next one.
- The store's handler bodies (record, fan out, count) run after the client's dispatch loop rather than inside it. They touch only the store, and the client's dispatch loop reads nothing the store writes.
- The `onError` and `onReconnect` callbacks only log in the store. The client records them as notices, and nothing in the store reacts to them.
- Console logging everywhere.
- `createSSEClients` (src/services/sse.ts:307-332): the store does not use it.
- The `state` getter (src/services/sse.ts:75-77) is the field `state` itself.
- Client options are non-negative integers (`nat`): JavaScript would accept negative or fractional delays and attempt limits, which neither the defaults nor the store pass.
- `import.meta.env.VITE_API_BASE_URL`: the base url is its default "/api/v1".
- Event ids (`Date.now()`, `Math.random()`) and `receivedAt`: a `Stamp` parameter with no uniqueness claimed.
- SseStore.Store.Valid: clients replaced by a repeated `initialize` are no longer followed by the store model. Their transports, timers and callbacks stay live in the source and keep writing the store's state refs, history and count; the invariant speaks only of the clients the store holds.
- The null guard of `setupInternalHandlers` (src/stores/sse.ts:167): `initialize`, its only caller, has just created both clients, so the model requires them.
- The six `on…` wrappers of the store are `Subscribe` with the type fixed, and the six of `useSSE` are `Track` with the type fixed.
- The reactive `computed` wrappers `useSSE` returns are the store's own fields and functions.
- `formatDate`, `formatDateTime`, `formatTime`, `formatNumber`, `formatPercent` and the `dateLocale`/`numberLocale` computeds render through `Intl`, which the model does not have. `formatRelativeTime` takes `formatDate`'s text as a parameter.
- The number rendering of `formatCurrency` goes through `Intl` and is left out; only the choice of currency and fraction digits is modelled.
- `formatMinutes` on a non-integer, `NaN` or infinite value: minutes are integers.
- `Date` parsing in `formatRelativeTime`: the elapsed milliseconds, or their absence for an invalid date, are a parameter.
- `setLocale`'s writes to local storage and to `document.documentElement.lang`.
- Case mapping beyond ASCII letters in the translators' fallbacks, and `\w`/`\b` beyond ASCII letters, digits and `_`.
- The route components (lazy view imports) and `vue-router`'s matching of paths to routes: a navigation target is given with its matched name and `meta`.
- Locale.FormatMinutes: its own contract states only the missing case; what the text says is stated by `Locale.FormatMinutesReadsBack` for a non-negative count; for a negative one, the minutes are `Locale.JsRem`, whose contract fixes the JavaScript remainder, and `Locale.NegativeMinutesLoseHours` gives an example.
- Locale.FormatRelativeTime: its own contract states the '-', "just now" and formatted-date cases; the minute/hour/day cases are stated by `Locale.Bucket` and `Locale.RenderElapsed` (the count first, " ago" or " 전" last, plural exactly above one), which leave only the unit words to the body.
- SseStore.Store.IsTicketsConnected, SseStore.Store.IsNotificationsConnected, SseStore.Store.IsConnected: stated under the store invariant, which every store method keeps.

## Findings

| source | as written | input that shows it | evidently intended | confidence | as-written member | corrected member |
|---|---|---|---|---|---|---|
| src/services/sse.ts:271 | `attemptReconnect` stores a new timer in `reconnectTimeout` without clearing the one pending there, so `disconnect()` can no longer cancel the old one | `connect()` while reconnecting, the transport opens, an error, then `disconnect()`: the orphaned timer fires and the client connects again | clear the pending reconnect timer before scheduling a new one, so that `disconnect()` is final (proved of the correction in SseMachine.ClearedDisconnectIsFinal) | medium, not executed | SseMachine.OrphanedTimerReconnects | SseMachine.AttemptReconnectCleared |
