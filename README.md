# Robot companion web client: relay clients and robot-head helpers

This project models the logic at the core of a browser client for a robot
companion. Three pieces are modelled:

- **`BuddyBotWebSocketClient`**. The BuddyBot relay client connects to the
  relay server over a WebSocket and keeps a status (`connecting`, `connected`,
  `authenticated`, `disconnected` or `error`). It authenticates with a cached
  token, sends queries, and answers server pings. It sends a heartbeat ping
  every 30 s and reconnects after an unclean close, 3 s later, at most five
  times in a row. Eight callback lists are told of what happens.
- **`WebSocketService`**. The generic relay client keeps a map from message
  type to one handler and a set of pending request ids. A send without a
  request id is refused while any request is pending. It reconnects with
  exponential backoff: `min(1000·2^n, 30000)` ms before attempt `n`, at most
  five attempts.
- **Two pure helpers of the robot-head component.** `adjustColor` brightens or
  darkens a `#rrggbb` colour. `getMouthAnimationClass` picks the CSS class of
  the mouth animation.

Each client is modelled twice:

- **On values.** `BuddyBotModel` and `RelayModel` hold a snapshot datatype of
  the client's fields. Each public method and each socket or timer event is a
  function from one snapshot to the next. Each function's contract states the
  step's effect on every field of the next snapshot, the messages sent and
  the callbacks called included. For the timer table it states which handles
  are armed afterwards, the delay of any newly armed one and the next
  handle. An invariant is proved to be kept by every step
  and every run.
- **As a class.** `BuddyBotClient.BuddyBotWebSocketClient` and
  `RelayClient.WebSocketService` have the source's fields and update them in
  place. Each method ensures that the new `View()` of the fields is the model
  function applied to the old one, and the public methods keep `Valid()`.
  The callback `forEach` is a loop with its invariant.

The browser is modelled in `Host`, in these terms:

- **Sockets.** Each socket ever created is a `ReadyState` in a sequence,
  indexed by creation order. The client's `ws`/`socket` field is an index into
  it, and socket events name the socket they come from. This matters because
  the code never detaches the handlers of a replaced socket.
- **Timers.** The table holds the armed intervals and timeouts under handles
  drawn from one counter. `clearInterval` and `clearTimeout` clear either kind.
- **The URL.** Whether `new WebSocket(url)` throws is a constant
  `urlAccepted` of each client.
- **Effects.** What is put on the wire and which callbacks or handlers run
  are logged as sequences. Callbacks and handlers are identified by numbers.

`adjustColor` is modelled with the JavaScript semantics of every library call
it makes, on strings of Unicode code points (see "Left out" for characters
outside the Basic Multilingual Plane). This makes it total on every string:

- `substring` clamps its indices and swaps them when out of order.
- `parseInt(s, 16)` skips blanks and reads a sign and a `0x` prefix. It yields
  NaN when no digit follows.
- `Math.min`/`Math.max` propagate NaN.
- `toString(16)` writes lower case.
- `padStart(2, '0')` pads to two characters.

### Behaviour of the code a caller may not expect

- **BuddyBot, failed `auth_result`.** `authenticated` is cleared and the
  status is left unchanged (`BuddyBotModel.HandleServerMessage`).
- **BuddyBot, `connect()` when the WebSocket constructor throws.** The status
  goes to `error` and a reconnect is scheduled without consulting the attempt
  budget. Each reconnect timeout then counts one more attempt, so with a URL
  the browser refuses, retries never stop
  (`BuddyBotModel.RefusedUrlAttempts`). The five-attempt bound holds only
  when the URL is accepted (`BuddyBotModel.ReachableBounds`).
- **BuddyBot, `connect()` in status `authenticated`.** It opens a second
  socket. Only `connected` short-circuits. It never clears `authenticated`,
  so once the new socket opens the status is `connected` while
  `authenticated` is still set, and `sendQuery` sends a query before any
  `auth_result` has arrived (`BuddyBotModel.ReconnectKeepsAuthenticated`).
- **BuddyBot, the open event of a socket that is no longer current.** Its
  handler still runs in full. It sends the cached token in an `auth` message
  whenever the current socket is open. So after two `connect()` calls made
  while connecting, when the newer socket opens first and the older one
  after it, `auth` is sent twice
  (`BuddyBotModel.StaleOpenAuthenticatesAgain`).
- **BuddyBot, `disconnect()` while the socket is connecting.** Only an open
  socket is closed, and no socket's handlers are ever detached. The dropped
  socket, still connecting, keeps its handlers. When it later closes
  uncleanly, a reconnect is scheduled. When it opens instead, the status is
  `connected` with no current socket, and a heartbeat is armed
  (`BuddyBotModel.DisconnectWhileConnecting`).
- **Generic relay, `connect()` while connecting.** It opens another socket and
  does not reuse the attempt underway
  (`RelayModel.ConnectWhileConnectingOpensAnother`).
- **Generic relay, `disconnect()`.** It does not stop reconnection. The
  dropped socket's close event still runs `attemptReconnect()`, which
  schedules a new reconnect while the budget remains
  (`RelayModel.DisconnectThenCloseReconnects`). With no socket present,
  `disconnect()` does nothing, not even clear a pending reconnect.
- **Generic relay, the in-flight guard.** It refuses only sends without a
  request id. A second correlated request is sent, and its id joins the
  pending set.
- **Generic relay, the send throws.** A send can reach `socket.send` on a
  socket that is still connecting. It then fails, and a request id already
  added stays pending. This happens when status `connected` was set by the
  open event of an older socket.

## Model

| member | source | states |
|---|---|---|
| Host.HandleSet | src/services/buddyBotWebSocketService.ts:250 | an optional timer handle as a set: empty exactly when the handle is undefined |
| Host.CloseRequested | src/services/websocketService.ts:102 | `close()` moves a connecting or open socket to closing and leaves a closing or closed one alone |
| Host.SetInterval | src/services/buddyBotWebSocketService.ts:238-243 | `setInterval` arms a new interval under a fresh handle with the given delay, changes no other timer, and keeps the timer table well formed |
| Host.SetTimeout | src/services/buddyBotWebSocketService.ts:266-272 | `setTimeout` arms a new timeout under a fresh handle with the given delay, changes no other timer, and keeps the table well formed |
| Host.ClearTimer | src/services/buddyBotWebSocketService.ts:251 | `clearInterval`/`clearTimeout` disarm that one handle, of either kind, and nothing else |
| Host.TimeoutFired | src/services/websocketService.ts:92-96 | a timeout that has fired is no longer armed |
| BuddyBotModel.Initial | src/services/buddyBotWebSocketService.ts:33-67 | a new client is `disconnected`, not authenticated, with no socket ever created, no current socket, token, timer, heartbeat or reconnect handle, attempt, callback, message sent or call made |
| BuddyBotModel.Fanout | src/services/buddyBotWebSocketService.ts:176 | `forEach` calls every callback of the list exactly once with the same argument, in registration order |
| BuddyBotModel.Notify | src/services/buddyBotWebSocketService.ts:176 | a `forEach` over one callback list adds one call per registered callback after the earlier calls and changes nothing else |
| BuddyBotModel.NotifyInOrder | src/services/buddyBotWebSocketService.ts:176 | the earlier calls are kept and the new ones are, one by one, the registered callbacks in registration order, each given the same argument |
| BuddyBotModel.Subscribe | src/services/buddyBotWebSocketService.ts:317-347 | each `on*` method appends the callback to its own list; the other seven lists and the rest of the state are unchanged |
| BuddyBotModel.UpdateStatus | src/services/buddyBotWebSocketService.ts:173-178 | the status becomes `s`; the status listeners are told, in order, only when it differs; the same status is a no-op |
| BuddyBotModel.IsConnected | src/services/buddyBotWebSocketService.ts:298-300 | connected implies a current socket that exists and is open; no current socket means not connected |
| BuddyBotModel.SendMessage | src/services/buddyBotWebSocketService.ts:217-230 | the message goes on the wire, and true is returned, exactly when the current socket is open; otherwise nothing changes |
| BuddyBotModel.StopHeartbeat | src/services/buddyBotWebSocketService.ts:249-255 | the heartbeat handle is disarmed and forgotten; nothing else changes, the next handle included |
| BuddyBotModel.StartHeartbeat | src/services/buddyBotWebSocketService.ts:235-244 | the old heartbeat is disarmed and a single new 30 s interval armed under a fresh handle; no other timer and no other field changes |
| BuddyBotModel.ScheduleReconnect | src/services/buddyBotWebSocketService.ts:260-273 | the pending reconnect is replaced by one new 3 s timeout under a fresh handle, so at most one is pending; no other timer and no other field changes |
| BuddyBotModel.Connect | src/services/buddyBotWebSocketService.ts:72-167 | with a socket and status `connected` nothing changes and the promise resolves; otherwise, `authenticated` included, status `connecting` (status callbacks told on a change) and a new socket that becomes the current one; when the constructor throws, status `error` with the status callbacks told and the pending reconnect replaced by one 3 s timeout under the next handle; callbacks, token, `authenticated` and messages sent are never changed |
| BuddyBotModel.Authenticate | src/services/buddyBotWebSocketService.ts:183-196 | the token is always cached; one `auth` with it is sent exactly when connected |
| BuddyBotModel.SendQuery | src/services/buddyBotWebSocketService.ts:201-212 | a `query` is sent only when authenticated and connected; otherwise nothing changes |
| BuddyBotModel.Disconnect | src/services/buddyBotWebSocketService.ts:278-293 | from any state both timers are disarmed and forgotten, an open current socket starts closing and no other socket changes, the socket is dropped, `authenticated` is cleared, the status is `disconnected` with the status callbacks told on a change; nothing else changes |
| BuddyBotModel.CancelReconnect | src/services/buddyBotWebSocketService.ts:281-284 | the pending reconnect timeout, and no other timer, is disarmed and forgotten; nothing else changes |
| BuddyBotModel.CloseIfConnected | src/services/buddyBotWebSocketService.ts:286-288 | an open current socket starts closing; in any other case nothing changes; only the socket states can change |
| BuddyBotModel.SocketOpened | src/services/buddyBotWebSocketService.ts:85-98 | attempts reset to 0, status `connected`, the heartbeat restarted as the only new interval, of 30 s, under the next handle, the status callbacks (on a change) and then the open callbacks told; when a non-empty token is cached, exactly one `auth` with it is sent if the socket is the current one, and otherwise if the current socket is open; the pending reconnect, `authenticated` and callbacks unchanged |
| BuddyBotModel.MarkOpened | src/services/buddyBotWebSocketService.ts:87-88 | the socket is open, the attempts are reset, the status is `connected` with the status callbacks told on a change; nothing else changes |
| BuddyBotModel.SocketClosed | src/services/buddyBotWebSocketService.ts:100-111 | the heartbeat stops, `authenticated` is cleared, status `disconnected`, the status callbacks (on a change) and then the close callbacks told with `wasClean`; a reconnect is scheduled exactly when the close was unclean and fewer than five attempts were made, replacing any pending one by a single 3 s timeout under the next handle; attempts, messages, token and callbacks unchanged |
| BuddyBotModel.MarkClosed | src/services/buddyBotWebSocketService.ts:101-105 | the socket is closed, the heartbeat disarmed and forgotten, `authenticated` cleared, status `disconnected`, the status callbacks (on a change) and the close callbacks told; nothing else changes |
| BuddyBotModel.SocketErrored | src/services/buddyBotWebSocketService.ts:113-118 | status `error`, the status callbacks (on a change) and then the error callbacks told, nothing else changed |
| BuddyBotModel.HandleServerMessage | src/services/buddyBotWebSocketService.ts:126-153 | a successful `auth_result` sets `authenticated` and status `authenticated` and tells the status (on a change) and auth-success callbacks; a failed one clears `authenticated`, passes the server's error unchanged to every failure callback and leaves the status; a `response` passes its text, possibly undefined, to every response callback; a `ping` sends exactly one `pong` when connected; `pong`, `error` and other types change nothing; sockets and timers never change |
| BuddyBotModel.SocketMessage | src/services/buddyBotWebSocketService.ts:120-160 | data that does not parse changes nothing; a parsed message is handled, then passed to every message callback |
| BuddyBotModel.TimerFired | src/services/buddyBotWebSocketService.ts:238-272 | the heartbeat sends one `ping` when connected; the reconnect timeout counts exactly one more attempt and calls `connect()`; a disarmed handle changes nothing |
| BuddyBotModel.InitialInv | src/services/buddyBotWebSocketService.ts:33-67 | a new client satisfies the invariant |
| BuddyBotModel.ConnectPreservesInv | src/services/buddyBotWebSocketService.ts:72-167 | `connect()` keeps the invariant |
| BuddyBotModel.DisconnectPreservesInv | src/services/buddyBotWebSocketService.ts:278-293 | `disconnect()` keeps the invariant |
| BuddyBotModel.OpenedPreservesInv | src/services/buddyBotWebSocketService.ts:85-98 | the open handler keeps the invariant |
| BuddyBotModel.ClosedPreservesInv | src/services/buddyBotWebSocketService.ts:100-111 | the close handler keeps the invariant, the attempt budget included |
| BuddyBotModel.TimerPreservesInv | src/services/buddyBotWebSocketService.ts:238-272 | a timer firing keeps the invariant |
| BuddyBotModel.StepPreservesInv | src/services/buddyBotWebSocketService.ts:72-347 | every method call and every socket or timer event keeps the invariant |
| BuddyBotModel.RunPreservesInv | src/services/buddyBotWebSocketService.ts:72-347 | every sequence of calls and events keeps the invariant |
| BuddyBotModel.TimersBounded | src/services/buddyBotWebSocketService.ts:235-273 | under the invariant there is at most one heartbeat interval and at most one pending reconnect |
| BuddyBotModel.ReachableBounds | src/services/buddyBotWebSocketService.ts:108 | from a new client, after any inputs: at most one heartbeat, at most one pending reconnect, and, when the URL is accepted, at most five attempts |
| BuddyBotModel.DisconnectSilencesTimers | src/services/buddyBotWebSocketService.ts:278-285 | right after `disconnect()` no timer is armed, so a timer event at that point changes nothing |
| BuddyBotModel.DisconnectWhileConnecting | src/services/buddyBotWebSocketService.ts:85-111 | `disconnect()` leaves a connecting socket connecting; its later unclean close schedules a reconnect, and its open instead sets status `connected` with no current socket and arms a heartbeat |
| BuddyBotModel.ReconnectKeepsAuthenticated | src/services/buddyBotWebSocketService.ts:72-212 | `connect()` from `authenticated` and the new socket's open give status `connected` with `authenticated` still set, and `sendQuery` then sends the query |
| BuddyBotModel.StaleOpenAuthenticatesAgain | src/services/buddyBotWebSocketService.ts:85-98 | with two sockets connecting, the current one opening first and the older one after it send the cached token twice, the second time on the current socket |
| BuddyBotModel.RefusedUrlRetries | src/services/buddyBotWebSocketService.ts:161-167 | the induction behind it: `n` reconnect timeouts of a client whose URL is refused, the first under handle `h` and each under the next, add `n` attempts and leave status `error` |
| BuddyBotModel.RefusedUrlRetriesForever | src/services/buddyBotWebSocketService.ts:161-167 | with a refused URL, each reconnect timeout fails, schedules the next and counts one attempt: `n` firings add `n` attempts and leave status `error` |
| BuddyBotModel.RefusedUrlAttempts | src/services/buddyBotWebSocketService.ts:161-167 | with a refused URL, `connect()` and `n` timeouts leave `n` attempts counted, for every `n` |
| BuddyBotClient.BuddyBotWebSocketClient.constructor | src/services/buddyBotWebSocketService.ts:33-67 | the fields start as the model's initial client and satisfy the invariant |
| BuddyBotClient.BuddyBotWebSocketClient.Notify | src/services/buddyBotWebSocketService.ts:176 | the `forEach` loop appends one call per registered callback, in order, and changes nothing else |
| BuddyBotClient.BuddyBotWebSocketClient.UpdateStatus | src/services/buddyBotWebSocketService.ts:173-178 | the fields end as `BuddyBotModel.UpdateStatus` of the old ones |
| BuddyBotClient.BuddyBotWebSocketClient.SendMessage | src/services/buddyBotWebSocketService.ts:217-230 | fields and result as `BuddyBotModel.SendMessage` |
| BuddyBotClient.BuddyBotWebSocketClient.StopHeartbeat | src/services/buddyBotWebSocketService.ts:249-255 | fields as `BuddyBotModel.StopHeartbeat` |
| BuddyBotClient.BuddyBotWebSocketClient.StartHeartbeat | src/services/buddyBotWebSocketService.ts:235-244 | fields as `BuddyBotModel.StartHeartbeat` |
| BuddyBotClient.BuddyBotWebSocketClient.ScheduleReconnect | src/services/buddyBotWebSocketService.ts:260-273 | fields as `BuddyBotModel.ScheduleReconnect` |
| BuddyBotClient.BuddyBotWebSocketClient.Connect | src/services/buddyBotWebSocketService.ts:72-167 | fields and promise outcome as `BuddyBotModel.Connect`; the invariant is kept |
| BuddyBotClient.BuddyBotWebSocketClient.Authenticate | src/services/buddyBotWebSocketService.ts:183-196 | fields as `BuddyBotModel.Authenticate`; the invariant is kept |
| BuddyBotClient.BuddyBotWebSocketClient.SendQuery | src/services/buddyBotWebSocketService.ts:201-212 | fields as `BuddyBotModel.SendQuery`; the invariant is kept |
| BuddyBotClient.BuddyBotWebSocketClient.Disconnect | src/services/buddyBotWebSocketService.ts:278-293 | fields as `BuddyBotModel.Disconnect`; the invariant is kept |
| BuddyBotClient.BuddyBotWebSocketClient.CancelReconnect | src/services/buddyBotWebSocketService.ts:281-284 | fields as `BuddyBotModel.CancelReconnect`: the reconnect timeout cleared and forgotten |
| BuddyBotClient.BuddyBotWebSocketClient.CloseIfConnected | src/services/buddyBotWebSocketService.ts:286-288 | fields as `BuddyBotModel.CloseIfConnected`: an open current socket starts closing |
| BuddyBotClient.BuddyBotWebSocketClient.IsConnected | src/services/buddyBotWebSocketService.ts:298-300 | true exactly when there is a current socket and it is open |
| BuddyBotClient.BuddyBotWebSocketClient.IsAuthenticated | src/services/buddyBotWebSocketService.ts:305-307 | returns the `authenticated` field |
| BuddyBotClient.BuddyBotWebSocketClient.GetStatus | src/services/buddyBotWebSocketService.ts:312-314 | returns the status field |
| BuddyBotClient.BuddyBotWebSocketClient.OnOpen | src/services/buddyBotWebSocketService.ts:317-319 | fields as `BuddyBotModel.Subscribe` for the open list |
| BuddyBotClient.BuddyBotWebSocketClient.OnClose | src/services/buddyBotWebSocketService.ts:321-323 | fields as `BuddyBotModel.Subscribe` for the close list |
| BuddyBotClient.BuddyBotWebSocketClient.OnError | src/services/buddyBotWebSocketService.ts:325-327 | fields as `BuddyBotModel.Subscribe` for the error list |
| BuddyBotClient.BuddyBotWebSocketClient.OnMessage | src/services/buddyBotWebSocketService.ts:329-331 | fields as `BuddyBotModel.Subscribe` for the message list |
| BuddyBotClient.BuddyBotWebSocketClient.OnAuthSuccess | src/services/buddyBotWebSocketService.ts:333-335 | fields as `BuddyBotModel.Subscribe` for the auth-success list |
| BuddyBotClient.BuddyBotWebSocketClient.OnAuthFailure | src/services/buddyBotWebSocketService.ts:337-339 | fields as `BuddyBotModel.Subscribe` for the auth-failure list |
| BuddyBotClient.BuddyBotWebSocketClient.OnResponse | src/services/buddyBotWebSocketService.ts:341-343 | fields as `BuddyBotModel.Subscribe` for the response list |
| BuddyBotClient.BuddyBotWebSocketClient.OnStatusChange | src/services/buddyBotWebSocketService.ts:345-347 | fields as `BuddyBotModel.Subscribe` for the status list |
| BuddyBotClient.BuddyBotWebSocketClient.HandleOpen | src/services/buddyBotWebSocketService.ts:85-98 | fields as `BuddyBotModel.SocketOpened`; the invariant is kept |
| BuddyBotClient.BuddyBotWebSocketClient.MarkOpened | src/services/buddyBotWebSocketService.ts:87-88 | the socket is open, the attempts are reset and the status is `connected` (through `updateStatus`), as `BuddyBotModel.MarkOpened` |
| BuddyBotClient.BuddyBotWebSocketClient.HandleClose | src/services/buddyBotWebSocketService.ts:100-111 | fields as `BuddyBotModel.SocketClosed`; the invariant is kept |
| BuddyBotClient.BuddyBotWebSocketClient.MarkClosed | src/services/buddyBotWebSocketService.ts:101-105 | the socket is closed, the heartbeat stopped, `authenticated` cleared, the status `disconnected` and the close listeners told, as `BuddyBotModel.MarkClosed` |
| BuddyBotClient.BuddyBotWebSocketClient.HandleError | src/services/buddyBotWebSocketService.ts:113-118 | fields as `BuddyBotModel.SocketErrored`; the invariant is kept |
| BuddyBotClient.BuddyBotWebSocketClient.HandleServerMessage | src/services/buddyBotWebSocketService.ts:126-153 | fields as `BuddyBotModel.HandleServerMessage` |
| BuddyBotClient.BuddyBotWebSocketClient.HandleMessage | src/services/buddyBotWebSocketService.ts:120-160 | fields as `BuddyBotModel.SocketMessage`; the invariant is kept |
| BuddyBotClient.BuddyBotWebSocketClient.FireTimer | src/services/buddyBotWebSocketService.ts:238-272 | fields as `BuddyBotModel.TimerFired`; the invariant is kept |
| BuddyBotClient.BuddyBotWebSocketClient.Retry | src/services/buddyBotWebSocketService.ts:266-271 | the reconnect timeout's callback: the timeout is spent, one more attempt is counted, then `connect()` runs as `BuddyBotModel.Connect` |
| RelayModel.Initial | src/services/websocketService.ts:10-22 | a new service is `disconnected`, with no socket ever created, no current socket, handler, pending request, attempt, reconnect timer, message sent or handler call |
| RelayModel.Backoff | src/services/websocketService.ts:84 | the delay is `1000·2^n` ms, capped at 30000 |
| RelayModel.BackoffSchedule | src/services/websocketService.ts:84 | attempts 1 to 5 wait 2000, 4000, 8000, 16000 and 30000 ms |
| RelayModel.BackoffInSchedule | src/services/websocketService.ts:81-84 | every attempt within the budget waits one of those five delays |
| RelayModel.BackoffMonotonic | src/services/websocketService.ts:84 | a later attempt never waits less |
| RelayModel.Pow2Monotonic | src/services/websocketService.ts:84 | `Math.pow(2, n)` never decreases as `n` grows |
| RelayModel.CurrentState | src/services/websocketService.ts:143 | the readyState that `socket.send` sees: closed without a current socket, and any other state is that of the current socket |
| RelayModel.AttemptReconnect | src/services/websocketService.ts:80-98 | acts only when fewer than five attempts were made and the status is not `connecting`; then exactly one more attempt, the old timer replaced by one with that attempt's backoff delay under the next handle, which then advances by one |
| RelayModel.Connect | src/services/websocketService.ts:24-77 | with a socket and status `connected` nothing changes; otherwise, `connecting` included, status `connecting` and a new current socket; when the constructor throws, status `error` and `attemptReconnect()` |
| RelayModel.Disconnect | src/services/websocketService.ts:100-111 | with a socket: it is closed and dropped, status `disconnected`, the reconnect timer, and no other, cleared; nothing else changes, pending requests and handlers included; without one nothing changes |
| RelayModel.Register | src/services/websocketService.ts:113-115 | the handler for the type is the new one, any earlier replaced; no other type or field changes |
| RelayModel.Unregister | src/services/websocketService.ts:117-119 | only that type's handler is removed |
| RelayModel.Transmit | src/services/websocketService.ts:143-149 | `send` throws, and false results, on a connecting socket; an open one transmits; a closing or closed one silently drops the data |
| RelayModel.SendMessage | src/services/websocketService.ts:121-150 | refused, changing nothing, without a socket or status `connected`, or without a request id while any request is pending; with a request id the id is pending afterwards even when the send throws; the result is true exactly when neither guard refuses and the socket is not connecting |
| RelayModel.HasPendingRequests | src/services/websocketService.ts:152-154 | `hasPendingRequests()` is true exactly when the pending set is non-empty |
| RelayModel.SocketOpened | src/services/websocketService.ts:36-41 | the socket is open, status `connected`, attempts reset to 0 |
| RelayModel.SocketClosed | src/services/websocketService.ts:60-64 | every close, clean or not, gives status `disconnected` and runs `attemptReconnect()`: while fewer than five attempts were made, one more attempt and one new timer, replacing the old one, with its backoff delay under the next handle, which then advances by one; nothing else changes |
| RelayModel.SocketErrored | src/services/websocketService.ts:66-70 | status `error`; nothing else changes |
| RelayModel.SocketMessage | src/services/websocketService.ts:43-58 | a pending non-empty request id is removed and no other; at most one handler call, to the handler of the message's type; unparseable data changes nothing |
| RelayModel.TimerFired | src/services/websocketService.ts:92-96 | a pending reconnect calls `connect()` without counting another attempt; a cleared timer changes nothing |
| RelayModel.InitialInv | src/services/websocketService.ts:10-22 | a new service satisfies the invariant |
| RelayModel.AttemptReconnectPreservesInv | src/services/websocketService.ts:80-98 | `attemptReconnect()` keeps the invariant, the budget of five attempts included |
| RelayModel.ConnectPreservesInv | src/services/websocketService.ts:24-77 | `connect()` keeps the invariant |
| RelayModel.ClosedPreservesInv | src/services/websocketService.ts:60-64 | the close handler keeps the invariant |
| RelayModel.TimerPreservesInv | src/services/websocketService.ts:92-96 | a reconnect timer firing keeps the invariant |
| RelayModel.StepPreservesInv | src/services/websocketService.ts:24-154 | every method call and every socket or timer event keeps the invariant |
| RelayModel.RunPreservesInv | src/services/websocketService.ts:24-154 | every sequence of calls and events keeps the invariant |
| RelayModel.ReachableBounds | src/services/websocketService.ts:80-97 | from a new service, after any inputs and whether or not the URL is accepted: at most five attempts, at most one pending reconnect, each waiting one of the five backoff delays |
| RelayModel.DisconnectThenCloseReconnects | src/services/websocketService.ts:60-111 | after `disconnect()` of a live socket, that socket's close event schedules a reconnect again while the budget remains |
| RelayModel.ConnectWhileConnectingOpensAnother | src/services/websocketService.ts:24-34 | `connect()` while connecting opens a second socket; the first stays connecting |
| RelayClient.WebSocketService.constructor | src/services/websocketService.ts:10-22 | the fields start as the model's initial service and satisfy the invariant |
| RelayClient.WebSocketService.Connect | src/services/websocketService.ts:24-77 | fields and promise outcome as `RelayModel.Connect`; the invariant is kept |
| RelayClient.WebSocketService.AttemptReconnect | src/services/websocketService.ts:80-98 | fields as `RelayModel.AttemptReconnect` |
| RelayClient.WebSocketService.Disconnect | src/services/websocketService.ts:100-111 | fields as `RelayModel.Disconnect`; the invariant is kept |
| RelayClient.WebSocketService.RegisterMessageHandler | src/services/websocketService.ts:113-115 | the handler map as `RelayModel.Register`; the invariant is kept |
| RelayClient.WebSocketService.UnregisterMessageHandler | src/services/websocketService.ts:117-119 | the handler map as `RelayModel.Unregister`; the invariant is kept |
| RelayClient.WebSocketService.Transmit | src/services/websocketService.ts:143-149 | fields and result as `RelayModel.Transmit` |
| RelayClient.WebSocketService.SendMessage | src/services/websocketService.ts:121-150 | fields (the pending set included) and result as `RelayModel.SendMessage`; the invariant is kept |
| RelayClient.WebSocketService.HasPendingRequests | src/services/websocketService.ts:152-154 | true exactly when the pending set is non-empty |
| RelayClient.WebSocketService.GetStatus | src/services/websocketService.ts:156-158 | returns the status field |
| RelayClient.WebSocketService.HandleOpen | src/services/websocketService.ts:36-41 | fields as `RelayModel.SocketOpened`; the invariant is kept |
| RelayClient.WebSocketService.HandleClose | src/services/websocketService.ts:60-64 | fields as `RelayModel.SocketClosed`; the invariant is kept |
| RelayClient.WebSocketService.HandleError | src/services/websocketService.ts:66-70 | fields as `RelayModel.SocketErrored`; the invariant is kept |
| RelayClient.WebSocketService.HandleMessage | src/services/websocketService.ts:43-58 | the pending set and handler calls as `RelayModel.SocketMessage`; the invariant is kept |
| RelayClient.WebSocketService.FireTimer | src/services/websocketService.ts:92-96 | fields as `RelayModel.TimerFired`; the invariant is kept |
| RobotHead.DigitValue | src/components/RobotHead.tsx:81-83 | a hex digit of either case has a value below 16 |
| RobotHead.HexDigit | src/components/RobotHead.tsx:91 | `toString(16)` writes a value below 16 as one lower-case digit that reads back as that value |
| RobotHead.TrimStart | src/components/RobotHead.tsx:81-83 | `parseInt` skips the leading ECMAScript white space: what remains is a suffix of the text, everything removed is white space, and what remains does not start with it |
| RobotHead.HexPrefix | src/components/RobotHead.tsx:81-83 | `parseInt` reads the longest prefix of hex digits |
| RobotHead.ParseInt16 | src/components/RobotHead.tsx:81-83 | `parseInt(s, 16)` is negative only when the text after the blanks starts with `-` |
| RobotHead.ParseMagnitude | src/components/RobotHead.tsx:81-83 | what `parseInt` reads after the sign is NaN or non-negative, and NaN when nothing is left |
| RobotHead.Substring | src/components/RobotHead.tsx:81-83 | `substring` with indices in range is the slice; it never grows the string |
| RobotHead.HexDigits | src/components/RobotHead.tsx:91 | `toString(16)` of a non-negative integer is a non-empty string of lower-case hex digits whose value is that integer |
| RobotHead.ToString16 | src/components/RobotHead.tsx:91 | `toString(16)` is `NaN` exactly for NaN, lower-case hex digits for a non-negative value, and `-` then hex digits for a negative one |
| RobotHead.PadStart2 | src/components/RobotHead.tsx:91 | `padStart(2, '0')` leaves two or more characters alone and left-pads shorter text with zeros to length 2 |
| RobotHead.Brighten | src/components/RobotHead.tsx:86-88 | `Math.max(0, Math.min(255, x + amount))` is NaN exactly when `x` is, and otherwise lies in [0, 255] |
| RobotHead.Clamp | src/components/RobotHead.tsx:86-88 | clamping to [0, 255] keeps a value in range and sends others to the nearer bound |
| RobotHead.HexValuePair | src/components/RobotHead.tsx:81-83 | one and two hex digits have the positional value |
| RobotHead.ParseHexPair | src/components/RobotHead.tsx:81-83 | `parseInt` of two hex digits, base 16, is their value |
| RobotHead.ParseDigits | src/components/RobotHead.tsx:81-83 | `parseInt` of any non-empty run of hex digits is their value |
| RobotHead.ParseNegativeDigits | src/components/RobotHead.tsx:81-83 | `parseInt` of `-` and a non-empty run of hex digits is minus their value |
| RobotHead.ParseNaN | src/components/RobotHead.tsx:81-83 | `parseInt("NaN", 16)` is NaN |
| RobotHead.ParseHexText | src/components/RobotHead.tsx:81-91 | the digits `toString(16)` writes for `n`, alone or after `-`, parse back to `n` or `-n` |
| RobotHead.ParseToString16 | src/components/RobotHead.tsx:81-91 | round trip: `parseInt(x.toString(16), 16)` is `x` for every integer and for NaN |
| RobotHead.ParseChannel | src/components/RobotHead.tsx:81-83 | on a `#rrggbb` colour each `substring` parses to that channel's value |
| RobotHead.EncodeChannel | src/components/RobotHead.tsx:91 | a channel in [0, 255] is written as exactly two digits, its high and low nibble |
| RobotHead.SegmentOfHexColor | src/components/RobotHead.tsx:81-91 | each channel's text is the two digits of the clamped sum of the input channel and `amount` |
| RobotHead.EncodeColor | src/components/RobotHead.tsx:91 | three channel values are written as a lower-case `#rrggbb` colour whose channels are those values |
| RobotHead.ToLower | src/components/RobotHead.tsx:81-91 | a colour's hex letters in lower case: a lower-case colour with the same channel values |
| RobotHead.AdjustHexColor | src/components/RobotHead.tsx:79-92 | on `#` and six hex digits, `adjustColor` is the colour whose channels are each input channel plus `amount`, clamped to [0, 255] independently |
| RobotHead.AdjustColorChannels | src/components/RobotHead.tsx:79-92 | on a well-formed colour the result is `#` and exactly six lower-case hex digits, channel `i` being `clamp(input_i + amount, 0, 255)` |
| RobotHead.AdjustByZero | src/components/RobotHead.tsx:79-92 | round trip: `adjustColor(c, 0)` is `c` with its hex letters in lower case |
| RobotHead.EncodeDigitPair | src/components/RobotHead.tsx:91 | writing the value of two hex digits gives those digits in lower case |
| RobotHead.EncodeChannelDigits | src/components/RobotHead.tsx:81-91 | the two digits written for a channel of a colour are that channel's own digits, in lower case |
| RobotHead.EncodeChannelValues | src/components/RobotHead.tsx:81-91 | writing out a colour's channel values gives the colour back in lower case |
| RobotHead.Saturation | src/components/RobotHead.tsx:86-88 | any amount of 255 or more gives `#ffffff`; of -255 or less, `#000000` |
| RobotHead.SaturatedChannels | src/components/RobotHead.tsx:86-91 | with an amount of 255 or more every clamped channel is 255 and the colour `#ffffff`; with -255 or less, 0 and `#000000` |
| RobotHead.WhiteAndBlack | src/components/RobotHead.tsx:91 | channels 255, 255, 255 are written `#ffffff` and 0, 0, 0 `#000000` |
| RobotHead.Monotonic | src/components/RobotHead.tsx:86-88 | a larger amount gives every channel a value at least as large |
| RobotHead.Segment | src/components/RobotHead.tsx:81-91 | on any string at all, a channel's text is `NaN` or two lower-case hex digits |
| RobotHead.AdjustColor | src/components/RobotHead.tsx:79-92 | on any string at all, the result is `#` and 6 to 9 more characters |
| RobotHead.ShorthandColour | src/components/RobotHead.tsx:79-92 | a shorthand `#rgb` colour is misread for every amount: red comes from its first two digits, green from the third alone, and blue is always `NaN` (so `#abc` by 10 gives `#b516NaN`) |
| RobotHead.ShorthandRed | src/components/RobotHead.tsx:81-91 | the red text of a shorthand colour is the clamped sum of its first two digits' value and `amount` |
| RobotHead.ShorthandGreen | src/components/RobotHead.tsx:82-91 | the green text of a shorthand colour is the clamped sum of its third digit's value alone and `amount` |
| RobotHead.ShorthandBlue | src/components/RobotHead.tsx:83-91 | the blue text of a shorthand colour is `NaN`, since `substring(5, 7)` of a 4-character string is empty |
| RobotHead.ParsedShorthandRed | src/components/RobotHead.tsx:81 | `parseInt(substring(1, 3), 16)` of a shorthand colour is the value of its first two digits |
| RobotHead.ParsedShorthandGreen | src/components/RobotHead.tsx:82 | `parseInt(substring(3, 5), 16)` of a shorthand colour is the value of its third digit |
| RobotHead.SegmentOfParsed | src/components/RobotHead.tsx:86-91 | a channel that parses to a number is written as that number plus `amount`, clamped |
| RobotHead.ParseHexDigit | src/components/RobotHead.tsx:81-83 | `parseInt` of one hex digit, base 16, is its value |
| RobotHead.MouthAnimationClass | src/components/RobotHead.tsx:95-110 | the class is empty exactly when not speaking, whatever the name; when speaking it starts with `animate-robot-speak` and is exactly that default class when the name is not one of the four known ones |
| RobotHead.NamedAnimations | src/components/RobotHead.tsx:98-109 | `robotic`, `pulse`, `wave` and `glitch` map to their four distinct `animate-robot-speak-*` classes (`robotic` to the mechanical one); `standard` maps to the default |

## Left out

- The WebSocket transport itself is not modelled. A socket is its readyState only. Its events are inputs chosen by the caller: open only for a connecting socket, close and error for one not yet closed, messages for an open or closing one. A close started by the server is seen only as its close event.
- Timers carry delays but no clock. Which armed timer fires next is an input, and an interval's repeated firing is that input repeated.
- The `Promise` returned by `connect()` is modelled only as the `ConnectOutcome` value. The later resolve or reject by the open or error handler is not tracked.
- JSON is not modelled. `JSON.parse` is modelled as a message datatype plus a `Malformed` case. `JSON.stringify` of the outbound messages is taken never to throw. The relay's untyped `data` is carried as its JSON text.
- BuddyBotModel.SocketMessage: a message with no `payload` at all makes the source throw inside its `try` when it reads a field of it: always for `auth_result`, and for `response` only when a response callback is registered. Those cases are folded into `Malformed`, as the throw comes before any change of state. A payload that lacks a field is not an error: the field is read as `undefined` (`None` in the model; a missing `success` is a failure).
- BuddyBotModel.SendMessage: the `catch` branch of `send` is not modelled. It is unreachable here, because the socket is open when `send` is called.
- Callbacks and handlers are logged, not run. What they do, including re-entrant calls into the client and exceptions they throw, is not modelled.
- `console` logging is left out. So are the BuddyBot constructor's seven logging listeners, the URL taken from the environment, and the two module-level singleton instances. Each class is modelled as its own instance.
- RobotHead.AdjustColor: strings are sequences of Unicode code points, while JavaScript indexes UTF-16 code units, so `substring` agrees with the model only on text without characters outside the Basic Multilingual Plane.
- RobotHead.AdjustColor: `amount` is an integer. Fractional amounts, which the component never passes, would make JavaScript write fractional hex digits and are not modelled.
- The rest of the robot-head component is rendering and is not modelled, including `getTextureStyle`'s gradient strings. So are the other components, pages, hooks and the authentication, speech and AI services, which are UI, browser-API or HTTP wrappers.
