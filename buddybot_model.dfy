/** The BuddyBot relay client as a state machine on values: every public
    method and every socket or timer event of `BuddyBotWebSocketClient` is
    a function from the client's state (a `Client` snapshot of its fields)
    to the next state. The class in BuddyBotClient runs these steps in
    place. */
module BuddyBotModel {
  import opened Host

  const MaxReconnectAttempts: nat := 5
  const ReconnectTimeoutMs: nat := 3000
  const HeartbeatTimeoutMs: nat := 30000

  datatype Status = Connecting | Connected | Authenticated | Disconnected | Error

  /** Messages the client puts on the wire. */
  datatype ClientMessage = Auth(token: string) | Query(text: string) | Ping | Pong

  /** Messages the server sends, once parsed; `Unlisted` is any other `type`,
      which no case of the handler's switch matches. `success` is the
      truthiness of `payload.success`; `None` stands for a field of the
      payload that is absent, which JavaScript reads as `undefined`. */
  datatype ServerMessage =
    | AuthResult(success: bool, error: Option<string>)
    | Response(text: Option<string>)
    | ServerError(message: string)
    | ServerPing
    | ServerPong
    | Unlisted(kind: string)

  /** The data of a message event: a server message, or text that does not
      parse as one. */
  datatype Inbound = Parsed(message: ServerMessage) | Malformed

  /** A registered callback, told apart from the others by an identifier. */
  type ListenerId = nat

  /** What a callback is called with. */
  datatype Notice =
    | Opened
    | Closed(wasClean: bool)
    | Failed
    | Received(message: ServerMessage)
    | AuthSucceeded
    | AuthFailed(error: Option<string>)
    | Answered(text: Option<string>)
    | StatusChanged(status: Status)

  /** One call of one callback. */
  datatype Delivery = Delivery(listener: ListenerId, notice: Notice)

  /** The eight callback lists, in registration order. */
  datatype Listeners = Listeners(
    open: seq<ListenerId>, close: seq<ListenerId>, error: seq<ListenerId>,
    message: seq<ListenerId>, authSuccess: seq<ListenerId>, authFailure: seq<ListenerId>,
    response: seq<ListenerId>, statusChange: seq<ListenerId>)

  /** Which list an `on*` method appends to. */
  datatype Topic =
    | OpenEvents | CloseEvents | ErrorEvents | MessageEvents
    | AuthSuccessEvents | AuthFailureEvents | ResponseEvents | StatusChangeEvents

  /** How the promise that `connect()` returns turns out: resolved at once,
      settled later by the first open (resolve) or error (reject) event of
      the new socket, or rejected at once because the socket could not be
      created. */
  datatype ConnectOutcome = Resolved | Pending(socket: nat) | Rejected

  /** The client's fields, plus what it has done so far: the messages sent
      and the callbacks called. `sockets` holds the readyState of every
      socket created so far, by creation order; `ws` indexes the current one.
      `urlAccepted` says whether the WebSocket constructor accepts the URL. */
  datatype Client = Client(
    urlAccepted: bool,
    sockets: seq<ReadyState>,
    ws: Option<nat>,
    token: Option<string>,
    timers: Timers,
    heartbeatInterval: Option<nat>,
    reconnectInterval: Option<nat>,
    reconnectAttempts: nat,
    authenticated: bool,
    status: Status,
    listeners: Listeners,
    sent: seq<ClientMessage>,
    delivered: seq<Delivery>)

  const NoListeners := Listeners([], [], [], [], [], [], [], [])

  /** A freshly constructed client. */
  function Initial(urlAccepted: bool): (c: Client)
    ensures c.status == Disconnected && !c.authenticated && c.ws.None? && c.token.None?
    ensures c.reconnectAttempts == 0 && c.sent == [] && c.delivered == []
    ensures c.sockets == [] && c.timers == NoTimers
    ensures c.heartbeatInterval.None? && c.reconnectInterval.None? && c.listeners == NoListeners
  {
    Client(urlAccepted, [], None, None, NoTimers, None, None, 0, false, Disconnected,
           NoListeners, [], [])
  }

  // ------------------------------------------------------------ callbacks

  function Registered(ls: Listeners, t: Topic): seq<ListenerId> {
    match t
    case OpenEvents => ls.open
    case CloseEvents => ls.close
    case ErrorEvents => ls.error
    case MessageEvents => ls.message
    case AuthSuccessEvents => ls.authSuccess
    case AuthFailureEvents => ls.authFailure
    case ResponseEvents => ls.response
    case StatusChangeEvents => ls.statusChange
  }

  /** `list.forEach(callback => callback(notice))`: every callback of the
      list is called once with the same notice, in registration order. */
  function Fanout(ls: seq<ListenerId>, n: Notice): (r: seq<Delivery>)
    ensures |r| == |ls|
    ensures forall i :: 0 <= i < |ls| ==> r[i] == Delivery(ls[i], n)
  {
    if ls == [] then [] else Fanout(ls[..|ls| - 1], n) + [Delivery(ls[|ls| - 1], n)]
  }

  /** Calls every callback registered for `t` with `n`, after everything
      delivered before; nothing else changes. */
  function Notify(c: Client, t: Topic, n: Notice): (r: Client)
    ensures |r.delivered| == |c.delivered| + |Registered(c.listeners, t)|
    ensures r == c.(delivered := r.delivered)
  {
    c.(delivered := c.delivered + Fanout(Registered(c.listeners, t), n))
  }

  /** Notifying keeps the earlier log and then calls the callbacks for `t`
      one after the other, in registration order. */
  lemma NotifyInOrder(c: Client, t: Topic, n: Notice)
    ensures var r := Notify(c, t, n);
      && r.delivered[..|c.delivered|] == c.delivered
      && forall i :: 0 <= i < |Registered(c.listeners, t)| ==>
           r.delivered[|c.delivered| + i] == Delivery(Registered(c.listeners, t)[i], n)
  {
    var ls := Registered(c.listeners, t);
    var d := Notify(c, t, n).delivered;
    assert d == c.delivered + Fanout(ls, n);
    forall i | 0 <= i < |ls|
      ensures d[|c.delivered| + i] == Delivery(ls[i], n)
    {
      assert d[|c.delivered| + i] == Fanout(ls, n)[i];
    }
  }

  /** `onOpen`, `onClose`, …, `onStatusChange`: appends the callback to its
      list and changes nothing else. */
  function Subscribe(c: Client, t: Topic, cb: ListenerId): (r: Client)
    ensures Registered(r.listeners, t) == Registered(c.listeners, t) + [cb]
    ensures forall u :: u != t ==> Registered(r.listeners, u) == Registered(c.listeners, u)
    ensures r == c.(listeners := r.listeners)
  {
    var ls := c.listeners;
    c.(listeners := match t
      case OpenEvents => ls.(open := ls.open + [cb])
      case CloseEvents => ls.(close := ls.close + [cb])
      case ErrorEvents => ls.(error := ls.error + [cb])
      case MessageEvents => ls.(message := ls.message + [cb])
      case AuthSuccessEvents => ls.(authSuccess := ls.authSuccess + [cb])
      case AuthFailureEvents => ls.(authFailure := ls.authFailure + [cb])
      case ResponseEvents => ls.(response := ls.response + [cb])
      case StatusChangeEvents => ls.(statusChange := ls.statusChange + [cb]))
  }

  // -------------------------------------------------------------- helpers

  /** `r` has the same sockets, timers and attempt count as `c`: only the
      status, the token, `authenticated`, the callbacks and what was sent or
      delivered may differ. */
  predicate SameConnection(c: Client, r: Client) {
    && r.urlAccepted == c.urlAccepted && r.sockets == c.sockets && r.ws == c.ws
    && r.timers == c.timers && r.heartbeatInterval == c.heartbeatInterval
    && r.reconnectInterval == c.reconnectInterval && r.reconnectAttempts == c.reconnectAttempts
  }

  /** `isConnected()`: there is a current socket and it is open; without a
      current socket the client is never connected. */
  predicate IsConnected(c: Client): (b: bool)
    ensures c.ws.None? ==> !b
    ensures b ==> c.ws.value < |c.sockets| && c.sockets[c.ws.value] == OPEN
  {
    c.ws.Some? && c.ws.value < |c.sockets| && c.sockets[c.ws.value] == OPEN
  }

  /** The calls `updateStatus(s)` makes in state `c`: every status listener
      once when the status changes, none otherwise. */
  function StatusNotices(c: Client, s: Status): seq<Delivery> {
    if c.status != s then Fanout(c.listeners.statusChange, StatusChanged(s)) else []
  }

  /** `updateStatus(s)`: only a different status is recorded, and only then
      are the status listeners told, in registration order. */
  function UpdateStatus(c: Client, s: Status): (r: Client)
    ensures r.status == s
    ensures c.status == s ==> r == c
    ensures c.status != s ==>
      r.delivered == c.delivered + Fanout(c.listeners.statusChange, StatusChanged(s))
    ensures r == c.(status := s, delivered := c.delivered + StatusNotices(c, s))
  {
    if c.status == s then c
    else Notify(c.(status := s), StatusChangeEvents, StatusChanged(s))
  }

  /** `sendMessage(m)`: puts `m` on the wire exactly when the current socket
      is open, and reports whether it did. (Sending on an open socket does
      not throw, and stringifying these messages cannot fail, so the
      method's catch branch is never taken.) */
  function SendMessage(c: Client, m: ClientMessage): (r: (Client, bool))
    ensures r.1 == IsConnected(c)
    ensures r.0 == c.(sent := if r.1 then c.sent + [m] else c.sent)
  {
    if IsConnected(c) then (c.(sent := c.sent + [m]), true) else (c, false)
  }

  /** `stopHeartbeat()`: disarms the heartbeat interval, if there is one. */
  function StopHeartbeat(c: Client): (r: Client)
    ensures r.heartbeatInterval.None?
    ensures r.timers.intervals.Keys == c.timers.intervals.Keys - HandleSet(c.heartbeatInterval)
    ensures r.timers.timeouts.Keys == c.timers.timeouts.Keys - HandleSet(c.heartbeatInterval)
    ensures r.timers.next == c.timers.next
    ensures r == c.(timers := r.timers, heartbeatInterval := None)
  {
    if c.heartbeatInterval.Some? then
      c.(timers := ClearTimer(c.timers, c.heartbeatInterval.value), heartbeatInterval := None)
    else c
  }

  /** `startHeartbeat()`: replaces the heartbeat interval by a new one of 30 s. */
  function StartHeartbeat(c: Client): (r: Client)
    ensures r.heartbeatInterval == Some(c.timers.next)
    ensures r.timers.intervals.Keys == c.timers.intervals.Keys - HandleSet(c.heartbeatInterval) + {c.timers.next}
    ensures r.timers.intervals[c.timers.next] == HeartbeatTimeoutMs
    ensures r.timers.timeouts.Keys == c.timers.timeouts.Keys - HandleSet(c.heartbeatInterval)
    ensures r.timers.next == c.timers.next + 1
    ensures r == c.(timers := r.timers, heartbeatInterval := r.heartbeatInterval)
  {
    var c1 := StopHeartbeat(c);
    c1.(timers := SetInterval(c1.timers, HeartbeatTimeoutMs), heartbeatInterval := Some(c1.timers.next))
  }

  /** `scheduleReconnect()`: replaces the pending reconnect timeout by a new
      one of 3 s. */
  function ScheduleReconnect(c: Client): (r: Client)
    ensures r.reconnectInterval == Some(c.timers.next)
    ensures r.timers.timeouts.Keys == c.timers.timeouts.Keys - HandleSet(c.reconnectInterval) + {c.timers.next}
    ensures r.timers.timeouts[c.timers.next] == ReconnectTimeoutMs
    ensures r.timers.intervals.Keys == c.timers.intervals.Keys - HandleSet(c.reconnectInterval)
    ensures r.timers.next == c.timers.next + 1
    ensures r == c.(timers := r.timers, reconnectInterval := r.reconnectInterval)
  {
    var t := if c.reconnectInterval.Some? then ClearTimer(c.timers, c.reconnectInterval.value) else c.timers;
    c.(timers := SetTimeout(t, ReconnectTimeoutMs), reconnectInterval := Some(t.next))
  }

  // -------------------------------------------------------- public methods

  /** `connect()`. Short-circuits only in status `connected` with a socket
      present; in every other status, `authenticated` included, it moves to
      `connecting` and opens a new socket. When the WebSocket constructor
      throws, the status goes to `error` and a reconnect is scheduled
      without consulting the attempt budget. */
  function Connect(c: Client): (r: (Client, ConnectOutcome))
    ensures c.ws.Some? && c.status == Connected ==> r == (c, Resolved)
    ensures !(c.ws.Some? && c.status == Connected) && c.urlAccepted ==>
      && r.1 == Pending(|c.sockets|)
      && r.0.sockets == c.sockets + [CONNECTING] && r.0.ws == Some(|c.sockets|)
      && r.0.status == Connecting
      && r.0 == UpdateStatus(c, Connecting).(sockets := r.0.sockets, ws := r.0.ws)
    ensures !(c.ws.Some? && c.status == Connected) && !c.urlAccepted ==>
      && r.1 == Rejected && r.0.status == Error
      && r.0.sockets == c.sockets && r.0.ws == c.ws
      && r.0.reconnectInterval == Some(c.timers.next)
      && r.0.timers.timeouts.Keys == c.timers.timeouts.Keys - HandleSet(c.reconnectInterval) + {c.timers.next}
      && r.0.timers.timeouts[c.timers.next] == ReconnectTimeoutMs
      && r.0.timers.next == c.timers.next + 1
      && r.0.timers.intervals == c.timers.intervals - HandleSet(c.reconnectInterval)
      && r.0.delivered == c.delivered + StatusNotices(c, Connecting)
                          + Fanout(c.listeners.statusChange, StatusChanged(Error))
    ensures r.0.listeners == c.listeners && r.0.urlAccepted == c.urlAccepted
    ensures r.0.reconnectAttempts == c.reconnectAttempts && r.0.heartbeatInterval == c.heartbeatInterval
    ensures r.0.sent == c.sent && r.0.token == c.token && r.0.authenticated == c.authenticated
  {
    if c.ws.Some? && c.status == Connected then (c, Resolved)
    else
      var c1 := UpdateStatus(c, Connecting);
      if c.urlAccepted then
        var k := |c1.sockets|;
        (c1.(sockets := c1.sockets + [CONNECTING], ws := Some(k)), Pending(k))
      else
        (ScheduleReconnect(UpdateStatus(c1, Error)), Rejected)
  }

  /** `authenticate(t)`: always caches `t`; sends `auth` with it only when
      connected. */
  function Authenticate(c: Client, t: string): (r: Client)
    ensures r.token == Some(t)
    ensures r.sent == c.sent + (if IsConnected(c) then [Auth(t)] else [])
    ensures r == c.(token := Some(t), sent := r.sent)
  {
    var c1 := c.(token := Some(t));
    SendMessage(c1, Auth(t)).0
  }

  /** `sendQuery(text)`: sends a `query` only when authenticated, and then
      only when connected; nothing else changes. */
  function SendQuery(c: Client, text: string): (r: Client)
    ensures r.sent == c.sent + (if c.authenticated && IsConnected(c) then [Query(text)] else [])
    ensures r == c.(sent := r.sent)
  {
    if !c.authenticated then c else SendMessage(c, Query(text)).0
  }

  /** `disconnect()`: from any state, disarms both timers, starts closing the
      socket if it is open, drops it, clears `authenticated` and ends in
      `disconnected`. */
  function Disconnect(c: Client): (r: Client)
    ensures r.ws.None? && !r.authenticated && r.status == Disconnected
    ensures r.heartbeatInterval.None? && r.reconnectInterval.None?
    ensures r.timers.intervals.Keys == c.timers.intervals.Keys - HandleSet(c.heartbeatInterval) - HandleSet(c.reconnectInterval)
    ensures r.timers.timeouts.Keys == c.timers.timeouts.Keys - HandleSet(c.heartbeatInterval) - HandleSet(c.reconnectInterval)
    ensures |r.sockets| == |c.sockets|
    ensures forall k :: 0 <= k < |c.sockets| ==>
      r.sockets[k] == if IsConnected(c) && c.ws == Some(k) then CLOSING else c.sockets[k]
    ensures r.timers.next == c.timers.next
    ensures r == c.(sockets := r.sockets, ws := None, timers := r.timers, heartbeatInterval := None,
                    reconnectInterval := None, authenticated := false, status := Disconnected,
                    delivered := c.delivered + StatusNotices(c, Disconnected))
  {
    var c3 := CloseIfConnected(CancelReconnect(StopHeartbeat(c)));
    UpdateStatus(c3.(ws := None, authenticated := false), Disconnected)
  }

  /** The reconnect timeout is cleared and forgotten. */
  function CancelReconnect(c: Client): (r: Client)
    ensures r.reconnectInterval.None?
    ensures r.timers.intervals.Keys == c.timers.intervals.Keys - HandleSet(c.reconnectInterval)
    ensures r.timers.timeouts.Keys == c.timers.timeouts.Keys - HandleSet(c.reconnectInterval)
    ensures r.timers.next == c.timers.next
    ensures r == c.(timers := r.timers, reconnectInterval := None)
  {
    if c.reconnectInterval.Some? then
      c.(timers := ClearTimer(c.timers, c.reconnectInterval.value), reconnectInterval := None)
    else c
  }

  /** `if (this.isConnected()) this.ws?.close()`: an open current socket
      starts closing; nothing else changes. */
  function CloseIfConnected(c: Client): (r: Client)
    ensures IsConnected(c) ==> r.sockets == c.sockets[c.ws.value := CLOSING]
    ensures !IsConnected(c) ==> r == c
    ensures r == c.(sockets := r.sockets)
  {
    if IsConnected(c) then c.(sockets := c.sockets[c.ws.value := CLOSING]) else c
  }

  // ---------------------------------------------------------- socket events

  /** `ws.onopen` of socket `k`: the attempt counter is reset, the status is
      `connected`, the heartbeat is restarted, the open listeners are told,
      and a cached non-empty token is sent in one `auth` message. */
  function SocketOpened(c: Client, k: nat): (r: Client)
    requires k < |c.sockets| && c.sockets[k] == CONNECTING
    ensures r.reconnectAttempts == 0 && r.status == Connected
    ensures r.sockets == c.sockets[k := OPEN]
    ensures r.heartbeatInterval == Some(c.timers.next)
    ensures r.timers.intervals.Keys == c.timers.intervals.Keys - HandleSet(c.heartbeatInterval) + {c.timers.next}
    ensures r.timers.timeouts.Keys == c.timers.timeouts.Keys - HandleSet(c.heartbeatInterval)
    ensures r.timers.intervals[c.timers.next] == HeartbeatTimeoutMs
    ensures c.ws == Some(k) ==>
      r.sent == c.sent + (if c.token.Some? && c.token.value != "" then [Auth(c.token.value)] else [])
    ensures c.ws != Some(k) ==>
      r.sent == c.sent + (if c.token.Some? && c.token.value != "" && IsConnected(c) then [Auth(c.token.value)] else [])
    ensures r.authenticated == c.authenticated && r.token == c.token && r.ws == c.ws
    ensures r.delivered == c.delivered + StatusNotices(c, Connected) + Fanout(c.listeners.open, Opened)
    ensures r.listeners == c.listeners && r.urlAccepted == c.urlAccepted
    ensures r.reconnectInterval == c.reconnectInterval && r.timers.next == c.timers.next + 1
  {
    var c3 := Notify(StartHeartbeat(MarkOpened(c, k)), OpenEvents, Opened);
    if c3.token.Some? && c3.token.value != "" then Authenticate(c3, c3.token.value) else c3
  }

  /** `ws.onopen` up to the heartbeat: the socket is open, the attempts are
      reset and the status is `connected`. */
  function MarkOpened(c: Client, k: nat): (r: Client)
    requires k < |c.sockets|
    ensures r == c.(sockets := c.sockets[k := OPEN], reconnectAttempts := 0, status := Connected,
                    delivered := c.delivered + StatusNotices(c, Connected))
  {
    UpdateStatus(c.(sockets := c.sockets[k := OPEN], reconnectAttempts := 0), Connected)
  }

  /** `ws.onclose` of socket `k`: the heartbeat stops, `authenticated` is
      cleared, the status is `disconnected`, the close listeners are told,
      and a reconnect is scheduled exactly when the close was unclean and
      fewer than five attempts have been made. */
  function SocketClosed(c: Client, k: nat, wasClean: bool): (r: Client)
    requires k < |c.sockets| && c.sockets[k] != CLOSED
    ensures r.sockets == c.sockets[k := CLOSED]
    ensures r.heartbeatInterval.None? && !r.authenticated && r.status == Disconnected
    ensures var scheduled := !wasClean && c.reconnectAttempts < MaxReconnectAttempts;
      && (scheduled ==> r.reconnectInterval == Some(c.timers.next)
                        && r.timers.timeouts.Keys == c.timers.timeouts.Keys - HandleSet(c.heartbeatInterval)
                                                     - HandleSet(c.reconnectInterval) + {c.timers.next}
                        && r.timers.timeouts[c.timers.next] == ReconnectTimeoutMs
                        && r.timers.intervals.Keys == c.timers.intervals.Keys - HandleSet(c.heartbeatInterval)
                                                      - HandleSet(c.reconnectInterval)
                        && r.timers.next == c.timers.next + 1)
      && (!scheduled ==> r.reconnectInterval == c.reconnectInterval
                         && r.timers.timeouts.Keys == c.timers.timeouts.Keys - HandleSet(c.heartbeatInterval)
                         && r.timers.intervals.Keys == c.timers.intervals.Keys - HandleSet(c.heartbeatInterval)
                         && r.timers.next == c.timers.next)
    ensures r.sent == c.sent && r.reconnectAttempts == c.reconnectAttempts && r.ws == c.ws
    ensures r.delivered == c.delivered + StatusNotices(c, Disconnected) + Fanout(c.listeners.close, Closed(wasClean))
    ensures r.listeners == c.listeners && r.token == c.token && r.urlAccepted == c.urlAccepted
  {
    var c3 := MarkClosed(c, k, wasClean);
    if !wasClean && c3.reconnectAttempts < MaxReconnectAttempts then ScheduleReconnect(c3) else c3
  }

  /** `ws.onclose` up to the reconnect decision. */
  function MarkClosed(c: Client, k: nat, wasClean: bool): (r: Client)
    requires k < |c.sockets|
    ensures r.timers.intervals.Keys == c.timers.intervals.Keys - HandleSet(c.heartbeatInterval)
    ensures r.timers.timeouts.Keys == c.timers.timeouts.Keys - HandleSet(c.heartbeatInterval)
    ensures r.timers.next == c.timers.next
    ensures r == c.(sockets := c.sockets[k := CLOSED], timers := r.timers, heartbeatInterval := None,
                    authenticated := false, status := Disconnected,
                    delivered := c.delivered + StatusNotices(c, Disconnected)
                                 + Fanout(c.listeners.close, Closed(wasClean)))
  {
    var c1 := StopHeartbeat(c.(sockets := c.sockets[k := CLOSED]));
    Notify(UpdateStatus(c1.(authenticated := false), Disconnected), CloseEvents, Closed(wasClean))
  }

  /** `ws.onerror`: the status is `error` and the error listeners are told;
      nothing else changes. */
  function SocketErrored(c: Client): (r: Client)
    ensures r.status == Error
    ensures r.delivered == c.delivered + StatusNotices(c, Error) + Fanout(c.listeners.error, Failed)
    ensures r == c.(status := Error, delivered := r.delivered)
  {
    Notify(UpdateStatus(c, Error), ErrorEvents, Failed)
  }

  /** What the switch of `ws.onmessage` does before the message listeners are
      told. */
  function HandleServerMessage(c: Client, m: ServerMessage): (r: Client)
    ensures m.AuthResult? && m.success ==>
      r == c.(authenticated := true, status := Authenticated,
              delivered := c.delivered + StatusNotices(c, Authenticated)
                           + Fanout(c.listeners.authSuccess, AuthSucceeded))
    ensures m.AuthResult? && !m.success ==>
      r == c.(authenticated := false,
              delivered := c.delivered + Fanout(c.listeners.authFailure, AuthFailed(m.error)))
    ensures m.Response? ==>
      r == c.(delivered := c.delivered + Fanout(c.listeners.response, Answered(m.text)))
    ensures m.ServerPing? ==> r == c.(sent := c.sent + (if IsConnected(c) then [Pong] else []))
    ensures m.ServerPong? || m.ServerError? || m.Unlisted? ==> r == c
    ensures SameConnection(c, r)
  {
    match m
    case AuthResult(success, error) =>
      if success then Notify(UpdateStatus(c.(authenticated := true), Authenticated), AuthSuccessEvents, AuthSucceeded)
      else Notify(c.(authenticated := false), AuthFailureEvents, AuthFailed(error))
    case Response(text) => Notify(c, ResponseEvents, Answered(text))
    case ServerPing => SendMessage(c, Pong).0
    case _ => c
  }

  /** `ws.onmessage`: data that does not parse changes nothing; a parsed
      message is handled, then every message listener receives it. */
  function SocketMessage(c: Client, data: Inbound): (r: Client)
    ensures data.Malformed? ==> r == c
    ensures data.Parsed? ==>
      var h := HandleServerMessage(c, data.message);
      r == h.(delivered := h.delivered + Fanout(c.listeners.message, Received(data.message)))
  {
    match data
    case Malformed => c
    case Parsed(m) => Notify(HandleServerMessage(c, m), MessageEvents, Received(m))
  }

  /** The timer with handle `h` fires. The heartbeat interval sends a `ping`
      when connected; the reconnect timeout counts one more attempt and
      calls `connect()`; a cleared timer never fires. */
  function TimerFired(c: Client, h: nat): (r: Client)
    ensures h !in c.timers.intervals && h !in c.timers.timeouts ==> r == c
    ensures h in c.timers.intervals ==> r == c.(sent := c.sent + (if IsConnected(c) then [Ping] else []))
    ensures h !in c.timers.intervals && h in c.timers.timeouts ==>
      r.reconnectAttempts == c.reconnectAttempts + 1
    ensures h !in c.timers.intervals && h in c.timers.timeouts ==>
      r == Connect(c.(timers := TimeoutFired(c.timers, h), reconnectAttempts := c.reconnectAttempts + 1)).0
  {
    if h in c.timers.intervals then
      if IsConnected(c) then SendMessage(c, Ping).0 else c
    else if h in c.timers.timeouts then
      Connect(c.(timers := TimeoutFired(c.timers, h), reconnectAttempts := c.reconnectAttempts + 1)).0
    else c
  }

  // ------------------------------------------------------------ invariant

  /** What the client keeps true between events: the current socket exists;
      the only armed interval is the heartbeat and the only armed timeout is
      the reconnect timer, so there is at most one of each; and, when the
      URL is accepted, the attempt counter stays within the budget, below it
      while a reconnect is pending. When the URL is refused no socket is
      ever created. */
  ghost predicate Inv(c: Client) {
    && (c.ws.Some? ==> c.ws.value < |c.sockets|)
    && (!c.urlAccepted ==> c.ws.None?)
    && TimersWellFormed(c.timers)
    && c.timers.intervals.Keys <= HandleSet(c.heartbeatInterval)
    && c.timers.timeouts.Keys <= HandleSet(c.reconnectInterval)
    && (c.urlAccepted ==> c.reconnectAttempts <= MaxReconnectAttempts)
    && (c.urlAccepted && c.timers.timeouts != map[] ==> c.reconnectAttempts < MaxReconnectAttempts)
  }

  /** Everything that can happen to the client: a call of a public method
      or an event of a socket or a timer. */
  datatype Input =
    | CallConnect
    | CallDisconnect
    | CallAuthenticate(token: string)
    | CallSendQuery(text: string)
    | CallSubscribe(topic: Topic, listener: ListenerId)
    | OpenEvent(socket: nat)
    | CloseEvent(socket: nat, wasClean: bool)
    | ErrorEvent(socket: nat)
    | MessageEvent(socket: nat, data: Inbound)
    | TimerEvent(handle: nat)

  /** The events a browser can deliver in state `c`: `open` only to a
      connecting socket, `close` and `error` to one not yet closed, and
      messages to one that is open or closing. */
  predicate Enabled(c: Client, i: Input) {
    match i
    case OpenEvent(k) => k < |c.sockets| && c.sockets[k] == CONNECTING
    case CloseEvent(k, _) => k < |c.sockets| && c.sockets[k] != CLOSED
    case ErrorEvent(k) => k < |c.sockets| && c.sockets[k] != CLOSED
    case MessageEvent(k, _) => k < |c.sockets| && c.sockets[k] in {OPEN, CLOSING}
    case _ => true
  }

  /** One input; one that cannot occur in `c` leaves it unchanged. */
  function Step(c: Client, i: Input): Client {
    if !Enabled(c, i) then c
    else match i
      case CallConnect => Connect(c).0
      case CallDisconnect => Disconnect(c)
      case CallAuthenticate(t) => Authenticate(c, t)
      case CallSendQuery(text) => SendQuery(c, text)
      case CallSubscribe(t, cb) => Subscribe(c, t, cb)
      case OpenEvent(k) => SocketOpened(c, k)
      case CloseEvent(k, wasClean) => SocketClosed(c, k, wasClean)
      case ErrorEvent(_) => SocketErrored(c)
      case MessageEvent(_, data) => SocketMessage(c, data)
      case TimerEvent(h) => TimerFired(c, h)
  }

  /** The inputs in order. Whether the URL is accepted never changes. */
  function Run(c: Client, ins: seq<Input>): (r: Client)
    ensures r.urlAccepted == c.urlAccepted
    decreases |ins|
  {
    if ins == [] then c else Run(Step(c, ins[0]), ins[1..])
  }

  lemma InitialInv(urlAccepted: bool)
    ensures Inv(Initial(urlAccepted))
  {
  }

  lemma ConnectPreservesInv(c: Client)
    requires Inv(c)
    ensures Inv(Connect(c).0)
  {
  }

  lemma DisconnectPreservesInv(c: Client)
    requires Inv(c)
    ensures Inv(Disconnect(c))
  {
  }

  lemma OpenedPreservesInv(c: Client, k: nat)
    requires Inv(c) && k < |c.sockets| && c.sockets[k] == CONNECTING
    ensures Inv(SocketOpened(c, k))
  {
  }

  lemma ClosedPreservesInv(c: Client, k: nat, wasClean: bool)
    requires Inv(c) && k < |c.sockets| && c.sockets[k] != CLOSED
    ensures Inv(SocketClosed(c, k, wasClean))
  {
  }

  lemma TimerPreservesInv(c: Client, h: nat)
    requires Inv(c)
    ensures Inv(TimerFired(c, h))
  {
  }

  /** Every input keeps the invariant. */
  lemma StepPreservesInv(c: Client, i: Input)
    requires Inv(c)
    ensures Inv(Step(c, i))
  {
    if Enabled(c, i) {
      match i
      case CallConnect => ConnectPreservesInv(c);
      case CallDisconnect => DisconnectPreservesInv(c);
      case OpenEvent(k) => OpenedPreservesInv(c, k);
      case CloseEvent(k, wasClean) => ClosedPreservesInv(c, k, wasClean);
      case TimerEvent(h) => TimerPreservesInv(c, h);
      case _ =>
    }
  }

  /** Every run from a state satisfying the invariant keeps it. */
  lemma {:induction false} RunPreservesInv(c: Client, ins: seq<Input>)
    requires Inv(c)
    ensures Inv(Run(c, ins))
    decreases |ins|
  {
    if ins != [] {
      StepPreservesInv(c, ins[0]);
      RunPreservesInv(Step(c, ins[0]), ins[1..]);
    }
  }

  /** A set of handles inside a one-handle set has at most one element. */
  lemma AtMostOne(s: set<nat>, h: Option<nat>)
    requires s <= HandleSet(h)
    ensures |s| <= 1
  {
    if h.Some? && s != {} {
      assert s == {h.value};
    }
  }

  /** Under the invariant there is at most one heartbeat and at most one
      pending reconnect. */
  lemma TimersBounded(c: Client)
    requires Inv(c)
    ensures |c.timers.intervals| <= 1 && |c.timers.timeouts| <= 1
  {
    AtMostOne(c.timers.intervals.Keys, c.heartbeatInterval);
    AtMostOne(c.timers.timeouts.Keys, c.reconnectInterval);
  }

  /** Whatever happens to a freshly constructed client, it never has more
      than one heartbeat or more than one pending reconnect, and when its
      URL is accepted it makes at most five reconnect attempts in a row. */
  lemma ReachableBounds(urlAccepted: bool, ins: seq<Input>)
    ensures var c := Run(Initial(urlAccepted), ins);
      && |c.timers.intervals| <= 1 && |c.timers.timeouts| <= 1
      && (urlAccepted ==> c.reconnectAttempts <= MaxReconnectAttempts)
  {
    InitialInv(urlAccepted);
    RunPreservesInv(Initial(urlAccepted), ins);
    TimersBounded(Run(Initial(urlAccepted), ins));
  }

  /** After `disconnect()` no timer is armed, so no timer event changes
      anything. */
  lemma DisconnectSilencesTimers(c: Client, h: nat)
    requires Inv(c)
    ensures Disconnect(c).timers.intervals == map[] && Disconnect(c).timers.timeouts == map[]
    ensures TimerFired(Disconnect(c), h) == Disconnect(c)
  {
  }

  /** `disconnect()` leaves a socket that is still connecting alone, with its
      handlers: when it later closes uncleanly a reconnect is scheduled, and
      when it opens instead the status is `connected` with no current socket
      and a heartbeat armed. */
  lemma DisconnectWhileConnecting(c: Client, k: nat)
    requires Inv(c) && c.ws == Some(k) && c.sockets[k] == CONNECTING
    requires c.reconnectAttempts < MaxReconnectAttempts
    ensures var d := Disconnect(c);
      && k < |d.sockets| && d.sockets[k] == CONNECTING
      && SocketClosed(d, k, false).reconnectInterval == Some(d.timers.next)
      && SocketClosed(d, k, false).status == Disconnected
      && SocketOpened(d, k).status == Connected && SocketOpened(d, k).ws.None?
      && SocketOpened(d, k).heartbeatInterval == Some(d.timers.next)
  {
    assert !IsConnected(c);
  }

  /** With two sockets connecting, when the current one opens first and the
      older one after it, the cached token is sent twice: the older socket's
      open handler authenticates on the current, open, socket. */
  lemma StaleOpenAuthenticatesAgain(c: Client, j: nat, k: nat)
    requires Inv(c) && c.ws == Some(k) && j != k && j < |c.sockets|
    requires c.sockets[j] == CONNECTING && c.sockets[k] == CONNECTING
    requires c.token.Some? && c.token.value != ""
    ensures var c1 := SocketOpened(c, k);
      && c1.sockets[j] == CONNECTING
      && SocketOpened(c1, j).sent == c.sent + [Auth(c.token.value), Auth(c.token.value)]
  {
    var c1 := SocketOpened(c, k);
    assert c1.ws == Some(k) && c1.sockets[k] == OPEN;
    assert IsConnected(c1);
  }

  /** `connect()` from `authenticated` keeps the `authenticated` flag, so
      once the new socket opens, a query is sent while the status is
      `connected`, before any `auth_result` has arrived. */
  lemma ReconnectKeepsAuthenticated(c: Client, text: string)
    requires Inv(c) && c.urlAccepted && c.authenticated && c.status == Authenticated
    ensures var c2 := SocketOpened(Connect(c).0, |c.sockets|);
      && c2.status == Connected && c2.authenticated
      && SendQuery(c2, text).sent == c2.sent + [Query(text)]
  {
    var k := |c.sockets|;
    var c2 := SocketOpened(Connect(c).0, k);
    assert c2.ws == Some(k) && c2.sockets[k] == OPEN;
    assert IsConnected(c2);
  }

  /** `n` firings of the timers with consecutive handles from `h`. */
  function Fires(h: nat, n: nat): (r: seq<Input>)
    ensures |r| == n
    ensures forall i :: 0 <= i < n ==> r[i] == TimerEvent(h + i)
    decreases n
  {
    if n == 0 then [] else [TimerEvent(h)] + Fires(h + 1, n - 1)
  }

  /** The firings after the first of `n` are the `n - 1` from the next handle. */
  lemma FiresRest(h: nat, n: nat)
    requires n > 0
    ensures Fires(h, n)[1..] == Fires(h + 1, n - 1)
  {
  }

  /** The reconnect timeout of a client whose URL is refused, at the head of
      the inputs `ins`: one more attempt, status `error`, and the next
      timeout armed right behind it; `c1` is the client after the timeout. */
  lemma RefusedUrlTimeout(c: Client, ins: seq<Input>) returns (c1: Client)
    requires Inv(c) && !c.urlAccepted
    requires c.timers.next >= 1 && c.timers.next - 1 in c.timers.timeouts
    requires |ins| > 0 && ins[0] == TimerEvent(c.timers.next - 1)
    ensures Inv(c1) && !c1.urlAccepted
    ensures c1.timers.next - 1 == c.timers.next && c1.timers.next - 1 in c1.timers.timeouts
    ensures c1.reconnectAttempts == c.reconnectAttempts + 1 && c1.status == Error
    ensures Run(c, ins) == Run(c1, ins[1..])
  {
    var h := c.timers.next - 1;
    c1 := TimerFired(c, h);
    assert h !in c.timers.intervals;
    assert Step(c, TimerEvent(h)) == c1;
    TimerPreservesInv(c, h);
  }

  /** The first of `n` reconnect timeouts of a client whose URL is refused,
      under handle `h`; `c1` is the client after it. */
  lemma RefusedUrlFire(c: Client, h: nat, n: nat) returns (c1: Client)
    requires Inv(c) && !c.urlAccepted && n > 0
    requires h == c.timers.next - 1 && h in c.timers.timeouts
    ensures Inv(c1) && !c1.urlAccepted
    ensures h + 1 == c1.timers.next - 1 && h + 1 in c1.timers.timeouts
    ensures c1.reconnectAttempts == c.reconnectAttempts + 1 && c1.status == Error
    ensures Run(c, Fires(h, n)) == Run(c1, Fires(h + 1, n - 1))
  {
    c1 := RefusedUrlTimeout(c, Fires(h, n));
    FiresRest(h, n);
  }

  /** `n` reconnect timeouts of a client whose URL is refused, the first
      under handle `h`, each add one attempt and leave the status `error`. */
  lemma {:induction false} RefusedUrlRetries(c: Client, h: nat, n: nat)
    requires Inv(c) && !c.urlAccepted
    requires h == c.timers.next - 1 && h in c.timers.timeouts
    ensures var r := Run(c, Fires(h, n));
      r.reconnectAttempts == c.reconnectAttempts + n && r.status == (if n == 0 then c.status else Error)
    decreases n
  {
    if n > 0 {
      var c1 := RefusedUrlFire(c, h, n);
      RefusedUrlRetries(c1, h + 1, n - 1);
    }
  }

  /** When the WebSocket constructor refuses the URL, every reconnect timeout
      fails again and schedules the next one, and the attempt counter grows
      past the budget of five: the budget is consulted only on close. */
  lemma {:induction false} RefusedUrlRetriesForever(c: Client, n: nat)
    requires Inv(c) && !c.urlAccepted
    requires c.timers.next >= 1 && c.timers.next - 1 in c.timers.timeouts
    ensures var r := Run(c, Fires(c.timers.next - 1, n));
      r.reconnectAttempts == c.reconnectAttempts + n && r.status == (if n == 0 then c.status else Error)
  {
    RefusedUrlRetries(c, c.timers.next - 1, n);
  }

  /** From a fresh client whose URL is refused, `connect()` followed by `n`
      reconnect timeouts leaves `n` attempts counted, however large. */
  lemma RefusedUrlAttempts(n: nat)
    ensures Run(Initial(false), [CallConnect] + Fires(1, n)).reconnectAttempts == n
  {
    var c := Connect(Initial(false)).0;
    InitialInv(false);
    ConnectPreservesInv(Initial(false));
    RefusedUrlRetriesForever(c, n);
    assert ([CallConnect] + Fires(1, n))[1..] == Fires(1, n);
  }
}
