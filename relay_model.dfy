/** The generic relay client `WebSocketService` as a state machine on
    values: every public method and every socket or timer event is a
    function from the service's state (a `Service` snapshot of its fields)
    to the next state. The class in RelayClient runs these steps in place. */
module RelayModel {
  import opened Host

  const MaxReconnectAttempts: nat := 5
  /** `Math.min(1000 * Math.pow(2, attempts), 30000)`: base and cap, in ms. */
  const BackoffBaseMs: nat := 1000
  const BackoffCapMs: nat := 30000

  datatype Status = Connecting | Connected | Disconnected | Error

  /** A message handler, told apart from the others by an identifier. */
  type HandlerId = nat

  /** The envelope on the wire: `type`, the JSON text of `data`, and a
      `requestId` that is present only when the sender gave a non-empty one. */
  datatype WireMessage = WireMessage(kind: string, data: string, requestId: Option<string>)

  /** The data of a message event: an envelope, or text that does not parse
      as one. */
  datatype Inbound = Parsed(message: WireMessage) | Malformed

  /** One call of a handler with the `data` of a message. */
  datatype Dispatch = Dispatch(handler: HandlerId, data: string)

  /** How the promise that `connect()` returns turns out: resolved at once,
      settled later by the new socket's first open or error event, or
      rejected at once because the socket could not be created. */
  datatype ConnectOutcome = Resolved | Pending(socket: nat) | Rejected

  /** The service's fields, plus what it has done so far. `sockets` holds the
      readyState of every socket created so far, by creation order; `socket`
      indexes the current one. `urlAccepted` says whether the WebSocket
      constructor accepts the URL. */
  datatype Service = Service(
    urlAccepted: bool,
    sockets: seq<ReadyState>,
    socket: Option<nat>,
    status: Status,
    handlers: map<string, HandlerId>,
    pending: set<string>,
    reconnectAttempts: nat,
    reconnectTimeout: Option<nat>,
    timers: Timers,
    sent: seq<WireMessage>,
    dispatched: seq<Dispatch>)

  /** A freshly constructed service. */
  function Initial(urlAccepted: bool): (c: Service)
    ensures c.socket.None? && c.status == Disconnected && c.reconnectAttempts == 0
    ensures c.handlers == map[] && c.pending == {} && c.sent == [] && c.dispatched == []
    ensures c.sockets == [] && c.reconnectTimeout.None? && c.timers == NoTimers
  {
    Service(urlAccepted, [], None, Disconnected, map[], {}, 0, None, NoTimers, [], [])
  }

  /** A JavaScript `requestId` is truthy exactly when it is a non-empty string. */
  predicate Present(id: Option<string>) {
    id.Some? && id.value != ""
  }

  // -------------------------------------------------------------- backoff

  function Pow2(n: nat): nat
  {
    if n == 0 then 1 else 2 * Pow2(n - 1)
  }

  /** The reconnect delay before attempt `n`. */
  function Backoff(n: nat): (r: nat)
    ensures r <= BackoffCapMs && r <= BackoffBaseMs * Pow2(n)
    ensures r == BackoffCapMs || r == BackoffBaseMs * Pow2(n)
  {
    if BackoffBaseMs * Pow2(n) < BackoffCapMs then BackoffBaseMs * Pow2(n) else BackoffCapMs
  }

  /** The delays of the five attempts. */
  const BackoffDelays: set<nat> := {2000, 4000, 8000, 16000, 30000}

  lemma BackoffSchedule()
    ensures Backoff(1) == 2000 && Backoff(2) == 4000 && Backoff(3) == 8000
    ensures Backoff(4) == 16000 && Backoff(5) == 30000
  {
    assert Pow2(5) == 32 by {
      assert Pow2(1) == 2 && Pow2(2) == 4 && Pow2(3) == 8 && Pow2(4) == 16;
    }
  }

  /** Every attempt the budget allows waits one of the five delays. */
  lemma BackoffInSchedule(n: nat)
    requires 1 <= n <= MaxReconnectAttempts
    ensures Backoff(n) in BackoffDelays
  {
    BackoffSchedule();
  }

  lemma {:induction false} Pow2Monotonic(m: nat, n: nat)
    requires m <= n
    ensures Pow2(m) <= Pow2(n)
    decreases n - m
  {
    if m < n {
      Pow2Monotonic(m, n - 1);
    }
  }

  /** Later attempts never wait less. */
  lemma BackoffMonotonic(m: nat, n: nat)
    requires m <= n
    ensures Backoff(m) <= Backoff(n)
  {
    Pow2Monotonic(m, n);
  }

  // -------------------------------------------------------------- helpers

  /** readyState of the current socket; a missing one never accepts data. */
  function CurrentState(c: Service): (r: ReadyState)
    ensures c.socket.None? ==> r == CLOSED
    ensures r != CLOSED ==> c.socket.Some? && c.socket.value < |c.sockets| && c.sockets[c.socket.value] == r
  {
    if c.socket.Some? && c.socket.value < |c.sockets| then c.sockets[c.socket.value] else CLOSED
  }

  /** `attemptReconnect()`: acts only while the budget of five attempts
      remains and the status is not `connecting`; it then counts one more
      attempt and replaces the pending reconnect by one after the backoff
      delay for that attempt. */
  function AttemptReconnect(c: Service): (r: Service)
    ensures !(c.reconnectAttempts < MaxReconnectAttempts && c.status != Connecting) ==> r == c
    ensures c.reconnectAttempts < MaxReconnectAttempts && c.status != Connecting ==>
      && r.reconnectAttempts == c.reconnectAttempts + 1
      && r.reconnectTimeout == Some(c.timers.next)
      && r.timers.timeouts.Keys == c.timers.timeouts.Keys - HandleSet(c.reconnectTimeout) + {c.timers.next}
      && r.timers.timeouts[c.timers.next] == Backoff(c.reconnectAttempts + 1)
      && r.timers.intervals.Keys == c.timers.intervals.Keys - HandleSet(c.reconnectTimeout)
      && r.timers.next == c.timers.next + 1
      && r == c.(reconnectAttempts := r.reconnectAttempts, reconnectTimeout := r.reconnectTimeout,
                 timers := r.timers)
    ensures r.reconnectAttempts <= MaxReconnectAttempts || r.reconnectAttempts == c.reconnectAttempts
  {
    if c.reconnectAttempts < MaxReconnectAttempts && c.status != Connecting then
      var n := c.reconnectAttempts + 1;
      var t := if c.reconnectTimeout.Some? then ClearTimer(c.timers, c.reconnectTimeout.value) else c.timers;
      c.(reconnectAttempts := n, timers := SetTimeout(t, Backoff(n)), reconnectTimeout := Some(t.next))
    else c
  }

  // -------------------------------------------------------- public methods

  /** `connect()`. Short-circuits only in status `connected` with a socket
      present; otherwise, `connecting` included, it opens a new socket. When
      the WebSocket constructor throws, the status is `error` and
      `attemptReconnect()` runs. */
  function Connect(c: Service): (r: (Service, ConnectOutcome))
    ensures c.socket.Some? && c.status == Connected ==> r == (c, Resolved)
    ensures !(c.socket.Some? && c.status == Connected) && c.urlAccepted ==>
      && r.1 == Pending(|c.sockets|)
      && r.0 == c.(sockets := c.sockets + [CONNECTING], socket := Some(|c.sockets|), status := Connecting)
    ensures !(c.socket.Some? && c.status == Connected) && !c.urlAccepted ==>
      r == (AttemptReconnect(c.(status := Error)), Rejected)
  {
    if c.socket.Some? && c.status == Connected then (c, Resolved)
    else if c.urlAccepted then
      var k := |c.sockets|;
      (c.(status := Connecting, sockets := c.sockets + [CONNECTING], socket := Some(k)), Pending(k))
    else
      (AttemptReconnect(c.(status := Error)), Rejected)
  }

  /** `disconnect()`: with a socket present, closes it, drops it, ends in
      `disconnected` and clears the pending reconnect; with none, nothing. */
  function Disconnect(c: Service): (r: Service)
    ensures c.socket.None? ==> r == c
    ensures c.socket.Some? ==>
      && r.socket.None? && r.status == Disconnected && r.reconnectTimeout.None?
      && r.timers.timeouts.Keys == c.timers.timeouts.Keys - HandleSet(c.reconnectTimeout)
      && r.timers.intervals.Keys == c.timers.intervals.Keys - HandleSet(c.reconnectTimeout)
      && r.timers.next == c.timers.next
      && (c.socket.value < |c.sockets| ==>
            r.sockets == c.sockets[c.socket.value := CloseRequested(c.sockets[c.socket.value])])
      && (c.socket.value >= |c.sockets| ==> r.sockets == c.sockets)
      && r == c.(sockets := r.sockets, socket := None, status := Disconnected, reconnectTimeout := None,
                 timers := r.timers)
  {
    if c.socket.None? then c
    else
      var k := c.socket.value;
      var c1 := if k < |c.sockets| then c.(sockets := c.sockets[k := CloseRequested(c.sockets[k])]) else c;
      var c2 := c1.(socket := None, status := Disconnected);
      if c2.reconnectTimeout.Some? then
        c2.(timers := ClearTimer(c2.timers, c2.reconnectTimeout.value), reconnectTimeout := None)
      else c2
  }

  /** `registerMessageHandler(type, h)`: the handler for `type` is `h`, any
      earlier one replaced; no other type changes. */
  function Register(c: Service, kind: string, h: HandlerId): (r: Service)
    ensures r.handlers.Keys == c.handlers.Keys + {kind} && r.handlers[kind] == h
    ensures forall k :: k in c.handlers && k != kind ==> r.handlers[k] == c.handlers[k]
    ensures r == c.(handlers := r.handlers)
  {
    c.(handlers := c.handlers[kind := h])
  }

  /** `unregisterMessageHandler(type)`: removes the handler for `type` and no
      other. */
  function Unregister(c: Service, kind: string): (r: Service)
    ensures r.handlers.Keys == c.handlers.Keys - {kind}
    ensures forall k :: k in r.handlers ==> r.handlers[k] == c.handlers[k]
    ensures r == c.(handlers := r.handlers)
  {
    c.(handlers := c.handlers - {kind})
  }

  /** What `socket.send(text)` does: it throws on a socket that is still
      connecting, transmits on an open one, and silently discards the data
      on one that is closing or closed. */
  function Transmit(c: Service, m: WireMessage): (r: (Service, bool))
    ensures r.1 <==> CurrentState(c) != CONNECTING
    ensures r.0 == c.(sent := if CurrentState(c) == OPEN then c.sent + [m] else c.sent)
  {
    match CurrentState(c)
    case CONNECTING => (c, false)
    case OPEN => (c.(sent := c.sent + [m]), true)
    case _ => (c, true)
  }

  /** `sendMessage(type, data, requestId)`: refused while there is no socket
      or the status is not `connected`, and, for a send without a
      `requestId`, while any request is pending. A send with a `requestId` is
      never refused by that guard: its id joins the pending set before the
      transmission, and stays there even when the transmission throws. */
  function SendMessage(c: Service, kind: string, data: string, requestId: Option<string>): (r: (Service, bool))
    ensures !(c.socket.Some? && c.status == Connected) ==> r == (c, false)
    ensures c.pending != {} && !Present(requestId) ==> r == (c, false)
    ensures var open := c.socket.Some? && c.status == Connected;
      && (open && Present(requestId) ==> r.0.pending == c.pending + {requestId.value})
      && (!(open && Present(requestId)) ==> r.0.pending == c.pending)
    ensures r.1 <==>
      c.socket.Some? && c.status == Connected && (c.pending == {} || Present(requestId))
      && CurrentState(c) != CONNECTING
    ensures r.0.sent == c.sent +
      (if r.1 && CurrentState(c) == OPEN
       then [WireMessage(kind, data, if Present(requestId) then requestId else None)] else [])
    ensures r.0 == c.(pending := r.0.pending, sent := r.0.sent)
  {
    if c.socket.None? || c.status != Connected then (c, false)
    else if |c.pending| > 0 && !Present(requestId) then (c, false)
    else if Present(requestId) then
      Transmit(c.(pending := c.pending + {requestId.value}), WireMessage(kind, data, requestId))
    else Transmit(c, WireMessage(kind, data, None))
  }

  /** `hasPendingRequests()`: whether any request still awaits its answer. */
  predicate HasPendingRequests(c: Service): (b: bool)
    ensures b <==> c.pending != {}
  {
    |c.pending| > 0
  }

  // ---------------------------------------------------------- socket events

  /** `onopen` of socket `k`: `connected`, attempt counter reset. */
  function SocketOpened(c: Service, k: nat): (r: Service)
    requires k < |c.sockets| && c.sockets[k] == CONNECTING
    ensures r == c.(sockets := c.sockets[k := OPEN], status := Connected, reconnectAttempts := 0)
  {
    c.(sockets := c.sockets[k := OPEN], status := Connected, reconnectAttempts := 0)
  }

  /** `onclose` of socket `k`, clean or not: `disconnected`, then
      `attemptReconnect()`. */
  function SocketClosed(c: Service, k: nat): (r: Service)
    requires k < |c.sockets| && c.sockets[k] != CLOSED
    ensures r.status == Disconnected && r.sockets == c.sockets[k := CLOSED]
    ensures var scheduled := c.reconnectAttempts < MaxReconnectAttempts;
      && (scheduled ==> r.reconnectAttempts == c.reconnectAttempts + 1 && r.reconnectTimeout == Some(c.timers.next)
                        && r.timers.timeouts.Keys == c.timers.timeouts.Keys - HandleSet(c.reconnectTimeout) + {c.timers.next}
                        && r.timers.intervals.Keys == c.timers.intervals.Keys - HandleSet(c.reconnectTimeout)
                        && r.timers.timeouts[c.timers.next] == Backoff(r.reconnectAttempts)
                        && r.timers.next == c.timers.next + 1
                        && r == c.(sockets := r.sockets, status := Disconnected,
                                   reconnectAttempts := r.reconnectAttempts,
                                   reconnectTimeout := r.reconnectTimeout, timers := r.timers))
      && (!scheduled ==> r == c.(sockets := r.sockets, status := Disconnected))
  {
    AttemptReconnect(c.(sockets := c.sockets[k := CLOSED], status := Disconnected))
  }

  /** `onerror`: the status is `error` and nothing else changes. */
  function SocketErrored(c: Service): (r: Service)
    ensures r.status == Error && r == c.(status := Error)
  {
    c.(status := Error)
  }

  /** `onmessage`: a message whose non-empty `requestId` is pending settles
      that request and no other; then the handler registered for its `type`,
      if any, and only that one, receives its `data`. Data that does not
      parse changes nothing. */
  function SocketMessage(c: Service, data: Inbound): (r: Service)
    ensures data.Malformed? ==> r == c
    ensures data.Parsed? ==>
      var m := data.message;
      && r.pending == (if Present(m.requestId) then c.pending - {m.requestId.value} else c.pending)
      && r.dispatched == c.dispatched + (if m.kind in c.handlers then [Dispatch(c.handlers[m.kind], m.data)] else [])
      && r == c.(pending := r.pending, dispatched := r.dispatched)
  {
    match data
    case Malformed => c
    case Parsed(m) =>
      var c1 := if Present(m.requestId) && m.requestId.value in c.pending
        then c.(pending := c.pending - {m.requestId.value}) else c;
      if m.kind in c1.handlers then c1.(dispatched := c1.dispatched + [Dispatch(c1.handlers[m.kind], m.data)])
      else c1
  }

  /** The timer with handle `h` fires. A pending reconnect calls `connect()`
      (the attempt was counted when it was scheduled); the handle stays in
      `reconnectTimeout`. A cleared timer never fires. */
  function TimerFired(c: Service, h: nat): (r: Service)
    ensures h !in c.timers.timeouts ==> r == c
    ensures h in c.timers.timeouts ==> r == Connect(c.(timers := TimeoutFired(c.timers, h))).0
  {
    if h in c.timers.timeouts then Connect(c.(timers := TimeoutFired(c.timers, h))).0 else c
  }

  // ------------------------------------------------------------ invariant

  /** What the service keeps true between events: the current socket exists
      (and never does when the URL is refused), no interval is ever armed, the
      only armed timeout is the pending reconnect and it waits one of the five
      backoff delays, and at most five attempts are counted. */
  ghost predicate Inv(c: Service) {
    && (c.socket.Some? ==> c.socket.value < |c.sockets|)
    && (!c.urlAccepted ==> c.socket.None?)
    && TimersWellFormed(c.timers)
    && c.timers.intervals == map[]
    && c.timers.timeouts.Keys <= HandleSet(c.reconnectTimeout)
    && (forall h :: h in c.timers.timeouts ==> c.timers.timeouts[h] in BackoffDelays)
    && c.reconnectAttempts <= MaxReconnectAttempts
  }

  /** Everything that can happen to the service. */
  datatype Input =
    | CallConnect
    | CallDisconnect
    | CallRegister(kind: string, handler: HandlerId)
    | CallUnregister(kind: string)
    | CallSend(kind: string, payload: string, requestId: Option<string>)
    | OpenEvent(socket: nat)
    | CloseEvent(socket: nat)
    | ErrorEvent(socket: nat)
    | MessageEvent(socket: nat, data: Inbound)
    | TimerEvent(handle: nat)

  /** The events a browser can deliver in state `c`. */
  predicate Enabled(c: Service, i: Input) {
    match i
    case OpenEvent(k) => k < |c.sockets| && c.sockets[k] == CONNECTING
    case CloseEvent(k) => k < |c.sockets| && c.sockets[k] != CLOSED
    case ErrorEvent(k) => k < |c.sockets| && c.sockets[k] != CLOSED
    case MessageEvent(k, _) => k < |c.sockets| && c.sockets[k] in {OPEN, CLOSING}
    case _ => true
  }

  /** One input; one that cannot occur in `c` leaves it unchanged. */
  function Step(c: Service, i: Input): Service {
    if !Enabled(c, i) then c
    else match i
      case CallConnect => Connect(c).0
      case CallDisconnect => Disconnect(c)
      case CallRegister(kind, h) => Register(c, kind, h)
      case CallUnregister(kind) => Unregister(c, kind)
      case CallSend(kind, data, id) => SendMessage(c, kind, data, id).0
      case OpenEvent(k) => SocketOpened(c, k)
      case CloseEvent(k) => SocketClosed(c, k)
      case ErrorEvent(_) => SocketErrored(c)
      case MessageEvent(_, data) => SocketMessage(c, data)
      case TimerEvent(h) => TimerFired(c, h)
  }

  /** The inputs in order. */
  function Run(c: Service, ins: seq<Input>): (r: Service)
    decreases |ins|
  {
    if ins == [] then c else Run(Step(c, ins[0]), ins[1..])
  }

  lemma InitialInv(urlAccepted: bool)
    ensures Inv(Initial(urlAccepted))
  {
  }

  lemma AttemptReconnectPreservesInv(c: Service)
    requires Inv(c)
    ensures Inv(AttemptReconnect(c))
  {
    if c.reconnectAttempts < MaxReconnectAttempts && c.status != Connecting {
      BackoffInSchedule(c.reconnectAttempts + 1);
    }
  }

  lemma ConnectPreservesInv(c: Service)
    requires Inv(c)
    ensures Inv(Connect(c).0)
  {
    if !(c.socket.Some? && c.status == Connected) && !c.urlAccepted {
      AttemptReconnectPreservesInv(c.(status := Error));
    }
  }

  lemma ClosedPreservesInv(c: Service, k: nat)
    requires Inv(c) && k < |c.sockets| && c.sockets[k] != CLOSED
    ensures Inv(SocketClosed(c, k))
  {
    AttemptReconnectPreservesInv(c.(sockets := c.sockets[k := CLOSED], status := Disconnected));
  }

  lemma TimerPreservesInv(c: Service, h: nat)
    requires Inv(c)
    ensures Inv(TimerFired(c, h))
  {
    if h in c.timers.timeouts {
      ConnectPreservesInv(c.(timers := TimeoutFired(c.timers, h)));
    }
  }

  /** Every input keeps the invariant. */
  lemma StepPreservesInv(c: Service, i: Input)
    requires Inv(c)
    ensures Inv(Step(c, i))
  {
    if Enabled(c, i) {
      match i
      case CallConnect => ConnectPreservesInv(c);
      case CloseEvent(k) => ClosedPreservesInv(c, k);
      case TimerEvent(h) => TimerPreservesInv(c, h);
      case _ =>
    }
  }

  /** Every run from a state satisfying the invariant keeps it. */
  lemma {:induction false} RunPreservesInv(c: Service, ins: seq<Input>)
    requires Inv(c)
    ensures Inv(Run(c, ins))
    decreases |ins|
  {
    if ins != [] {
      StepPreservesInv(c, ins[0]);
      RunPreservesInv(Step(c, ins[0]), ins[1..]);
    }
  }

  /** Whatever happens to a fresh service, whether or not its URL is
      accepted, it counts at most five reconnect attempts, has at most one
      reconnect pending, and every pending reconnect waits one of 2, 4, 8, 16
      or 30 seconds. */
  lemma ReachableBounds(urlAccepted: bool, ins: seq<Input>)
    ensures var c := Run(Initial(urlAccepted), ins);
      && c.reconnectAttempts <= MaxReconnectAttempts
      && |c.timers.timeouts| <= 1
      && (forall h :: h in c.timers.timeouts ==> c.timers.timeouts[h] in BackoffDelays)
  {
    InitialInv(urlAccepted);
    RunPreservesInv(Initial(urlAccepted), ins);
    var c := Run(Initial(urlAccepted), ins);
    if c.timers.timeouts != map[] {
      assert c.timers.timeouts.Keys == {c.reconnectTimeout.value};
    }
  }

  // ------------------------------------------------- behaviour of the code

  /** `disconnect()` does not stop reconnection: once the dropped socket's
      close event arrives, its handler still runs `attemptReconnect()`, and
      while the budget remains a reconnect is scheduled again. */
  lemma DisconnectThenCloseReconnects(c: Service)
    requires Inv(c) && c.socket.Some? && c.sockets[c.socket.value] in {CONNECTING, OPEN}
    requires c.reconnectAttempts < MaxReconnectAttempts
    ensures var d := Disconnect(c);
      && d.reconnectTimeout.None? && d.sockets[c.socket.value] == CLOSING
      && var r := SocketClosed(d, c.socket.value);
      r.reconnectTimeout.Some? && r.reconnectTimeout.value in r.timers.timeouts
      && r.reconnectAttempts == c.reconnectAttempts + 1
  {
  }

  /** `connect()` while a connection attempt is underway does not reuse it:
      it opens another socket, and the first stays connecting. */
  lemma ConnectWhileConnectingOpensAnother(c: Service)
    requires Inv(c) && c.urlAccepted && c.status == Connecting && c.socket.Some?
    requires c.sockets[c.socket.value] == CONNECTING
    ensures var (r, outcome) := Connect(c);
      && outcome == Pending(|c.sockets|) && |r.sockets| == |c.sockets| + 1
      && r.socket != c.socket && r.sockets[c.socket.value] == CONNECTING
  {
  }
}
