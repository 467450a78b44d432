/** `WebSocketService` as a class whose fields are the service's own, with
    the pending requests a set field and the message handlers a map field.
    Every method runs the corresponding step of RelayModel in place: its
    postcondition says the new `View()` is the model's next state, and the
    public methods and event handlers keep `Valid()`, the model's invariant. */
module RelayClient {
  import opened Host
  import opened RelayModel

  class WebSocketService {
    /** Whether `new WebSocket(url)` accepts this service's URL. */
    const urlAccepted: bool
    /** readyState of every socket created so far, by creation order. */
    var sockets: seq<ReadyState>
    /** The current socket, as an index into `sockets`; None is `null`. */
    var socket: Option<nat>
    var status: Status
    var messageHandlers: map<string, HandlerId>
    var pendingRequests: set<string>
    var reconnectAttempts: nat
    var reconnectTimeout: Option<nat>
    var timers: Timers
    /** Messages put on the wire and handler calls, in order. */
    var sent: seq<WireMessage>
    var dispatched: seq<Dispatch>

    /** The fields as a model state. */
    function View(): Service
      reads this
    {
      Service(urlAccepted, sockets, socket, status, messageHandlers, pendingRequests,
              reconnectAttempts, reconnectTimeout, timers, sent, dispatched)
    }

    ghost predicate Valid()
      reads this
    {
      Inv(View())
    }

    constructor(urlAccepted: bool)
      ensures View() == Initial(urlAccepted) && Valid()
    {
      this.urlAccepted := urlAccepted;
      sockets := [];
      socket := None;
      status := Disconnected;
      messageHandlers := map[];
      pendingRequests := {};
      reconnectAttempts := 0;
      reconnectTimeout := None;
      timers := NoTimers;
      sent := [];
      dispatched := [];
      new;
      InitialInv(urlAccepted);
    }

    method Connect() returns (outcome: ConnectOutcome)
      modifies this
      ensures (View(), outcome) == RelayModel.Connect(old(View()))
      ensures old(Valid()) ==> Valid()
    {
      if socket.Some? && status == Connected {
        outcome := Resolved;
      } else if urlAccepted {
        status := Connecting;
        var k := |sockets|;
        sockets := sockets + [CONNECTING];
        socket := Some(k);
        outcome := Pending(k);
      } else {
        status := Error;
        AttemptReconnect();
        outcome := Rejected;
      }
      if old(Valid()) {
        ConnectPreservesInv(old(View()));
      }
    }

    method AttemptReconnect()
      modifies this
      ensures View() == RelayModel.AttemptReconnect(old(View()))
    {
      if reconnectAttempts < MaxReconnectAttempts && status != Connecting {
        reconnectAttempts := reconnectAttempts + 1;
        var delay := Backoff(reconnectAttempts);
        if reconnectTimeout.Some? {
          timers := ClearTimer(timers, reconnectTimeout.value);
        }
        reconnectTimeout := Some(timers.next);
        timers := SetTimeout(timers, delay);
      }
    }

    method Disconnect()
      requires Valid()
      modifies this
      ensures View() == RelayModel.Disconnect(old(View())) && Valid()
    {
      if socket.Some? {
        sockets := sockets[socket.value := CloseRequested(sockets[socket.value])];
        socket := None;
        status := Disconnected;
        if reconnectTimeout.Some? {
          timers := ClearTimer(timers, reconnectTimeout.value);
          reconnectTimeout := None;
        }
      }
    }

    method RegisterMessageHandler(kind: string, handler: HandlerId)
      requires Valid()
      modifies this
      ensures View() == Register(old(View()), kind, handler) && Valid()
    {
      messageHandlers := messageHandlers[kind := handler];
    }

    method UnregisterMessageHandler(kind: string)
      requires Valid()
      modifies this
      ensures View() == Unregister(old(View()), kind) && Valid()
    {
      messageHandlers := messageHandlers - {kind};
    }

    /** `this.socket.send(text)`, caught. */
    method Transmit(m: WireMessage) returns (ok: bool)
      modifies this
      ensures (View(), ok) == RelayModel.Transmit(old(View()), m)
    {
      var state := if socket.Some? && socket.value < |sockets| then sockets[socket.value] else CLOSED;
      if state == CONNECTING {
        ok := false;
      } else {
        if state == OPEN {
          sent := sent + [m];
        }
        ok := true;
      }
    }

    method SendMessage(kind: string, data: string, requestId: Option<string>) returns (ok: bool)
      requires Valid()
      modifies this
      ensures (View(), ok) == RelayModel.SendMessage(old(View()), kind, data, requestId) && Valid()
    {
      if socket.None? || status != Connected {
        return false;
      }
      if |pendingRequests| > 0 && !Present(requestId) {
        return false;
      }
      var message := WireMessage(kind, data, None);
      if Present(requestId) {
        message := message.(requestId := requestId);
        pendingRequests := pendingRequests + {requestId.value};
      }
      ok := Transmit(message);
    }

    method HasPendingRequests() returns (b: bool)
      ensures b <==> pendingRequests != {}
    {
      b := |pendingRequests| > 0;
      assert b == RelayModel.HasPendingRequests(View());
    }

    method GetStatus() returns (s: Status)
      ensures s == status
    {
      s := status;
    }

    // ------------------------------------------------ socket and timer events

    /** The `onopen` handler of socket `k`. */
    method HandleOpen(k: nat)
      requires Valid() && k < |sockets| && sockets[k] == CONNECTING
      modifies this
      ensures View() == SocketOpened(old(View()), k) && Valid()
    {
      sockets := sockets[k := OPEN];
      status := Connected;
      reconnectAttempts := 0;
    }

    /** The `onclose` handler of socket `k`. */
    method HandleClose(k: nat)
      requires Valid() && k < |sockets| && sockets[k] != CLOSED
      modifies this
      ensures View() == SocketClosed(old(View()), k) && Valid()
    {
      sockets := sockets[k := CLOSED];
      status := Disconnected;
      AttemptReconnect();
      ClosedPreservesInv(old(View()), k);
    }

    /** The `onerror` handler of socket `k`. */
    method HandleError(k: nat)
      requires Valid() && k < |sockets| && sockets[k] != CLOSED
      modifies this
      ensures View() == SocketErrored(old(View())) && Valid()
    {
      status := Error;
    }

    /** The `onmessage` handler of socket `k`. */
    method HandleMessage(k: nat, data: Inbound)
      requires Valid() && k < |sockets| && sockets[k] in {OPEN, CLOSING}
      modifies this
      ensures View() == SocketMessage(old(View()), data) && Valid()
    {
      match data
      case Malformed =>
      case Parsed(m) =>
        if Present(m.requestId) && m.requestId.value in pendingRequests {
          pendingRequests := pendingRequests - {m.requestId.value};
        }
        if m.kind in messageHandlers {
          dispatched := dispatched + [Dispatch(messageHandlers[m.kind], m.data)];
        }
    }

    /** The pending reconnect with handle `h` fires. */
    method FireTimer(h: nat)
      requires Valid()
      modifies this
      ensures View() == TimerFired(old(View()), h) && Valid()
    {
      if h in timers.timeouts {
        timers := TimeoutFired(timers, h);
        var _ := Connect();
      }
      TimerPreservesInv(old(View()), h);
    }
  }
}
