/** `BuddyBotWebSocketClient` as a class whose fields are the client's own.
    Every method runs the corresponding step of BuddyBotModel in place:
    its postcondition says the new `View()` is the model's next state, and
    the public methods and event handlers keep `Valid()`, the model's
    invariant. */
module BuddyBotClient {
  import opened Host
  import opened BuddyBotModel

  class BuddyBotWebSocketClient {
    /** Whether `new WebSocket(url)` accepts this client's URL. */
    const urlAccepted: bool
    /** readyState of every socket created so far, by creation order. */
    var sockets: seq<ReadyState>
    /** The current socket, as an index into `sockets`; None is `null`. */
    var ws: Option<nat>
    var token: Option<string>
    var timers: Timers
    var heartbeatInterval: Option<nat>
    var reconnectInterval: Option<nat>
    var reconnectAttempts: nat
    var authenticated: bool
    var status: Status

    var onOpenCallbacks: seq<ListenerId>
    var onCloseCallbacks: seq<ListenerId>
    var onErrorCallbacks: seq<ListenerId>
    var onMessageCallbacks: seq<ListenerId>
    var onAuthSuccessCallbacks: seq<ListenerId>
    var onAuthFailureCallbacks: seq<ListenerId>
    var onResponseCallbacks: seq<ListenerId>
    var onStatusChangeCallbacks: seq<ListenerId>

    /** Messages put on the wire and callbacks called, in order. */
    var sent: seq<ClientMessage>
    var delivered: seq<Delivery>

    /** The fields as a model state. */
    function View(): Client
      reads this
    {
      Client(urlAccepted, sockets, ws, token, timers, heartbeatInterval, reconnectInterval,
             reconnectAttempts, authenticated, status,
             Listeners(onOpenCallbacks, onCloseCallbacks, onErrorCallbacks, onMessageCallbacks,
                       onAuthSuccessCallbacks, onAuthFailureCallbacks, onResponseCallbacks,
                       onStatusChangeCallbacks),
             sent, delivered)
    }

    ghost predicate Valid()
      reads this
    {
      Inv(View())
    }

    constructor(urlAccepted: bool)
      ensures View() == Initial(urlAccepted) && Valid()
    {
      this.urlAccepted := urlAccepted;
      sockets := [];
      ws := None;
      token := None;
      timers := NoTimers;
      heartbeatInterval := None;
      reconnectInterval := None;
      reconnectAttempts := 0;
      authenticated := false;
      status := Disconnected;
      onOpenCallbacks := [];
      onCloseCallbacks := [];
      onErrorCallbacks := [];
      onMessageCallbacks := [];
      onAuthSuccessCallbacks := [];
      onAuthFailureCallbacks := [];
      onResponseCallbacks := [];
      onStatusChangeCallbacks := [];
      sent := [];
      delivered := [];
      new;
      InitialInv(urlAccepted);
    }

    // ------------------------------------------------------------- helpers

    /** `list.forEach(callback => callback(n))` over the list for `t`. */
    method Notify(t: Topic, n: Notice)
      modifies this
      ensures View() == BuddyBotModel.Notify(old(View()), t, n)
    {
      var ls := Registered(View().listeners, t);
      var d := delivered;
      var i := 0;
      while i < |ls|
        invariant 0 <= i <= |ls|
        invariant d == old(delivered) + Fanout(ls[..i], n)
      {
        assert ls[..i + 1][..i] == ls[..i];
        d := d + [Delivery(ls[i], n)];
        i := i + 1;
      }
      assert ls[..i] == ls;
      delivered := d;
    }

    method UpdateStatus(s: Status)
      modifies this
      ensures View() == BuddyBotModel.UpdateStatus(old(View()), s)
    {
      if status != s {
        status := s;
        Notify(StatusChangeEvents, StatusChanged(s));
      }
    }

    method SendMessage(m: ClientMessage) returns (ok: bool)
      modifies this
      ensures (View(), ok) == BuddyBotModel.SendMessage(old(View()), m)
    {
      ok := IsConnected();
      if ok {
        sent := sent + [m];
      }
    }

    method StopHeartbeat()
      modifies this
      ensures View() == BuddyBotModel.StopHeartbeat(old(View()))
    {
      if heartbeatInterval.Some? {
        timers := ClearTimer(timers, heartbeatInterval.value);
        heartbeatInterval := None;
      }
    }

    method StartHeartbeat()
      modifies this
      ensures View() == BuddyBotModel.StartHeartbeat(old(View()))
    {
      StopHeartbeat();
      heartbeatInterval := Some(timers.next);
      timers := SetInterval(timers, HeartbeatTimeoutMs);
    }

    method ScheduleReconnect()
      modifies this
      ensures View() == BuddyBotModel.ScheduleReconnect(old(View()))
    {
      if reconnectInterval.Some? {
        timers := ClearTimer(timers, reconnectInterval.value);
      }
      reconnectInterval := Some(timers.next);
      timers := SetTimeout(timers, ReconnectTimeoutMs);
    }

    // ------------------------------------------------------ public methods

    method Connect() returns (outcome: ConnectOutcome)
      modifies this
      ensures (View(), outcome) == BuddyBotModel.Connect(old(View()))
      ensures old(Valid()) ==> Valid()
    {
      if ws.Some? && status == Connected {
        outcome := Resolved;
      } else {
        UpdateStatus(Connecting);
        if urlAccepted {
          var k := |sockets|;
          sockets := sockets + [CONNECTING];
          ws := Some(k);
          outcome := Pending(k);
        } else {
          UpdateStatus(Error);
          ScheduleReconnect();
          outcome := Rejected;
        }
      }
      if old(Valid()) {
        ConnectPreservesInv(old(View()));
      }
    }

    method Authenticate(t: string)
      modifies this
      ensures View() == BuddyBotModel.Authenticate(old(View()), t)
      ensures old(Valid()) ==> Valid()
    {
      token := Some(t);
      var _ := SendMessage(Auth(t));
    }

    method SendQuery(text: string)
      requires Valid()
      modifies this
      ensures View() == BuddyBotModel.SendQuery(old(View()), text) && Valid()
    {
      if authenticated {
        var _ := SendMessage(Query(text));
      }
    }

    method Disconnect()
      requires Valid()
      modifies this
      ensures View() == BuddyBotModel.Disconnect(old(View())) && Valid()
    {
      StopHeartbeat();
      CancelReconnect();
      CloseIfConnected();
      ws := None;
      authenticated := false;
      UpdateStatus(Disconnected);
      DisconnectPreservesInv(old(View()));
    }

    method CancelReconnect()
      modifies this
      ensures View() == BuddyBotModel.CancelReconnect(old(View()))
    {
      if reconnectInterval.Some? {
        timers := ClearTimer(timers, reconnectInterval.value);
        reconnectInterval := None;
      }
    }

    method CloseIfConnected()
      modifies this
      ensures View() == BuddyBotModel.CloseIfConnected(old(View()))
    {
      var open := IsConnected();
      if open {
        sockets := sockets[ws.value := CLOSING];
      }
    }

    method IsConnected() returns (b: bool)
      ensures b == BuddyBotModel.IsConnected(View())
      ensures b ==> ws.Some? && sockets[ws.value] == OPEN
    {
      b := ws.Some? && ws.value < |sockets| && sockets[ws.value] == OPEN;
    }

    method IsAuthenticated() returns (b: bool)
      ensures b == authenticated
    {
      b := authenticated;
    }

    method GetStatus() returns (s: Status)
      ensures s == status
    {
      s := status;
    }

    method OnOpen(cb: ListenerId)
      requires Valid()
      modifies this
      ensures View() == Subscribe(old(View()), OpenEvents, cb) && Valid()
    {
      onOpenCallbacks := onOpenCallbacks + [cb];
    }

    method OnClose(cb: ListenerId)
      requires Valid()
      modifies this
      ensures View() == Subscribe(old(View()), CloseEvents, cb) && Valid()
    {
      onCloseCallbacks := onCloseCallbacks + [cb];
    }

    method OnError(cb: ListenerId)
      requires Valid()
      modifies this
      ensures View() == Subscribe(old(View()), ErrorEvents, cb) && Valid()
    {
      onErrorCallbacks := onErrorCallbacks + [cb];
    }

    method OnMessage(cb: ListenerId)
      requires Valid()
      modifies this
      ensures View() == Subscribe(old(View()), MessageEvents, cb) && Valid()
    {
      onMessageCallbacks := onMessageCallbacks + [cb];
    }

    method OnAuthSuccess(cb: ListenerId)
      requires Valid()
      modifies this
      ensures View() == Subscribe(old(View()), AuthSuccessEvents, cb) && Valid()
    {
      onAuthSuccessCallbacks := onAuthSuccessCallbacks + [cb];
    }

    method OnAuthFailure(cb: ListenerId)
      requires Valid()
      modifies this
      ensures View() == Subscribe(old(View()), AuthFailureEvents, cb) && Valid()
    {
      onAuthFailureCallbacks := onAuthFailureCallbacks + [cb];
    }

    method OnResponse(cb: ListenerId)
      requires Valid()
      modifies this
      ensures View() == Subscribe(old(View()), ResponseEvents, cb) && Valid()
    {
      onResponseCallbacks := onResponseCallbacks + [cb];
    }

    method OnStatusChange(cb: ListenerId)
      requires Valid()
      modifies this
      ensures View() == Subscribe(old(View()), StatusChangeEvents, cb) && Valid()
    {
      onStatusChangeCallbacks := onStatusChangeCallbacks + [cb];
    }

    // ------------------------------------------------ socket and timer events

    /** The `onopen` handler of socket `k`. */
    method HandleOpen(k: nat)
      requires Valid() && k < |sockets| && sockets[k] == CONNECTING
      modifies this
      ensures View() == SocketOpened(old(View()), k) && Valid()
    {
      MarkOpened(k);
      StartHeartbeat();
      Notify(OpenEvents, Opened);
      if token.Some? && token.value != "" {
        Authenticate(token.value);
      }
      OpenedPreservesInv(old(View()), k);
    }

    /** `onopen` up to the heartbeat. */
    method MarkOpened(k: nat)
      requires k < |sockets|
      modifies this
      ensures View() == BuddyBotModel.MarkOpened(old(View()), k)
    {
      sockets := sockets[k := OPEN];
      reconnectAttempts := 0;
      UpdateStatus(Connected);
    }

    /** The `onclose` handler of socket `k`. */
    method HandleClose(k: nat, wasClean: bool)
      requires Valid() && k < |sockets| && sockets[k] != CLOSED
      modifies this
      ensures View() == SocketClosed(old(View()), k, wasClean) && Valid()
    {
      MarkClosed(k, wasClean);
      if !wasClean && reconnectAttempts < MaxReconnectAttempts {
        ScheduleReconnect();
      }
      ClosedPreservesInv(old(View()), k, wasClean);
    }

    /** `onclose` up to the reconnect decision. */
    method MarkClosed(k: nat, wasClean: bool)
      requires k < |sockets|
      modifies this
      ensures View() == BuddyBotModel.MarkClosed(old(View()), k, wasClean)
    {
      sockets := sockets[k := CLOSED];
      StopHeartbeat();
      authenticated := false;
      UpdateStatus(Disconnected);
      Notify(CloseEvents, Closed(wasClean));
    }

    /** The `onerror` handler of socket `k`. */
    method HandleError(k: nat)
      requires Valid() && k < |sockets| && sockets[k] != CLOSED
      modifies this
      ensures View() == SocketErrored(old(View())) && Valid()
    {
      UpdateStatus(Error);
      Notify(ErrorEvents, Failed);
    }

    /** The switch of the `onmessage` handler. */
    method HandleServerMessage(m: ServerMessage)
      modifies this
      ensures View() == BuddyBotModel.HandleServerMessage(old(View()), m)
    {
      match m
      case AuthResult(success, error) =>
        if success {
          authenticated := true;
          UpdateStatus(Authenticated);
          Notify(AuthSuccessEvents, AuthSucceeded);
        } else {
          authenticated := false;
          Notify(AuthFailureEvents, AuthFailed(error));
        }
      case Response(text) =>
        Notify(ResponseEvents, Answered(text));
      case ServerPing =>
        var _ := SendMessage(Pong);
      case _ =>
    }

    /** The `onmessage` handler of socket `k`. */
    method HandleMessage(k: nat, data: Inbound)
      requires Valid() && k < |sockets| && sockets[k] in {OPEN, CLOSING}
      modifies this
      ensures View() == SocketMessage(old(View()), data) && Valid()
    {
      match data
      case Malformed =>
      case Parsed(m) =>
        HandleServerMessage(m);
        Notify(MessageEvents, Received(m));
    }

    /** The timer with handle `h` fires: the heartbeat's callback or the
        reconnect timeout's. */
    method FireTimer(h: nat)
      requires Valid()
      modifies this
      ensures View() == TimerFired(old(View()), h) && Valid()
    {
      if h in timers.intervals {
        var open := IsConnected();
        if open {
          var _ := SendMessage(Ping);
        }
      } else if h in timers.timeouts {
        Retry(h);
      }
      TimerPreservesInv(old(View()), h);
    }

    /** The reconnect timeout's callback: one more attempt, then `connect()`. */
    method Retry(h: nat)
      requires h in timers.timeouts
      modifies this
      ensures View() == BuddyBotModel.Connect(old(View()).(timers := TimeoutFired(old(timers), h),
                                                            reconnectAttempts := old(reconnectAttempts) + 1)).0
    {
      timers := TimeoutFired(timers, h);
      reconnectAttempts := reconnectAttempts + 1;
      var _ := Connect();
    }
  }
}
