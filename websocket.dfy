/** The reconnecting socket wrapper. Browser events (a socket opens, fails, closes, a
    frame arrives, a reconnect timer fires) are methods the environment calls; every
    socket the wrapper ever created stays in `sockets`, because an old socket keeps the
    `onopen`/`onclose` handlers that point back at the wrapper. */
module WebSocket {
  import opened Wrappers
  import Json

  /** `WebSocket.readyState`. */
  datatype ReadyState = Connecting | Open | Closing | Closed

  /** The promise a call of `connect` returned: settled by the first `onopen`
      (resolve) or `onerror` (reject) of the socket it created. */
  datatype Settlement = Pending | Resolved | Rejected

  /** Identifies the callback a caller passed to `onMessage`. */
  type HandlerId = nat

  /** A browser socket: its state and the message handler installed on it. */
  datatype Socket = Socket(readyState: ReadyState, onmessage: Option<HandlerId>, promise: Settlement)

  /** A parsed frame handed to a callback. */
  datatype Delivery = Delivery(handler: HandlerId, data: Json.Value)

  /** How a call of `connect` began: a new socket (its index), or the WebSocket
      constructor threw and the returned promise was rejected at once. */
  datatype ConnectStart = Started(index: nat) | ConstructorThrew

  /** "WebSocket is not connected". */
  datatype SendError = NotConnected

  const MAX_RECONNECT_ATTEMPTS: nat := 5
  const RECONNECT_DELAY: nat := 1000

  /** The delays of the reconnects scheduled since the last successful open, when
      there have been `n` of them: `RECONNECT_DELAY * 1, …, RECONNECT_DELAY * n`. */
  function Backoff(n: nat): seq<nat>
  {
    if n == 0 then [] else Backoff(n - 1) + [RECONNECT_DELAY * n]
  }

  lemma {:induction false} BackoffIsLinear(n: nat)
    ensures |Backoff(n)| == n
    ensures forall i :: 0 <= i < n ==> Backoff(n)[i] == RECONNECT_DELAY * (i + 1)
  {
    if n > 0 {
      BackoffIsLinear(n - 1);
    }
  }

  /** Between two successful opens the delays grow strictly and stay within
      1000 … 5000 ms. */
  lemma BackoffIncreasingAndBounded(n: nat)
    requires n <= MAX_RECONNECT_ATTEMPTS
    ensures |Backoff(n)| == n
    ensures forall i, j :: 0 <= i < j < n ==> Backoff(n)[i] < Backoff(n)[j]
    ensures forall i :: 0 <= i < n ==> 1000 <= Backoff(n)[i] <= 5000
  {
    BackoffIsLinear(n);
  }

  /** A socket after `close()`: a connecting or open socket starts closing; a closing or
      closed one is left as it is. */
  function CloseRequested(s: Socket): (t: Socket)
    ensures t.onmessage == s.onmessage && t.promise == s.promise
    ensures t.readyState == (if s.readyState in {Connecting, Open} then Closing else s.readyState)
  {
    if s.readyState == Connecting || s.readyState == Open then s.(readyState := Closing) else s
  }

  class WebSocketService {
    const url: string
    /** Whether `new WebSocket(url)` accepts the URL (it throws for a malformed one). */
    const urlAccepted: bool
    /** `JSON.parse`, partial: `None` where it throws. */
    const parse: string -> Option<Json.Value>
    /** `JSON.stringify`. */
    const serialise: Json.Value -> string
    const maxReconnectAttempts: nat
    const reconnectDelay: nat

    /** Every socket created so far, in creation order. */
    var sockets: seq<Socket>
    /** `this.socket`: the index of the current socket, or null. */
    var socket: Option<nat>
    var reconnectAttempts: nat
    /** Delays of the reconnect timers scheduled and not yet fired. */
    var pendingReconnects: seq<nat>
    /** Delays of the reconnects scheduled since the last successful open. */
    ghost var delaysSinceReset: seq<nat>
    /** Text written to a socket by `send`. */
    var transmitted: seq<string>
    /** Parsed frames handed to callbacks, in arrival order. */
    var delivered: seq<Delivery>

    ghost predicate Valid()
      reads this
    {
      maxReconnectAttempts == MAX_RECONNECT_ATTEMPTS && reconnectDelay == RECONNECT_DELAY
      && (socket.Some? ==> socket.value < |sockets|)
      && reconnectAttempts <= maxReconnectAttempts
      && delaysSinceReset == Backoff(reconnectAttempts)
      && forall i :: 0 <= i < |pendingReconnects| ==>
           1000 <= pendingReconnects[i] <= 5000 && pendingReconnects[i] % 1000 == 0
    }

    constructor (url: string, urlAccepted: bool, parse: string -> Option<Json.Value>, serialise: Json.Value -> string)
      ensures Valid()
      ensures this.url == url && this.urlAccepted == urlAccepted
      ensures this.parse == parse && this.serialise == serialise
      ensures sockets == [] && socket.None? && reconnectAttempts == 0
      ensures pendingReconnects == [] && transmitted == [] && delivered == []
    {
      this.url := url;
      this.urlAccepted := urlAccepted;
      this.parse := parse;
      this.serialise := serialise;
      maxReconnectAttempts := MAX_RECONNECT_ATTEMPTS;
      reconnectDelay := RECONNECT_DELAY;
      sockets := [];
      socket := None;
      reconnectAttempts := 0;
      pendingReconnects := [];
      delaysSinceReset := [];
      transmitted := [];
      delivered := [];
    }

    /** `isConnected`: a current socket exists and is open. */
    function IsConnected(): (r: bool)
      reads this
      requires Valid()
      ensures r <==> socket.Some? && sockets[socket.value].readyState == Open
    {
      match socket
      case None => false
      case Some(k) => sockets[k].readyState == Open
    }

    /** `connect`: always creates a fresh socket with no message handler and makes it
        the current one, whatever the current socket was; the old socket is neither
        closed nor forgotten by the browser. */
    method Connect() returns (r: ConnectStart)
      requires Valid()
      modifies this`sockets, this`socket
      ensures Valid()
      ensures !urlAccepted ==> r == ConstructorThrew && sockets == old(sockets) && socket == old(socket)
      ensures urlAccepted ==>
        r == Started(|old(sockets)|)
        && sockets == old(sockets) + [Socket(Connecting, None, Pending)]
        && socket == Some(|old(sockets)|)
    {
      if !urlAccepted {
        return ConstructorThrew;
      }
      sockets := sockets + [Socket(Connecting, None, Pending)];
      socket := Some(|sockets| - 1);
      r := Started(|sockets| - 1);
    }

    /** `onopen` of socket `k`: the counter goes back to 0 and the promise resolves. */
    method SocketOpened(k: nat)
      requires Valid() && k < |sockets| && sockets[k].readyState == Connecting
      modifies this`sockets, this`reconnectAttempts, this`delaysSinceReset
      ensures Valid()
      ensures reconnectAttempts == 0
      ensures sockets == old(sockets)[k := Socket(Open, old(sockets[k].onmessage),
        if old(sockets[k].promise) == Pending then Resolved else old(sockets[k].promise))]
    {
      var s := sockets[k];
      sockets := sockets[k := Socket(Open, s.onmessage, if s.promise == Pending then Resolved else s.promise)];
      reconnectAttempts := 0;
      delaysSinceReset := [];
    }

    /** `onerror` of socket `k`: rejects the promise if it is still pending. */
    method SocketErrored(k: nat)
      requires Valid() && k < |sockets|
      modifies this`sockets
      ensures Valid()
      ensures sockets == old(sockets)[k := old(sockets[k]).(promise :=
        if old(sockets[k].promise) == Pending then Rejected else old(sockets[k].promise))]
    {
      var s := sockets[k];
      sockets := sockets[k := s.(promise := if s.promise == Pending then Rejected else s.promise)];
    }

    /** `onclose` of socket `k`, current or not: the socket is closed and a reconnect is
        scheduled through `handleReconnect`. */
    method SocketClosed(k: nat)
      requires Valid() && k < |sockets| && sockets[k].readyState != Closed
      modifies this`sockets, this`reconnectAttempts, this`pendingReconnects, this`delaysSinceReset
      ensures Valid()
      ensures sockets == old(sockets)[k := old(sockets[k]).(readyState := Closed)]
      ensures old(reconnectAttempts) < maxReconnectAttempts ==>
        reconnectAttempts == old(reconnectAttempts) + 1
        && pendingReconnects == old(pendingReconnects) + [reconnectDelay * reconnectAttempts]
      ensures old(reconnectAttempts) == maxReconnectAttempts ==>
        reconnectAttempts == old(reconnectAttempts) && pendingReconnects == old(pendingReconnects)
    {
      sockets := sockets[k := sockets[k].(readyState := Closed)];
      HandleReconnect();
    }

    /** `handleReconnect`: below the ceiling, bump the counter and schedule a reconnect
        after `reconnectDelay * reconnectAttempts` ms; at the ceiling do nothing. The
        method is private to the wrapper: only `SocketClosed` calls it. */
    method HandleReconnect()
      requires Valid()
      modifies this`reconnectAttempts, this`pendingReconnects, this`delaysSinceReset
      ensures Valid()
      ensures old(reconnectAttempts) < maxReconnectAttempts ==>
        reconnectAttempts == old(reconnectAttempts) + 1
        && pendingReconnects == old(pendingReconnects) + [reconnectDelay * reconnectAttempts]
        && delaysSinceReset == old(delaysSinceReset) + [reconnectDelay * reconnectAttempts]
      ensures old(reconnectAttempts) >= maxReconnectAttempts ==>
        reconnectAttempts == old(reconnectAttempts) && pendingReconnects == old(pendingReconnects)
        && delaysSinceReset == old(delaysSinceReset)
    {
      if reconnectAttempts < maxReconnectAttempts {
        reconnectAttempts := reconnectAttempts + 1;
        pendingReconnects := pendingReconnects + [reconnectDelay * reconnectAttempts];
        delaysSinceReset := delaysSinceReset + [reconnectDelay * reconnectAttempts];
      }
    }

    /** The `i`-th pending reconnect timer fires and calls `connect`; a rejection of its
        promise is only logged. */
    method TimerFired(i: nat) returns (r: ConnectStart)
      requires Valid() && i < |pendingReconnects|
      modifies this`pendingReconnects, this`sockets, this`socket
      ensures Valid()
      ensures pendingReconnects == old(pendingReconnects[..i] + pendingReconnects[i + 1..])
      ensures !urlAccepted ==> r == ConstructorThrew && sockets == old(sockets) && socket == old(socket)
      ensures urlAccepted ==>
        r == Started(|old(sockets)|)
        && sockets == old(sockets) + [Socket(Connecting, None, Pending)]
        && socket == Some(|old(sockets)|)
    {
      pendingReconnects := pendingReconnects[..i] + pendingReconnects[i + 1..];
      r := Connect();
    }

    /** `disconnect`: with a current socket, ask it to close and forget it; with none,
        do nothing. Pending reconnect timers stay scheduled, and the close event that
        follows still schedules one. */
    method Disconnect()
      requires Valid()
      modifies this`sockets, this`socket
      ensures Valid()
      ensures old(socket).None? ==> sockets == old(sockets) && socket.None?
      ensures old(socket).Some? ==>
        socket.None?
        && sockets == old(sockets)[old(socket.value) := CloseRequested(old(sockets[socket.value]))]
      ensures !IsConnected()
    {
      if socket.Some? {
        var k := socket.value;
        sockets := sockets[k := CloseRequested(sockets[k])];
        socket := None;
      }
    }

    /** `send`: only through an open current socket, and then exactly the serialised
        message; otherwise the error and nothing written. */
    method Send(message: Json.Value) returns (err: Option<SendError>)
      requires Valid()
      modifies this`transmitted
      ensures Valid()
      ensures err.None? <==> IsConnected()
      ensures err.None? ==> transmitted == old(transmitted) + [serialise(message)]
      ensures err.Some? ==> err == Some(NotConnected) && transmitted == old(transmitted)
    {
      if socket.Some? && sockets[socket.value].readyState == Open {
        transmitted := transmitted + [serialise(message)];
        err := None;
      } else {
        err := Some(NotConnected);
      }
    }

    /** `onMessage`: installs `callback` on the current socket, replacing its previous
        handler; without a current socket nothing is installed anywhere. */
    method OnMessage(callback: HandlerId)
      requires Valid()
      modifies this`sockets
      ensures Valid()
      ensures old(socket).None? ==> sockets == old(sockets)
      ensures old(socket).Some? ==>
        sockets == old(sockets)[old(socket.value) := old(sockets[socket.value]).(onmessage := Some(callback))]
    {
      if socket.Some? {
        var k := socket.value;
        sockets := sockets[k := sockets[k].(onmessage := Some(callback))];
      }
    }

    /** A text frame arrives on open socket `k`: if it has a handler and the text parses,
        the handler receives the parsed value; a frame that fails to parse is dropped. */
    method FrameArrived(k: nat, data: string)
      requires Valid() && k < |sockets| && sockets[k].readyState == Open
      modifies this`delivered
      ensures Valid()
      ensures sockets[k].onmessage.Some? && parse(data).Some? ==>
        delivered == old(delivered) + [Delivery(sockets[k].onmessage.value, parse(data).value)]
      ensures sockets[k].onmessage.None? || parse(data).None? ==> delivered == old(delivered)
    {
      if sockets[k].onmessage.Some? {
        var parsed := parse(data);
        if parsed.Some? {
          delivered := delivered + [Delivery(sockets[k].onmessage.value, parsed.value)];
        }
      }
    }
  }

  // ---------------------------------------------------------------- scenarios

  /** A server that refuses every connection: the wrapper retries after 1, 2, 3, 4 and
      5 seconds, and the close after the fifth retry schedules nothing more. */
  method ReconnectsGiveUp() returns (delays: seq<nat>, attempts: nat, pending: seq<nat>)
    ensures delays == [1000, 2000, 3000, 4000, 5000]
    ensures attempts == MAX_RECONNECT_ATTEMPTS && pending == []
  {
    var ws := new WebSocketService("ws://localhost:8000/ws", true, _ => None, _ => "");
    var started := ws.Connect();
    delays := [];
    var k: nat := 0;
    while k < 5
      invariant ws.Valid() && ws.urlAccepted
      invariant |ws.sockets| == k + 1 && ws.socket == Some(k) && ws.sockets[k].readyState == Connecting
      invariant ws.reconnectAttempts == k && ws.pendingReconnects == []
      invariant delays == Backoff(k)
    {
      var delay := RefusedRetry(ws, k);
      delays := delays + [delay];
      k := k + 1;
    }
    ws.SocketErrored(5);
    ws.SocketClosed(5);
    attempts, pending := ws.reconnectAttempts, ws.pendingReconnects;
    BackoffIsLinear(5);
  }

  /** One refused attempt of `ReconnectsGiveUp`: the connecting socket `k` errors and
      closes, a reconnect is scheduled after `delay` ms, and its timer installs socket
      `k + 1`. */
  method RefusedRetry(ws: WebSocketService, k: nat) returns (delay: nat)
    requires ws.Valid() && ws.urlAccepted && k < MAX_RECONNECT_ATTEMPTS
    requires |ws.sockets| == k + 1 && ws.socket == Some(k) && ws.sockets[k].readyState == Connecting
    requires ws.reconnectAttempts == k && ws.pendingReconnects == []
    modifies ws
    ensures ws.Valid()
    ensures |ws.sockets| == k + 2 && ws.socket == Some(k + 1) && ws.sockets[k + 1].readyState == Connecting
    ensures ws.reconnectAttempts == k + 1 && ws.pendingReconnects == []
    ensures delay == RECONNECT_DELAY * (k + 1)
  {
    ws.SocketErrored(k);
    ws.SocketClosed(k);
    delay := ws.pendingReconnects[0];
    var _ := ws.TimerFired(0);
  }

  /** `disconnect` does not stop reconnection: the close event of the socket it closed
      schedules a reconnect, whose timer installs a new socket that can open. */
  method DisconnectThenReconnect() returns (connectedAfterDisconnect: bool, connectedLater: bool)
    ensures !connectedAfterDisconnect && connectedLater
  {
    var ws := new WebSocketService("ws://localhost:8000/ws", true, _ => None, _ => "");
    var started := ws.Connect();
    ws.SocketOpened(0);
    ws.Disconnect();
    connectedAfterDisconnect := ws.IsConnected();
    ws.SocketClosed(0);
    started := ws.TimerFired(0);
    ws.SocketOpened(1);
    connectedLater := ws.IsConnected();
  }

  /** A handler registered before a reconnect stays on the old socket: frames on the new
      socket reach no callback until `onMessage` is called again. A frame that does not
      parse never reaches a callback. */
  method HandlerLostOnReconnect() returns (delivered: seq<Delivery>)
    ensures delivered == [Delivery(7, Json.Number(42.0))]
  {
    var parse := (text: string) => if text == "42" then Some(Json.Number(42.0)) else None;
    var ws := new WebSocketService("ws://localhost:8000/ws", true, parse, _ => "");
    var started := ws.Connect();
    ws.SocketOpened(0);
    ws.OnMessage(7);
    ws.FrameArrived(0, "42");
    ws.FrameArrived(0, "{");
    ws.SocketClosed(0);
    started := ws.TimerFired(0);
    ws.SocketOpened(1);
    ws.FrameArrived(1, "42");
    delivered := ws.delivered;
  }
}
