/** The browser's real-time event channel: one module-level socket handle,
    the phone it was opened for, a reconnect armed by every close event, and
    the dispatch of decoded frames to the page's callbacks.

    Time is not modelled: a scheduled reconnect is a pending `Timer` that the
    environment fires later (`FireTimer`), and socket events (open, close,
    error, frame) are methods the environment calls on a socket it created. */
module Channel {
  import opened Wrappers

  /** Delay before a reconnect attempt, in milliseconds. */
  const ReconnectDelayMs: nat := 5000

  /** The optional callbacks a caller may pass in its handler object. */
  datatype Handler =
    | OnOpen | OnClose | OnError
    | OnAuthFailure | OnQR | OnReady | OnMessage | OnMessageAck | OnChatUpdate

  /** A callback invocation with its argument; `P` is the payload type. */
  datatype Call<P> =
    | OpenReported
    | CloseReported
    | ErrorReported
    | AuthFailed
    | QrRefreshed(qr: Option<string>)
    | Ready
    | MessageArrived(payload: Option<P>)
    | AckArrived(payload: Option<P>)
    | ChatUpdated(payload: Option<P>)

  function HandlerOf<P>(c: Call<P>): Handler {
    match c
    case OpenReported => OnOpen
    case CloseReported => OnClose
    case ErrorReported => OnError
    case AuthFailed => OnAuthFailure
    case QrRefreshed(_) => OnQR
    case Ready => OnReady
    case MessageArrived(_) => OnMessage
    case AckArrived(_) => OnMessageAck
    case ChatUpdated(_) => OnChatUpdate
  }

  /** The wire event names and the callback each one is routed to. */
  function EventHandler(event: string): Option<Handler> {
    if event == "auth_failure" then Some(OnAuthFailure)
    else if event == "qr" then Some(OnQR)
    else if event == "ready" then Some(OnReady)
    else if event == "message" || event == "message.any" then Some(OnMessage)
    else if event == "message.ack" then Some(OnMessageAck)
    else if event == "chat.update" then Some(OnChatUpdate)
    else None
  }

  /** A decoded frame: `{event, payload, qr}`; an absent field is `None`. */
  datatype Envelope<P> = Envelope(event: Option<string>, payload: Option<P>, qr: Option<string>)

  /** What `JSON.parse` made of a raw frame. A JSON value that is not an
      object reads as an envelope with every field absent. */
  datatype Frame<P> = Unparsable | NullValue | Value(env: Envelope<P>)

  /** The argument a call takes from the envelope: `qr` for a QR refresh,
      `payload` for message, ack and chat-update events. */
  predicate ArgumentFrom<P(==)>(c: Call<P>, env: Envelope<P>) {
    match c
    case QrRefreshed(q) => q == env.qr
    case MessageArrived(p) => p == env.payload
    case AckArrived(p) => p == env.payload
    case ChatUpdated(p) => p == env.payload
    case _ => true
  }

  /** The dispatcher: the routed callback runs only when the event is known
      and the caller supplied that callback; otherwise nothing runs. */
  function Dispatch<P(==)>(env: Envelope<P>, handlers: set<Handler>): (r: Option<Call<P>>)
    ensures r.Some? <==> env.event.Some? && EventHandler(env.event.value).Some?
                         && EventHandler(env.event.value).value in handlers
    ensures r.Some? ==> HandlerOf(r.value) == EventHandler(env.event.value).value
                        && ArgumentFrom(r.value, env)
  {
    if env.event.None? then None
    else
      var e := env.event.value;
      if e == "auth_failure" then (if OnAuthFailure in handlers then Some(AuthFailed) else None)
      else if e == "qr" then (if OnQR in handlers then Some(QrRefreshed(env.qr)) else None)
      else if e == "ready" then (if OnReady in handlers then Some(Ready) else None)
      else if e == "message" || e == "message.any" then
        (if OnMessage in handlers then Some(MessageArrived(env.payload)) else None)
      else if e == "message.ack" then (if OnMessageAck in handlers then Some(AckArrived(env.payload)) else None)
      else if e == "chat.update" then (if OnChatUpdate in handlers then Some(ChatUpdated(env.payload)) else None)
      else None
  }

  /** Both spellings of the message event reach the same callback with the
      same payload. */
  lemma MessageAliases<P>(payload: Option<P>, qr: Option<string>, handlers: set<Handler>)
    ensures Dispatch(Envelope(Some("message"), payload, qr), handlers)
         == Dispatch(Envelope(Some("message.any"), payload, qr), handlers)
    ensures OnMessage in handlers ==>
              Dispatch(Envelope(Some("message.any"), payload, qr), handlers) == Some(MessageArrived(payload))
  {
  }

  /** The callback a decoded frame triggers; a frame that fails to parse, or
      parses to `null` (whose `.event` throws), is logged and dropped. */
  function OnFrame<P(==)>(frame: Frame<P>, handlers: set<Handler>): (r: Option<Call<P>>)
    ensures !frame.Value? ==> r.None?
    ensures frame.Value? ==> r == Dispatch(frame.env, handlers)
  {
    match frame
    case Value(env) => Dispatch(env, handlers)
    case _ => None
  }

  datatype ReadyState = Connecting | Open | Closing | Closed

  predicate Live(s: ReadyState) {
    s == Connecting || s == Open
  }

  /** A socket the page created: its URL, the handler set its callbacks
      close over, and its ready state. */
  datatype Socket = Socket(url: string, handlers: set<Handler>, state: ReadyState)

  /** A pending reconnect, with the handler set the close callback captured. */
  datatype Timer = Reconnect(delayMs: nat, handlers: set<Handler>)

  /** The positions of the sockets still connecting or open. */
  function LiveIndices(sockets: seq<Socket>): set<nat> {
    set i: nat | i < |sockets| && Live(sockets[i].state)
  }

  /** Number of sockets still connecting or open, tracked or not. */
  function LiveCount(sockets: seq<Socket>): (n: nat)
    ensures n == |LiveIndices(sockets)|
  {
    if sockets == [] then 0
    else
      var init := sockets[..|sockets| - 1];
      var last := |sockets| - 1;
      assert LiveIndices(sockets) ==
             LiveIndices(init) + (if Live(sockets[last].state) then {last} else {});
      LiveCount(init) + (if Live(sockets[last].state) then 1 else 0)
  }

  /** The module state of the event channel. `ws` is the handle (an index
      into `sockets`, every socket ever created); `timers` are pending
      reconnects in scheduling order; `calls` is every callback run so far. */
  class Client<P(==)> {
    const base: string
    var ws: Option<nat>
    var currentPhone: string
    var sockets: seq<Socket>
    var timers: seq<Timer>
    var calls: seq<Call<P>>

    /** The handle, when set, names a socket that is connecting or open. */
    ghost predicate Valid()
      reads this
    {
      ws.Some? ==> ws.value < |sockets| && Live(sockets[ws.value].state)
    }

    constructor (base: string)
      ensures Valid()
      ensures this.base == base && ws.None? && currentPhone == ""
      ensures sockets == [] && timers == [] && calls == []
    {
      this.base := base;
      ws := None;
      currentPhone := "";
      sockets := [];
      timers := [];
      calls := [];
    }

    /** Opens `base/phone` unless a handle already exists. */
    method Connect(phone: string, handlers: set<Handler>)
      requires Valid()
      modifies this
      ensures Valid()
      ensures old(ws).Some? ==>
                ws == old(ws) && currentPhone == old(currentPhone) && sockets == old(sockets)
      ensures old(ws).None? ==>
                && currentPhone == phone
                && sockets == old(sockets) + [Socket(base + "/" + phone, handlers, Connecting)]
                && ws == Some(|old(sockets)|)
      ensures timers == old(timers) && calls == old(calls)
    {
      if ws.Some? {
        return;
      }
      currentPhone := phone;
      ws := Some(|sockets|);
      sockets := sockets + [Socket(base + "/" + phone, handlers, Connecting)];
    }

    /** Closes and forgets the current socket; its close callback stays
        attached and will fire later. */
    method Disconnect()
      requires Valid()
      modifies this
      ensures Valid() && ws.None?
      ensures old(ws).None? ==> sockets == old(sockets)
      ensures old(ws).Some? ==>
                sockets == old(sockets)[old(ws).value := old(sockets)[old(ws).value].(state := Closing)]
      ensures currentPhone == old(currentPhone) && timers == old(timers) && calls == old(calls)
    {
      if ws.Some? {
        var id := ws.value;
        sockets := sockets[id := sockets[id].(state := Closing)];
        ws := None;
      }
    }

    /** Whether the handle exists and its socket is open. */
    method IsConnected() returns (b: bool)
      requires Valid()
      ensures b <==> ws.Some? && sockets[ws.value].state == Open
    {
      b := ws.Some? && sockets[ws.value].state == Open;
    }

    /** The browser reports that socket `id` finished opening. */
    method SocketOpened(id: nat)
      requires Valid() && id < |sockets| && sockets[id].state == Connecting
      modifies this
      ensures Valid()
      ensures sockets == old(sockets)[id := old(sockets)[id].(state := Open)]
      ensures calls == old(calls) + (if OnOpen in old(sockets)[id].handlers then [OpenReported] else [])
      ensures ws == old(ws) && currentPhone == old(currentPhone) && timers == old(timers)
    {
      sockets := sockets[id := sockets[id].(state := Open)];
      if OnOpen in sockets[id].handlers {
        calls := calls + [OpenReported];
      }
    }

    /** The browser reports that socket `id` closed. Its close callback
        clears the module handle, whichever socket that handle names, runs
        `onClose`, and schedules exactly one reconnect. */
    method SocketClosed(id: nat)
      requires Valid() && id < |sockets| && sockets[id].state != Closed
      modifies this
      ensures Valid() && ws.None?
      ensures sockets == old(sockets)[id := old(sockets)[id].(state := Closed)]
      ensures calls == old(calls) + (if OnClose in old(sockets)[id].handlers then [CloseReported] else [])
      ensures timers == old(timers) + [Reconnect(ReconnectDelayMs, old(sockets)[id].handlers)]
      ensures currentPhone == old(currentPhone)
    {
      var h := sockets[id].handlers;
      sockets := sockets[id := sockets[id].(state := Closed)];
      ws := None;
      if OnClose in h {
        calls := calls + [CloseReported];
      }
      timers := timers + [Reconnect(ReconnectDelayMs, h)];
    }

    /** The browser reports an error on socket `id`: only `onError` runs. */
    method SocketErrored(id: nat)
      requires Valid() && id < |sockets| && sockets[id].state != Closed
      modifies this
      ensures Valid()
      ensures calls == old(calls) + (if OnError in old(sockets)[id].handlers then [ErrorReported] else [])
      ensures ws == old(ws) && sockets == old(sockets) && timers == old(timers)
      ensures currentPhone == old(currentPhone)
    {
      if OnError in sockets[id].handlers {
        calls := calls + [ErrorReported];
      }
    }

    /** A frame arrives on open socket `id` and is dispatched with that
        socket's handlers. */
    method FrameReceived(id: nat, frame: Frame<P>)
      requires Valid() && id < |sockets| && sockets[id].state == Open
      modifies this
      ensures Valid()
      ensures var c := OnFrame(frame, old(sockets)[id].handlers);
              calls == old(calls) + (if c.Some? then [c.value] else [])
      ensures ws == old(ws) && sockets == old(sockets) && timers == old(timers)
      ensures currentPhone == old(currentPhone)
    {
      var c := OnFrame(frame, sockets[id].handlers);
      if c.Some? {
        calls := calls + [c.value];
      }
    }

    /** The oldest pending reconnect fires (all share one delay, so they fire
        in scheduling order): it connects with the phone stored at firing
        time and the handlers it captured. */
    method FireTimer()
      requires Valid() && timers != []
      modifies this
      ensures Valid()
      ensures timers == old(timers)[1..] && calls == old(calls)
      ensures old(ws).Some? ==> ws == old(ws) && sockets == old(sockets)
      ensures old(ws).None? ==>
                && ws == Some(|old(sockets)|)
                && sockets == old(sockets) + [Socket(base + "/" + old(currentPhone), old(timers)[0].handlers, Connecting)]
      ensures currentPhone == old(currentPhone)
    {
      var t := timers[0];
      timers := timers[1..];
      Connect(currentPhone, t.handlers);
    }
  }

  /** Every callback the page registers. */
  const AllHandlers: set<Handler> :=
    {OnOpen, OnClose, OnError, OnAuthFailure, OnQR, OnReady, OnMessage, OnMessageAck, OnChatUpdate}

  /** Disconnecting locally does not stop reconnection: the close event of
      the socket just closed arms a reconnect, which reopens the channel for
      the same phone. */
  method LocalDisconnectReconnects() returns (reconnected: bool, url: string)
    ensures reconnected && url == "ws://host/ws/5511999999999"
  {
    var c := new Client<int>("ws://host/ws");
    c.Connect("5511999999999", AllHandlers);
    c.SocketOpened(0);
    c.Disconnect();
    c.SocketClosed(0);
    assert |c.timers| == 1 && c.ws.None?;
    assert c.base + "/" + c.currentPhone == "ws://host/ws/5511999999999";
    c.FireTimer();
    reconnected := c.ws == Some(1);
    url := c.sockets[1].url;
  }

  /** Disconnecting and connecting again before the first socket has
      closed: the first socket is closing, the second open and tracked. */
  method ReopenBeforeClose(u: string) returns (c: Client<int>)
    requires u == "ws://host/ws/5511999999999"
    ensures fresh(c) && c.Valid()
    ensures c.sockets == [Socket(u, AllHandlers, Closing), Socket(u, AllHandlers, Open)]
    ensures c.ws == Some(1) && c.timers == [] && c.currentPhone == "5511999999999" && c.base == "ws://host/ws"
  {
    c := new Client<int>("ws://host/ws");
    c.Connect("5511999999999", AllHandlers);
    assert c.sockets[0].url == u;
    assert c.sockets == [Socket(u, AllHandlers, Connecting)];
    c.SocketOpened(0);
    assert c.sockets == [Socket(u, AllHandlers, Open)];
    c.Disconnect();
    assert c.sockets == [Socket(u, AllHandlers, Closing)];
    c.Connect("5511999999999", AllHandlers);
    c.SocketOpened(1);
  }

  /** A late close event from a socket closed by `Disconnect` clears the
      handle of the socket opened after it: the page then reports itself not
      connected while that socket is open, and the armed reconnect opens a
      second live socket beside it. */
  method StaleCloseForgetsNewerSocket() returns (connected: bool, live: nat)
    ensures !connected && live == 2
  {
    var u := "ws://host/ws/5511999999999";
    var c := ReopenBeforeClose(u);
    c.SocketClosed(0);
    assert c.sockets == [Socket(u, AllHandlers, Closed), Socket(u, AllHandlers, Open)];
    connected := c.IsConnected();
    assert c.base + "/" + c.currentPhone == u;
    c.FireTimer();
    var s := c.sockets;
    assert s == [Socket(u, AllHandlers, Closed), Socket(u, AllHandlers, Open), Socket(u, AllHandlers, Connecting)];
    assert s[..2] == [s[0], s[1]] && s[..2][..1] == [s[0]] && [s[0]][..0] == [];
    assert LiveCount([s[0]]) == 0;
    assert LiveCount([s[0], s[1]]) == 1;
    live := LiveCount(s);
  }
}
