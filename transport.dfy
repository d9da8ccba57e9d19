/**
 * The socket wrapper of the web client (`useWebSocket`): one reference to the current browser
 * socket and one set of handler slots. Inbound string frames go to the JSON slot, every other frame
 * to the binary slot; sends are dropped unless the socket is open.
 */
module Transport {

  import opened Wrappers
  import Wav

  type Bytes = seq<Wav.byte>

  /** The browser socket's `readyState`. */
  datatype ReadyState = Connecting | Open | Closing | Closed

  /** What `close()` does to a socket's state: an opening or open socket starts closing, otherwise nothing. */
  function AfterClose(s: ReadyState): (r: ReadyState)
    ensures r == Closing || r == Closed
    ensures s == Closed ==> r == Closed
  {
    match s
    case Connecting => Closing
    case Open => Closing
    case Closing => Closing
    case Closed => Closed
  }

  /** The browser's socket object, reduced to its state and the binary frames it has put on the wire. */
  class Socket {
    const url: string
    var readyState: ReadyState
    var sent: seq<Bytes>

    /** `new WebSocket(url)`: the handshake has only begun. */
    constructor (url: string)
      ensures this.url == url && readyState == Connecting && sent == []
    {
      this.url := url;
      readyState := Connecting;
      sent := [];
    }

    /** The platform's `open` event. */
    method Opened()
      requires readyState == Connecting
      modifies this
      ensures readyState == Open && sent == old(sent)
    {
      readyState := Open;
    }

    /** The platform gave up on the connection (its `error` event before `open`). */
    method Failed()
      modifies this
      ensures readyState == Closed && sent == old(sent)
    {
      readyState := Closed;
    }

    /** The platform's `close` event: the socket is finally closed. */
    method Shut()
      modifies this
      ensures readyState == Closed && sent == old(sent)
    {
      readyState := Closed;
    }

    /** `close()`. */
    method Close()
      modifies this
      ensures readyState == AfterClose(old(readyState)) && sent == old(sent)
    {
      readyState := AfterClose(readyState);
    }

    /** `send(data)` on an open socket. */
    method Send(data: Bytes)
      requires readyState == Open
      modifies this
      ensures readyState == Open && sent == old(sent) + [data]
    {
      sent := sent + [data];
    }
  }

  /** Which of the three handler slots (`onJson`, `onBinary`, `onClose`) are filled. */
  datatype Handlers = Handlers(onJson: bool, onBinary: bool, onClose: bool)

  const NoHandlers: Handlers := Handlers(false, false, false)

  /** An inbound frame: a string, or binary data (`binaryType = 'arraybuffer'`). */
  datatype Frame = Text(raw: string) | Binary(data: Bytes)

  /**
   * Where `onmessage` sends a frame. `ParseThrows` is a string frame whose `JSON.parse` throws: the
   * exception is not caught, the handler is not called and nothing else happens.
   */
  datatype Delivery<J> = ToJson(value: J) | ToBinary(data: Bytes) | Dropped | ParseThrows

  /** The hook's state: `wsRef` and `handlersRef`. */
  class Connection {
    var socket: Socket?
    var handlers: Handlers

    constructor ()
      ensures socket == null && handlers == NoHandlers
    {
      socket := null;
      handlers := NoHandlers;
    }

    /**
     * `connect(url)`: the new socket is stored at once, replacing any earlier reference and before it
     * has opened; resolution (`open`) and rejection (`error`) are the socket's own events.
     */
    method Connect(url: string) returns (s: Socket)
      modifies this
      ensures fresh(s) && socket == s
      ensures s.url == url && s.readyState == Connecting && s.sent == []
      ensures handlers == old(handlers)
    {
      s := new Socket(url);
      socket := s;
    }

    /** `disconnect()`: closes the socket if there is one and clears the reference; a no-op otherwise. */
    method Disconnect()
      modifies this, socket
      ensures socket == null && handlers == old(handlers)
      ensures old(socket) != null ==>
        old(socket).readyState == AfterClose(old(socket.readyState)) && old(socket).sent == old(socket.sent)
    {
      if socket != null {
        socket.Close();
      }
      socket := null;
    }

    /** `sendBinary(data)`: forwarded only when a socket exists and is OPEN, silently dropped otherwise. */
    method SendBinary(data: Bytes)
      modifies socket
      ensures socket == old(socket)
      ensures socket != null ==> socket.readyState == old(socket.readyState)
      ensures socket != null ==>
        socket.sent == if old(socket.readyState) == Open then old(socket.sent) + [data] else old(socket.sent)
    {
      if socket != null && socket.readyState == Open {
        socket.Send(data);
      }
    }

    /** `setHandlers(h)`: the whole set is replaced; nothing of the earlier set survives. */
    method SetHandlers(h: Handlers)
      modifies this
      ensures handlers == h && socket == old(socket)
    {
      handlers := h;
    }

    /**
     * `onmessage`'s dispatch rule. The JSON slot is an optional call, so a string frame is parsed only
     * when that slot is filled; a missing slot makes the frame a silent no-op.
     */
    function Route<J>(frame: Frame, parse: string -> Option<J>): (r: Delivery<J>)
      reads this
      ensures r.ToJson? <==> frame.Text? && handlers.onJson && parse(frame.raw).Some?
      ensures r.ToJson? ==> r.value == parse(frame.raw).value
      ensures r.ParseThrows? <==> frame.Text? && handlers.onJson && parse(frame.raw).None?
      ensures r.ToBinary? <==> frame.Binary? && handlers.onBinary
      ensures r.ToBinary? ==> r.data == frame.data
    {
      match frame
      case Text(raw) =>
        if !handlers.onJson then Dropped
        else (match parse(raw) case Some(v) => ToJson(v) case None => ParseThrows)
      case Binary(data) =>
        if handlers.onBinary then ToBinary(data) else Dropped
    }

    /**
     * A `close` event on socket `s` (the current one or an earlier one: each socket's `onclose` reads
     * the current handler set). Returns whether the `onClose` slot is called.
     */
    method SocketClosed(s: Socket) returns (forward: bool)
      modifies s
      ensures forward == handlers.onClose
      ensures s.readyState == Closed && s.sent == old(s.sent)
    {
      s.Shut();
      forward := handlers.onClose;
    }
  }
}
