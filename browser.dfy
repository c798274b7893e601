/** The browser objects the agent scripts touch: a WebSocket and the
    `window.rpc` slot that keeps the agent's socket between injections. */
module Browser {
  import opened Wire

  /** `WebSocket.readyState`. */
  datatype ReadyState = Connecting | Open | Closing | Closed

  class Socket {
    const url: string
    var readyState: ReadyState
    /** Every frame this socket has put on the wire, oldest first. */
    var sent: seq<Frame>

    /** `new WebSocket(url)`: the socket starts out connecting. */
    constructor (url: string)
      ensures this.url == url && readyState == Connecting && sent == []
    {
      this.url := url;
      readyState := Connecting;
      sent := [];
    }

    /** The connection is established (the browser then fires `open`). */
    method Opened()
      modifies this
      ensures readyState == (if old(readyState) == Connecting then Open else old(readyState))
      ensures sent == old(sent)
    {
      if readyState == Connecting {
        readyState := Open;
      }
    }

    /** `send`: only an open socket puts the frame on the wire; a closing or
        closed one drops it. */
    method Send(f: Frame)
      modifies this
      ensures readyState == old(readyState)
      ensures sent == if old(readyState) == Open then old(sent) + [f] else old(sent)
    {
      if readyState == Open {
        sent := sent + [f];
      }
    }

    /** Sends the frames one after the other. */
    method SendAll(fs: seq<Frame>)
      modifies this
      ensures readyState == old(readyState)
      ensures sent == if old(readyState) == Open then old(sent) + fs else old(sent)
    {
      for i := 0 to |fs|
        invariant readyState == old(readyState)
        invariant sent == if old(readyState) == Open then old(sent) + fs[..i] else old(sent)
      {
        Send(fs[i]);
        assert fs[..i + 1] == fs[..i] + [fs[i]];
      }
    }

    /** `close`: a connecting or open socket starts closing. */
    method Close()
      modifies this
      ensures readyState == (if old(readyState) in {Connecting, Open} then Closing else old(readyState))
      ensures sent == old(sent)
    {
      if readyState == Connecting || readyState == Open {
        readyState := Closing;
      }
    }
  }

  /** The page's global object; only `window.rpc` matters here. */
  class Window {
    var rpc: Socket?

    constructor (rpc: Socket?)
      ensures this.rpc == rpc
    {
      this.rpc := rpc;
    }

    /** `window.rpc && window.rpc.readyState === WebSocket.OPEN`. */
    predicate HasOpenSocket()
      reads this, rpc
    {
      rpc != null && rpc.readyState == Open
    }
  }
}
