/**
 * The transport seen from the server: the ready state of each `ws` object and everything the
 * server asks it to do. `ws.send(m)` appends `m` to the outbox, a `setTimeout` that will send a
 * symbol's initial snapshot records a timer, and `ws.close(code, reason)` records a close request. Whether the bytes
 * reach the peer is the transport's business and is not modelled.
 */
module Transport {
  import opened Common
  import opened Protocol

  /** The `readyState` of a WebSocket. */
  datatype ReadyState = Connecting | Open | Closing | Closed

  /** One `ws.send` call: the message and the socket it was handed to. */
  datatype Delivery = Delivery(to: SocketId, msg: ServerMessage)

  /**
   * One pending `setTimeout` that, after `delayMs` milliseconds, sends on `to` the initial
   * snapshot of `symbol`; the quote is read when the timer fires.
   */
  datatype Timer = Timer(to: SocketId, delayMs: nat, symbol: Symbol)

  /** One `ws.close(code, reason)` call. */
  datatype CloseCall = CloseCall(ws: SocketId, code: int, reason: string)

  /** The ready state of `ws`; a socket the transport does not know is closed. */
  function StateIn(states: map<SocketId, ReadyState>, ws: SocketId): ReadyState {
    if ws in states then states[ws] else Closed
  }

  /** The deliveries of `msgs`, in order, all on `ws`. */
  function To(ws: SocketId, msgs: seq<ServerMessage>): (ds: seq<Delivery>)
    ensures |ds| == |msgs|
    ensures forall i :: 0 <= i < |ds| ==> ds[i] == Delivery(ws, msgs[i])
    ensures msgs == [] ==> ds == []
    ensures |msgs| == 1 ==> ds == [Delivery(ws, msgs[0])]
  {
    seq(|msgs|, i requires 0 <= i < |msgs| => Delivery(ws, msgs[i]))
  }

  /** Sending `a` and then `b` is sending `a + b`. */
  lemma ToConcat(ws: SocketId, a: seq<ServerMessage>, b: seq<ServerMessage>)
    ensures To(ws, a + b) == To(ws, a) + To(ws, b)
  {
  }

  class Network {
    var readyState: map<SocketId, ReadyState>
    var outbox: seq<Delivery>
    var timers: seq<Timer>
    var closes: seq<CloseCall>

    constructor (states: map<SocketId, ReadyState>)
      ensures readyState == states && outbox == [] && timers == [] && closes == []
    {
      readyState := states;
      outbox := [];
      timers := [];
      closes := [];
    }

    function StateOf(ws: SocketId): ReadyState
      reads this
    {
      StateIn(readyState, ws)
    }

    /** `ws.send(msg)`. */
    method Send(ws: SocketId, msg: ServerMessage)
      modifies this
      ensures outbox == old(outbox) + [Delivery(ws, msg)]
      ensures readyState == old(readyState) && timers == old(timers) && closes == old(closes)
    {
      outbox := outbox + [Delivery(ws, msg)];
    }

    /** `setTimeout(() => ws.send(snapshot of symbol), delayMs)`. */
    method SetTimeout(ws: SocketId, delayMs: nat, symbol: Symbol)
      modifies this
      ensures timers == old(timers) + [Timer(ws, delayMs, symbol)]
      ensures readyState == old(readyState) && outbox == old(outbox) && closes == old(closes)
    {
      timers := timers + [Timer(ws, delayMs, symbol)];
    }

    /** `ws.close(code, reason)`: an open or connecting socket starts closing. */
    method Close(ws: SocketId, code: int, reason: string)
      modifies this
      ensures readyState ==
        if StateIn(old(readyState), ws) == Closed then old(readyState) else old(readyState)[ws := Closing]
      ensures closes == old(closes) + [CloseCall(ws, code, reason)]
      ensures outbox == old(outbox) && timers == old(timers)
    {
      if StateOf(ws) != Closed {
        readyState := readyState[ws := Closing];
      }
      closes := closes + [CloseCall(ws, code, reason)];
    }
  }
}
