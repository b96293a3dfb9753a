/**
 * The wire protocol: the envelopes a client sends and the messages the server pushes back.
 * Frames are JSON objects with a `type` discriminator; decoding and encoding the JSON text is
 * outside the model, so a frame appears here already decoded. Timestamps are left out.
 */
module Protocol {
  import opened Common
  import opened MarketData

  /** Request type names. */
  const SubscribeType := "SUBSCRIBE_MARKET_DATA"
  const UnsubscribeType := "UNSUBSCRIBE_MARKET_DATA"
  const PlaceOrderType := "PLACE_ORDER"
  const HeartbeatType := "HEARTBEAT"
  const PingType := "PING"

  /**
   * The `order` object of a PLACE_ORDER request. An absent or empty `symbol` is the empty
   * string; an absent `quantity` is `None`.
   */
  datatype OrderData = OrderData(symbol: string, quantity: Option<int>, side: string)

  /**
   * A decoded inbound frame. `msgType` is `None` when the frame has no `type`; `symbols` is
   * `None` when the frame has no `symbols` array; `order` is `None` when it has no `order`.
   */
  datatype Envelope = Envelope(msgType: Option<string>, symbols: Option<seq<Symbol>>, order: Option<OrderData>)

  /** What `${data.type}` prints in a message: the type, or "undefined" when it is absent. */
  function TypeText(msgType: Option<string>): string {
    match msgType
    case Some(t) => t
    case None => "undefined"
  }

  /**
   * A server-to-client message. Fields a message may lack are `Option`s; a missing text field
   * is the empty string (both are falsy to the client).
   */
  datatype ServerMessage =
    | Welcome(clientId: ClientId, message: string)
    | SubscribeAck(subscribedSymbols: seq<Symbol>, subscribedCount: nat)
    | UnsubscribeAck(unsubscribedSymbols: seq<Symbol>, remainingSubscriptions: seq<Symbol>)
      /** MARKET_DATA with `isInitial: true` and a single `symbol`. */
    | MarketSnapshot(symbol: Symbol, data: Quote)
      /** MARKET_DATA with a `data` map, the periodic batch. */
    | MarketBatch(batch: map<Symbol, Quote>)
    | Error(message: string, about: Option<Symbol>)
    | OrderAck(orderId: OrderId, status: string, message: string)
    | OrderStatusUpdate(orderId: OrderId, status: string, message: string)
    | OrderFilled(orderId: OrderId, filledPrice: real, filledQuantity: int,
                  averagePrice: Option<real>, totalFilled: Option<int>, remainingQuantity: Option<int>)
    | OrderRejected(orderId: OrderId, reason: string, suggestedAction: Option<string>)
    | OrderError(orderId: OrderId, errorCode: string, errorMessage: string)
    | HeartbeatAck
    | Pong

  /** FILLED, REJECTED and ERROR end an order's life. */
  predicate IsTerminal(m: ServerMessage) {
    m.OrderFilled? || m.OrderRejected? || m.OrderError?
  }

  /** The messages that carry an `orderId`. */
  predicate IsOrderEvent(m: ServerMessage) {
    m.OrderAck? || m.OrderStatusUpdate? || IsTerminal(m)
  }
}
