/**
 * The single-file server. Connection handling, the initial-data logic of SUBSCRIBE, the
 * UNSUBSCRIBE logic, HEARTBEAT, PING and the broadcast tick are the same as in the modular
 * server and reuse its definitions; what differs is modelled here: errors are only logged,
 * an order is acknowledged as PENDING and settled by one timer without validation, shutdown
 * closes every socket, and the `switch` lets an unknown type fall through into UNSUBSCRIBE.
 */
module ServerSimple {
  import opened Common
  import opened OrderedSet
  import opened MarketData
  import opened Protocol
  import opened Transport
  import opened Validators
  import opened ClientManager
  import opened MessageHandler

  /** The price a fill reports when the symbol has no (truthy) price. */
  const FallbackPrice: real := 45000.0

  const ShutdownCode := 1001
  const ShutdownReason := "Server shutting down"

  /** The branch of the `switch` that runs for a frame. */
  datatype SimpleCase = SubscribeCase | UnsubscribeCase | PlaceOrderCase | HeartbeatCase | PingCase | Ignore

  /**
   * The `switch (data.type)` as written: `default` has no `break` and is placed just before
   * `case 'UNSUBSCRIBE_MARKET_DATA'`, so an unknown type logs and then runs UNSUBSCRIBE.
   */
  function SimpleDispatch(msgType: Option<string>): (c: SimpleCase)
    ensures c != Ignore
    ensures KindOf(msgType) == UnknownKind ==> c == UnsubscribeCase
    ensures c == SubscribeCase <==> KindOf(msgType) == SubscribeKind
    ensures c == PlaceOrderCase <==> KindOf(msgType) == PlaceOrderKind
    ensures c == UnsubscribeCase <==> KindOf(msgType) == UnsubscribeKind || KindOf(msgType) == UnknownKind
  {
    match KindOf(msgType)
    case SubscribeKind => SubscribeCase
    case UnsubscribeKind => UnsubscribeCase
    case PlaceOrderKind => PlaceOrderCase
    case HeartbeatKind => HeartbeatCase
    case PingKind => PingCase
    case UnknownKind => UnsubscribeCase
  }

  /** The `switch` as evidently intended: an unknown type is only logged. */
  function IntendedDispatch(msgType: Option<string>): (c: SimpleCase)
    ensures c == Ignore <==> KindOf(msgType) == UnknownKind
    ensures c != Ignore ==> c == SimpleDispatch(msgType)
  {
    if KindOf(msgType) == UnknownKind then Ignore else SimpleDispatch(msgType)
  }

  /** What one branch does; every thrown error is caught and only logged. */
  function SimpleReplyFor(c: SimpleCase, ws: SocketId, client: Option<ClientInfo>, quotes: map<Symbol, Quote>, env: Envelope, orderId: OrderId)
    : (r: Reply)
    ensures r.spawned.Some? <==> c == PlaceOrderCase
    ensures r.newSubs.Some? <==> (c == SubscribeCase || c == UnsubscribeCase) && client.Some? && env.symbols.Some?
    ensures r.scheduled != [] ==> c == SubscribeCase
    ensures c == Ignore ==> r == Sends([])
  {
    match c
    case SubscribeCase =>
      if client.None? || env.symbols.None? then Sends([])
      else SubscribedReply(ws, client.value.subscriptions, env.symbols.value, quotes)
    case UnsubscribeCase =>
      if client.None? then Sends([Error(CannotUnsubscribe, None)])
      else if env.symbols.None? then Sends([])
      else UnsubscribedReply(client.value.subscriptions, env.symbols.value)
    case PlaceOrderCase => Reply(None, [OrderAck(orderId, "PENDING", "")], [], Some(PendingOrder(ws, orderId, env.order)))
    case HeartbeatCase => Sends([HeartbeatAck])
    case PingCase => Sends([Pong])
    case Ignore => Sends([])
  }

  /** The `message` handler as written; a frame that does not parse is only logged. */
  function SimpleRoute(ws: SocketId, client: Option<ClientInfo>, quotes: map<Symbol, Quote>, parsed: Option<Envelope>, orderId: OrderId)
    : (r: Reply)
    ensures parsed.None? ==> r == Sends([])
    ensures r.spawned.Some? <==> parsed.Some? && KindOf(parsed.value.msgType) == PlaceOrderKind
    ensures parsed.Some? && KindOf(parsed.value.msgType) == UnknownKind ==>
      (r.newSubs.Some? <==> client.Some? && parsed.value.symbols.Some?)
  {
    if parsed.None? then Sends([])
    else SimpleReplyFor(SimpleDispatch(parsed.value.msgType), ws, client, quotes, parsed.value, orderId)
  }

  /** The `message` handler with the intended dispatch. */
  function IntendedRoute(ws: SocketId, client: Option<ClientInfo>, quotes: map<Symbol, Quote>, parsed: Option<Envelope>, orderId: OrderId)
    : (r: Reply)
    ensures parsed.None? || KindOf(parsed.value.msgType) == UnknownKind ==> r == Sends([])
    ensures parsed.Some? && KindOf(parsed.value.msgType) != UnknownKind ==> r == SimpleRoute(ws, client, quotes, parsed, orderId)
  {
    if parsed.None? then Sends([])
    else SimpleReplyFor(IntendedDispatch(parsed.value.msgType), ws, client, quotes, parsed.value, orderId)
  }

  /**
   * The fall-through as written: a frame of any unknown type that carries `symbols`, from a
   * registered client, does exactly what an UNSUBSCRIBE_MARKET_DATA frame with those symbols
   * does: it strips them from the sender's subscriptions and is acknowledged as an UNSUBSCRIBE.
   */
  lemma FallThroughUnsubscribes(ws: SocketId, c: ClientInfo, quotes: map<Symbol, Quote>, t: string,
                                syms: seq<Symbol>, order: Option<OrderData>, orderId: OrderId)
    requires KindOf(Some(t)) == UnknownKind
    ensures SimpleRoute(ws, Some(c), quotes, Some(Envelope(Some(t), Some(syms), order)), orderId)
      == UnsubscribedReply(c.subscriptions, syms)
      == SimpleRoute(ws, Some(c), quotes, Some(Envelope(Some(UnsubscribeType), Some(syms), order)), orderId)
    ensures UnsubscribedReply(c.subscriptions, syms).newSubs == Some(Without(c.subscriptions, syms))
  {
    assert KindOf(Some(UnsubscribeType)) == UnsubscribeKind by { KindOfTypeName(UnsubscribeKind); }
    DeleteAllIsWithout(c.subscriptions, syms);
  }

  /**
   * One input that shows the fall-through: a misspelled "SUBSCRIBE" for BTC/USD from a client
   * subscribed to BTC/USD removes that subscription and is answered with UNSUBSCRIBE_ACK.
   */
  lemma MisspelledSubscribeUnsubscribes(ws: SocketId, c: ClientInfo, quotes: map<Symbol, Quote>, orderId: OrderId)
    requires c.subscriptions == ["BTC/USD"]
    ensures var r := SimpleRoute(ws, Some(c), quotes, Some(Envelope(Some("SUBSCRIBE"), Some(["BTC/USD"]), None)), orderId);
      && r.newSubs == Some([])
      && r.sent == [UnsubscribeAck(["BTC/USD"], [])]
  {
    assert DeleteAll(["BTC/USD"], ["BTC/USD"]) == Delete(DeleteAll(["BTC/USD"], []), "BTC/USD");
  }

  /**
   * The fall-through as written also answers an unknown type from an unregistered client
   * with the UNSUBSCRIBE error.
   */
  lemma FallThroughReportsUnsubscribeError(ws: SocketId, quotes: map<Symbol, Quote>, t: string, orderId: OrderId)
    requires KindOf(Some(t)) == UnknownKind
    ensures SimpleRoute(ws, None, quotes, Some(Envelope(Some(t), None, None)), orderId).sent == [Error(CannotUnsubscribe, None)]
  {
  }

  /**
   * With the intended dispatch an unknown type has no effect at all, and every known type
   * behaves as written.
   */
  lemma UnknownTypeIgnored(ws: SocketId, client: Option<ClientInfo>, quotes: map<Symbol, Quote>, parsed: Option<Envelope>, orderId: OrderId)
    ensures parsed.Some? && KindOf(parsed.value.msgType) == UnknownKind ==>
      IntendedRoute(ws, client, quotes, parsed, orderId) == Reply(None, [], [], None)
    ensures parsed.None? || KindOf(parsed.value.msgType) != UnknownKind ==>
      IntendedRoute(ws, client, quotes, parsed, orderId) == SimpleRoute(ws, client, quotes, parsed, orderId)
  {
  }

  /** The server-simple PLACE_ORDER acknowledges without validating, and spawns the order as sent. */
  lemma SimpleOrderAckUnvalidated(ws: SocketId, client: Option<ClientInfo>, quotes: map<Symbol, Quote>, order: Option<OrderData>, orderId: OrderId)
    ensures var r := SimpleRoute(ws, client, quotes, Some(Envelope(Some(PlaceOrderType), None, order)), orderId);
      r.sent == [OrderAck(orderId, "PENDING", "")] && r.spawned == Some(PendingOrder(ws, orderId, order)) && r.newSubs.None?
  {
  }

  /**
   * The order timer's message, given the fill draw: FILLED at the symbol's current price (or
   * the fallback when the symbol has none) for `quantity || 1`, or REJECTED for liquidity.
   * `None` when the callback throws: a fill for a frame without an `order` object.
   */
  function SimpleOrderOutcome(p: PendingOrder, quotes: map<Symbol, Quote>, fillDraw: real): (m: Option<ServerMessage>)
    ensures m.Some? ==> IsTerminal(m.value) && !m.value.OrderError? && m.value.orderId == p.orderId
    ensures m.Some? ==> (m.value.OrderFilled? <==> fillDraw > 0.3)
    ensures m.Some? && m.value.OrderRejected? ==> m.value.reason == InsufficientLiquidity && m.value.suggestedAction.None?
    ensures m.None? <==> fillDraw > 0.3 && p.order.None?
  {
    if fillDraw > 0.3 then
      if p.order.None? then None
      else
        var symbol := p.order.value.symbol;
        var price := if symbol in quotes && quotes[symbol].price != 0.0 then quotes[symbol].price else FallbackPrice;
        var qty := if Truthy(p.order.value.quantity) then p.order.value.quantity.value else 1;
        Some(OrderFilled(p.orderId, price, qty, None, None, None))
    else
      Some(OrderRejected(p.orderId, InsufficientLiquidity, None))
  }

  /**
   * What a fill reports: the store's price of a known symbol with a non-zero price and the
   * fallback price otherwise; the requested quantity when it is given and non-zero, and 1 for a
   * missing or zero quantity.
   */
  lemma SimpleFillTerms(ws: SocketId, orderId: OrderId, quotes: map<Symbol, Quote>, fillDraw: real, o: OrderData)
    requires fillDraw > 0.3
    ensures var m := SimpleOrderOutcome(PendingOrder(ws, orderId, Some(o)), quotes, fillDraw);
      && m.Some? && m.value.OrderFilled?
      && (o.symbol in quotes && quotes[o.symbol].price != 0.0 ==> m.value.filledPrice == quotes[o.symbol].price)
      && (o.symbol !in quotes || quotes[o.symbol].price == 0.0 ==> m.value.filledPrice == FallbackPrice)
      && (o.quantity.None? || o.quantity == Some(0) ==> m.value.filledQuantity == 1)
      && (o.quantity.Some? && o.quantity.value != 0 ==> m.value.filledQuantity == o.quantity.value)
  {
  }

  /**
   * Unlike the modular pipeline, the single-file server never reports an error: an order for a
   * symbol the store does not know, which the pipeline ends with SYMBOL_NOT_FOUND, is still
   * filled, at the fallback price.
   */
  lemma UnknownSymbolFilledAtFallback(ws: SocketId, orderId: OrderId, quotes: map<Symbol, Quote>, fillDraw: real, o: OrderData)
    requires fillDraw > 0.3 && o.symbol !in quotes
    ensures var m := SimpleOrderOutcome(PendingOrder(ws, orderId, Some(o)), quotes, fillDraw);
      m.Some? && m.value.OrderFilled? && m.value.filledPrice == FallbackPrice
  {
  }

  /**
   * Nor does it validate: an order with a negative quantity, which the validator refuses, is
   * filled for that negative quantity.
   */
  lemma NegativeQuantityFilled(ws: SocketId, orderId: OrderId, quotes: map<Symbol, Quote>, fillDraw: real, o: OrderData)
    requires fillDraw > 0.3 && o.quantity.Some? && o.quantity.value < 0
    ensures !ValidateOrderFormat(Some(o))
    ensures var m := SimpleOrderOutcome(PendingOrder(ws, orderId, Some(o)), quotes, fillDraw);
      m.Some? && m.value.OrderFilled? && m.value.filledQuantity == o.quantity.value
  {
  }

  /**
   * The order timer fires: its message, if the callback does not throw, is sent on the socket
   * of the client that placed the order.
   */
  method FireOrderTimer(net: Network, store: MarketStore, p: PendingOrder, fillDraw: real)
    modifies net
    ensures var m := SimpleOrderOutcome(p, store.quotes, fillDraw);
      net.outbox == old(net.outbox) + (if m.Some? then [Delivery(p.ws, m.value)] else [])
    ensures net.timers == old(net.timers) && net.readyState == old(net.readyState) && net.closes == old(net.closes)
  {
    var isFilled := fillDraw > 0.3;
    if isFilled {
      if p.order.None? {
        return;
      }
      var quote := store.GetMarketData(p.order.value.symbol);
      var price := if quote.Some? && quote.value.price != 0.0 then quote.value.price else FallbackPrice;
      var qty := if Truthy(p.order.value.quantity) then p.order.value.quantity.value else 1;
      net.Send(p.ws, OrderFilled(p.orderId, price, qty, None, None, None));
    } else {
      net.Send(p.ws, OrderRejected(p.orderId, InsufficientLiquidity, None));
    }
  }

  /** One branch of the `switch`, run against the registry, the store and the network. */
  method RunCase(c: SimpleCase, net: Network, registry: ClientRegistry, store: MarketStore, ws: SocketId, clientId: ClientId,
                 env: Envelope, orderId: OrderId)
    returns (spawned: Option<PendingOrder>)
    requires registry.Valid()
    modifies net, registry
    ensures registry.Valid()
    ensures var r := SimpleReplyFor(c, ws, old(registry.GetClient(clientId)), store.quotes, env, orderId);
      Performed(net, registry, ws, clientId, r) && spawned == r.spawned
  {
    spawned := None;
    var client := registry.GetClient(clientId);
    match c {
      case SubscribeCase =>
        if client.Some? && env.symbols.Some? {
          AddSubscriptions(net, registry, store, ws, clientId, env.symbols.value);
        }
      case UnsubscribeCase =>
        if client.None? {
          net.Send(ws, Error(CannotUnsubscribe, None));
        } else if env.symbols.Some? {
          RemoveSubscriptions(net, registry, ws, clientId, env.symbols.value);
        }
      case PlaceOrderCase =>
        net.Send(ws, OrderAck(orderId, "PENDING", ""));
        spawned := Some(PendingOrder(ws, orderId, env.order));
      case HeartbeatCase =>
        net.Send(ws, HeartbeatAck);
      case PingCase =>
        net.Send(ws, Pong);
      case Ignore =>
    }
  }

  /** The `message` event of the single-file server, as written. */
  method OnMessage(net: Network, registry: ClientRegistry, store: MarketStore, ws: SocketId, clientId: ClientId,
                   parsed: Option<Envelope>, orderId: OrderId)
    returns (spawned: Option<PendingOrder>)
    requires registry.Valid()
    modifies net, registry
    ensures registry.Valid()
    ensures var r := SimpleRoute(ws, old(registry.GetClient(clientId)), store.quotes, parsed, orderId);
      Performed(net, registry, ws, clientId, r) && spawned == r.spawned
  {
    spawned := None;
    if parsed.Some? {
      spawned := RunCase(SimpleDispatch(parsed.value.msgType), net, registry, store, ws, clientId, parsed.value, orderId);
    }
  }

  /** The `message` event with the intended dispatch. */
  method OnMessageIntended(net: Network, registry: ClientRegistry, store: MarketStore, ws: SocketId, clientId: ClientId,
                           parsed: Option<Envelope>, orderId: OrderId)
    returns (spawned: Option<PendingOrder>)
    requires registry.Valid()
    modifies net, registry
    ensures registry.Valid()
    ensures var r := IntendedRoute(ws, old(registry.GetClient(clientId)), store.quotes, parsed, orderId);
      Performed(net, registry, ws, clientId, r) && spawned == r.spawned
  {
    spawned := None;
    if parsed.Some? {
      spawned := RunCase(IntendedDispatch(parsed.value.msgType), net, registry, store, ws, clientId, parsed.value, orderId);
    }
  }

  /** What the SIGINT handler does over `cs`: `ws.close(1001, ...)` on every socket, whatever its state. */
  function CloseEvery(cs: seq<ClientInfo>, states: map<SocketId, ReadyState>): (r: (map<SocketId, ReadyState>, seq<CloseCall>))
    ensures |r.1| == |cs|
    ensures forall k :: 0 <= k < |cs| ==> r.1[k] == CloseCall(cs[k].ws, ShutdownCode, ShutdownReason)
    decreases |cs|
  {
    if cs == [] then (states, [])
    else
      var n := |cs| - 1;
      var (before, calls) := CloseEvery(cs[..n], states);
      var ws := cs[n].ws;
      (if StateIn(before, ws) == Closed then before else before[ws := Closing], calls + [CloseCall(ws, ShutdownCode, ShutdownReason)])
  }

  /**
   * When every client has its own socket and all of them are OPEN, the SIGINT handler of the
   * single-file server and `closeAllConnections(1001, ...)` of the modular one do the same.
   */
  lemma {:induction false} ShutdownsAgreeWhenAllOpen(cs: seq<ClientInfo>, states: map<SocketId, ReadyState>)
    requires forall i, j :: 0 <= i < j < |cs| ==> cs[i].ws != cs[j].ws
    requires forall i :: 0 <= i < |cs| ==> StateIn(states, cs[i].ws) == Open
    ensures CloseEvery(cs, states) == CloseOpen(cs, states, ShutdownCode, ShutdownReason)
    decreases |cs|
  {
    if cs != [] {
      var n := |cs| - 1;
      var prefix := cs[..n];
      ShutdownsAgreeWhenAllOpen(prefix, states);
      CloseOpenClosesExactlyOpen(prefix, states, ShutdownCode, ShutdownReason);
      var ws := cs[n].ws;
      assert !exists c :: c in prefix && c.ws == ws by {
        forall c | c in prefix
          ensures c.ws != ws
        {
          var i :| 0 <= i < n && prefix[i] == c;
        }
      }
      assert StateIn(CloseOpen(prefix, states, ShutdownCode, ShutdownReason).0, ws) == Open;
    }
  }

  /** The SIGINT handler: close every client's socket with 1001, then stop the server (not modelled). */
  method Shutdown(net: Network, registry: ClientRegistry)
    requires registry.Valid()
    modifies net
    ensures var (after, calls) := CloseEvery(registry.GetAllClients(), old(net.readyState));
      net.readyState == after && net.closes == old(net.closes) + calls
    ensures net.outbox == old(net.outbox) && net.timers == old(net.timers)
  {
    var cs := registry.GetAllClients();
    var i := 0;
    while i < |cs|
      invariant 0 <= i <= |cs|
      invariant var (after, calls) := CloseEvery(cs[..i], old(net.readyState));
        net.readyState == after && net.closes == old(net.closes) + calls
      invariant net.outbox == old(net.outbox) && net.timers == old(net.timers)
    {
      assert cs[..i + 1][..i] == cs[..i];
      net.Close(cs[i].ws, ShutdownCode, ShutdownReason);
      i := i + 1;
    }
    assert cs[..|cs|] == cs;
  }
}
