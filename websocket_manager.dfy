/**
 * The trading client's side of the protocol: the React state the WebSocket hook keeps (client
 * id, the order list, the market-data map and the subscribed symbols) and the pure updaters that
 * each server message and each user action apply to it. Connecting, reconnecting, the heartbeat
 * timer and desktop notifications are not modelled; whether the socket is OPEN is a parameter.
 */
module WebSocketManager {
  import opened Common
  import opened OrderedSet
  import opened MarketData
  import opened Protocol
  import opened Validators
  import opened OrderProcessor
  import opened MessageHandler
  import opened ClientManager
  import opened BroadcastService
  import opened ServerSimple

  /** Status and message an ORDER_ACK row falls back to when the server leaves them empty. */
  const DefaultAckStatus := "PROCESSING"
  const DefaultAckMessage := OrderReceived

  /** The order entry form. `price` is the raw text of the price field. */
  datatype OrderForm = OrderForm(symbol: Symbol, quantity: int, price: string, side: string)

  /**
   * One row of the order list. The fields an order acquires later in its life are `None` until
   * the event that sets them arrives.
   */
  datatype OrderRow = OrderRow(
    id: OrderId, symbol: Symbol, quantity: int, side: string, status: string, message: string,
    statusMessage: Option<string>,
    errorCode: Option<string>, errorMessage: Option<string>,
    filledPrice: Option<real>, filledQuantity: Option<int>, averagePrice: Option<real>,
    totalFilled: Option<int>, remainingQuantity: Option<int>,
    reason: Option<string>, suggestedAction: Option<string>)

  /** The state the hook's setters update. */
  datatype ClientView = ClientView(
    clientId: Option<ClientId>, orders: seq<OrderRow>, marketData: map<Symbol, Quote>, subscribedSymbols: seq<Symbol>)

  /**
   * A frame as `handleWebSocketMessage` sees it: a message of a type the server sends, an
   * object with some other `type`, or text `JSON.parse` rejects.
   */
  datatype Frame = Message(msg: ServerMessage) | OtherType(msgType: string) | Unparsable

  /** The messages that patch existing order rows. */
  predicate IsOrderUpdate(m: ServerMessage) {
    m.OrderStatusUpdate? || IsTerminal(m)
  }

  /** The status an order-update message writes into the rows it matches. */
  function EventStatus(m: ServerMessage): string
    requires IsOrderUpdate(m)
  {
    match m
    case OrderStatusUpdate(_, status, _) => status
    case OrderFilled(_, _, _, _, _, _) => "FILLED"
    case OrderRejected(_, _, _) => "REJECTED"
    case OrderError(_, _, _) => "ERROR"
  }

  /** `text || fallback` on a string. */
  function OrElse(text: string, fallback: string): string {
    if text != "" then text else fallback
  }

  /**
   * The row ORDER_ACK appends: the id comes from the server, symbol, quantity and side from
   * the order form the message handler holds. That is the form captured when the socket was
   * opened, not the order that was placed (see `HeldFormIsNotThePlacedOrder`).
   */
  function AckedRow(m: ServerMessage, form: OrderForm): (row: OrderRow)
    requires m.OrderAck?
    ensures row.id == m.orderId
    ensures row.symbol == form.symbol && row.quantity == form.quantity && row.side == form.side
    ensures row.status != "" && (m.status != "" ==> row.status == m.status)
    ensures row.message != "" && (m.message != "" ==> row.message == m.message)
    ensures m.status == "" ==> row.status == DefaultAckStatus
    ensures m.message == "" ==> row.message == DefaultAckMessage
    ensures row.statusMessage.None? && row.errorCode.None? && row.filledPrice.None? && row.reason.None?
  {
    OrderRow(m.orderId, form.symbol, form.quantity, form.side,
             OrElse(m.status, DefaultAckStatus), OrElse(m.message, DefaultAckMessage),
             None, None, None, None, None, None, None, None, None, None)
  }

  /**
   * The `{...order, ...}` spread of one order-update message over a matching row. The row keeps
   * its id, symbol, quantity, side and acknowledgement message, and takes the event's status.
   * A FILLED message falls back, through `||`, to the filled price for a missing or zero
   * average price, to the filled quantity for a missing or zero total, and to 0 remaining.
   */
  function Patch(row: OrderRow, m: ServerMessage): (r: OrderRow)
    requires IsOrderUpdate(m)
    ensures r.id == row.id && r.symbol == row.symbol && r.quantity == row.quantity && r.side == row.side
    ensures r.message == row.message
    ensures r.status == EventStatus(m)
    ensures m.OrderStatusUpdate? ==>
      r.statusMessage == (if m.message != "" then Some(m.message) else row.statusMessage)
    ensures m.OrderError? ==> r.errorCode == Some(m.errorCode) && r.errorMessage == Some(m.errorMessage)
    ensures m.OrderRejected? ==> r.reason == Some(m.reason) && r.suggestedAction == m.suggestedAction
    ensures m.OrderFilled? ==>
      && r.filledPrice == Some(m.filledPrice)
      && r.filledQuantity == Some(m.filledQuantity)
      && r.averagePrice == Some(if m.averagePrice.Some? && m.averagePrice.value != 0.0 then m.averagePrice.value else m.filledPrice)
      && r.totalFilled == Some(if Truthy(m.totalFilled) then m.totalFilled.value else m.filledQuantity)
      && r.remainingQuantity == Some(if m.remainingQuantity.Some? then m.remainingQuantity.value else 0)
    ensures !m.OrderStatusUpdate? ==> r.statusMessage == row.statusMessage
    ensures !m.OrderError? ==> r.errorCode == row.errorCode && r.errorMessage == row.errorMessage
    ensures !m.OrderRejected? ==> r.reason == row.reason && r.suggestedAction == row.suggestedAction
    ensures !m.OrderFilled? ==>
      && r.filledPrice == row.filledPrice && r.filledQuantity == row.filledQuantity
      && r.averagePrice == row.averagePrice && r.totalFilled == row.totalFilled
      && r.remainingQuantity == row.remainingQuantity
  {
    match m
    case OrderStatusUpdate(_, status, message) =>
      row.(status := status, statusMessage := if message != "" then Some(message) else row.statusMessage)
    case OrderError(_, code, text) =>
      row.(status := "ERROR", errorCode := Some(code), errorMessage := Some(text))
    case OrderFilled(_, price, qty, avg, total, remaining) =>
      row.(status := "FILLED", filledPrice := Some(price), filledQuantity := Some(qty),
           averagePrice := Some(if avg.Some? && avg.value != 0.0 then avg.value else price),
           totalFilled := Some(if Truthy(total) then total.value else qty),
           remainingQuantity := Some(if remaining.Some? then remaining.value else 0))
    case OrderRejected(_, reason, action) =>
      row.(status := "REJECTED", reason := Some(reason), suggestedAction := action)
  }

  /**
   * `prev.map(order => order.id === data.orderId ? {...} : order)`: the list keeps its length
   * and order; exactly the rows with the message's id are patched, every other row is kept.
   */
  function UpdateOrders(orders: seq<OrderRow>, m: ServerMessage): (r: seq<OrderRow>)
    requires IsOrderUpdate(m)
    ensures |r| == |orders|
    ensures forall i :: 0 <= i < |orders| && orders[i].id == m.orderId ==> r[i] == Patch(orders[i], m)
    ensures forall i :: 0 <= i < |orders| && orders[i].id != m.orderId ==> r[i] == orders[i]
  {
    seq(|orders|, i requires 0 <= i < |orders| => if orders[i].id == m.orderId then Patch(orders[i], m) else orders[i])
  }

  /**
   * `{...prev, ...batch}`: the batch's symbols take their new quotes and every other symbol
   * keeps its old one; nothing is dropped.
   */
  function MergeMarketData(prev: map<Symbol, Quote>, batch: map<Symbol, Quote>): (r: map<Symbol, Quote>)
    ensures r.Keys == prev.Keys + batch.Keys
    ensures forall s :: s in batch ==> r[s] == batch[s]
    ensures forall s :: s in prev && s !in batch ==> r[s] == prev[s]
  {
    prev + batch
  }

  /**
   * `handleWebSocketMessage` applied to the state. `form` is the order form the handler closed
   * over when the socket was opened; nothing ties it to the order an ORDER_ACK answers. What an
   * initial snapshot, a batch and an order update do is stated in `DataMessagesApplied`.
   * Unknown types, the server's ERROR message (the client has no case for it), HEARTBEAT_ACK,
   * PONG and unparsable text change nothing.
   */
  function Apply(v: ClientView, form: OrderForm, f: Frame): (r: ClientView)
    ensures f.Unparsable? || f.OtherType? ==> r == v
    ensures f.Message? && (f.msg.Error? || f.msg.HeartbeatAck? || f.msg.Pong?) ==> r == v
    ensures r.clientId != v.clientId ==> f.Message? && f.msg.Welcome?
    ensures f.Message? && f.msg.Welcome? ==> r.clientId == Some(f.msg.clientId)
    ensures r.subscribedSymbols != v.subscribedSymbols ==> f.Message? && (f.msg.SubscribeAck? || f.msg.UnsubscribeAck?)
    ensures f.Message? && f.msg.SubscribeAck? ==> r.subscribedSymbols == f.msg.subscribedSymbols
    ensures f.Message? && f.msg.UnsubscribeAck? ==> r.subscribedSymbols == f.msg.remainingSubscriptions
    ensures r.marketData != v.marketData ==> f.Message? && (f.msg.MarketSnapshot? || f.msg.MarketBatch?)
    ensures r.orders != v.orders ==> f.Message? && IsOrderEvent(f.msg)
    ensures f.Message? && f.msg.OrderAck? ==> r.orders == v.orders + [AckedRow(f.msg, form)]
    ensures |v.orders| <= |r.orders|
    ensures forall i :: 0 <= i < |v.orders| ==> SameOrder(r.orders[i], v.orders[i])
  {
    match f
    case Unparsable => v
    case OtherType(_) => v
    case Message(m) =>
      match m
      case Welcome(id, _) => v.(clientId := Some(id))
      case SubscribeAck(symbols, _) => v.(subscribedSymbols := symbols)
      case UnsubscribeAck(_, remaining) => v.(subscribedSymbols := remaining)
      case MarketSnapshot(symbol, quote) =>
        if symbol != "" then v.(marketData := v.marketData[symbol := quote]) else v
      case MarketBatch(batch) => v.(marketData := MergeMarketData(v.marketData, batch))
      case OrderAck(_, _, _) => v.(orders := v.orders + [AckedRow(m, form)])
      case OrderStatusUpdate(_, _, _) => v.(orders := UpdateOrders(v.orders, m))
      case OrderFilled(_, _, _, _, _, _) => v.(orders := UpdateOrders(v.orders, m))
      case OrderRejected(_, _, _) => v.(orders := UpdateOrders(v.orders, m))
      case OrderError(_, _, _) => v.(orders := UpdateOrders(v.orders, m))
      case Error(_, _) => v
      case HeartbeatAck => v
      case Pong => v
  }

  /**
   * The data-carrying messages: an initial snapshot (one with a `symbol`) overwrites that
   * symbol's quote and keeps every other one, a batch is merged into the quote table, and an
   * order update patches exactly the rows with its id.
   */
  lemma DataMessagesApplied(v: ClientView, form: OrderForm, m: ServerMessage)
    ensures var r := Apply(v, form, Message(m));
      m.MarketSnapshot? && m.symbol != "" ==>
        && r.marketData.Keys == v.marketData.Keys + {m.symbol}
        && r.marketData[m.symbol] == m.data
        && forall s :: s in v.marketData && s != m.symbol ==> r.marketData[s] == v.marketData[s]
    ensures m.MarketBatch? ==> Apply(v, form, Message(m)).marketData == MergeMarketData(v.marketData, m.batch)
    ensures IsOrderUpdate(m) ==> Apply(v, form, Message(m)).orders == UpdateOrders(v.orders, m)
  {
  }

  /** Two rows describe the same order: same id, symbol, quantity, side and acknowledgement text. */
  predicate SameOrder(a: OrderRow, b: OrderRow) {
    a.id == b.id && a.symbol == b.symbol && a.quantity == b.quantity && a.side == b.side && a.message == b.message
  }

  /**
   * The messages `ms` handled in arrival order. No message removes a row or changes which
   * order a row describes.
   */
  function ApplyAll(v: ClientView, form: OrderForm, ms: seq<ServerMessage>): (r: ClientView)
    ensures |v.orders| <= |r.orders|
    ensures forall i :: 0 <= i < |v.orders| ==> SameOrder(r.orders[i], v.orders[i])
    decreases |ms|
  {
    if ms == [] then v else ApplyAll(Apply(v, form, Message(ms[0])), form, ms[1..])
  }

  /** The last message of a stream is applied to the state the others left. */
  lemma {:induction false} ApplyAllSnoc(v: ClientView, form: OrderForm, ms: seq<ServerMessage>, m: ServerMessage)
    ensures ApplyAll(v, form, ms + [m]) == Apply(ApplyAll(v, form, ms), form, Message(m))
    decreases |ms|
  {
    if ms == [] {
      assert [m][1..] == [];
    } else {
      assert (ms + [m])[0] == ms[0];
      assert (ms + [m])[1..] == ms[1..] + [m];
      ApplyAllSnoc(Apply(v, form, Message(ms[0])), form, ms[1..], m);
    }
  }

  /**
   * An acknowledgement followed by a stream whose last message updates the acknowledged order
   * leaves one new row at the end of the list, labelled from the held form, with the status of
   * that last message.
   */
  lemma AckedRowTakesLastStatus(v: ClientView, form: OrderForm, ack: ServerMessage, ms: seq<ServerMessage>, last: ServerMessage)
    requires ack.OrderAck? && IsOrderUpdate(last) && last.orderId == ack.orderId
    ensures var final := ApplyAll(v, form, [ack] + ms + [last]);
      && |v.orders| < |final.orders|
      && SameOrder(final.orders[|v.orders|], AckedRow(ack, form))
      && final.orders[|v.orders|].status == EventStatus(last)
  {
    ApplyAllSnoc(v, form, [ack] + ms, last);
    var acked := Apply(v, form, Message(ack));
    assert ([ack] + ms)[0] == ack && ([ack] + ms)[1..] == ms;
    assert ApplyAll(v, form, [ack] + ms) == ApplyAll(acked, form, ms);
    assert acked.orders[|v.orders|] == AckedRow(ack, form);
  }

  /**
   * An order's life as the client sees it: the server's ORDER_ACK followed by everything the
   * pipeline sends leaves one new row, at the end of the list, with the order's id and labelled
   * from the held form, whose status is the one the pipeline's final message names (FILLED,
   * REJECTED or ERROR); the rows that were there before still describe the same orders.
   */
  lemma OrderLifecycle(v: ClientView, form: OrderForm, orderId: OrderId, order: Option<OrderData>,
                       quotes: map<Symbol, Quote>, d: Draws)
    ensures var final := ApplyAll(v, form, [OrderAck(orderId, "RECEIVED", OrderReceived)] + PipelineEvents(orderId, order, quotes, d));
      var row := final.orders[|v.orders|];
      && |v.orders| < |final.orders|
      && row.id == orderId && row.symbol == form.symbol && row.quantity == form.quantity && row.side == form.side
      && row.message == OrderReceived
      && row.status == EventStatus(Outcome(orderId, order, quotes, d))
      && row.status in {"FILLED", "REJECTED", "ERROR"}
      && (forall i :: 0 <= i < |v.orders| ==> SameOrder(final.orders[i], v.orders[i]))
  {
    var ack := OrderAck(orderId, "RECEIVED", OrderReceived);
    var events := PipelineEvents(orderId, order, quotes, d);
    var n := |events| - 1;
    var last := Outcome(orderId, order, quotes, d);
    assert events == events[..n] + [last];
    assert [ack] + events == [ack] + events[..n] + [last];
    AckedRowTakesLastStatus(v, form, ack, events[..n], last);
  }

  /**
   * `sendWebSocketMessage` succeeds, and the request leaves, only when the socket is OPEN;
   * the result pairs the request sent, if any, with the new value of the state it updates.
   */
  function SubscribeMarketData(open: bool, symbols: seq<Symbol>, prev: seq<Symbol>): (r: (Option<Envelope>, seq<Symbol>))
    ensures r.0.Some? <==> open
    ensures open ==> r.0.value == Envelope(Some(SubscribeType), Some(symbols), None)
    ensures !open ==> r.1 == prev
    ensures open ==> (forall y :: y in r.1 <==> y in prev || y in symbols) && NoDup(r.1)
  {
    if open then (Some(Envelope(Some(SubscribeType), Some(symbols), None)), InsertAll([], prev + symbols))
    else (None, prev)
  }

  /**
   * `[...new Set([...prev, ...symbols])]` on a duplicate-free list keeps the existing symbols
   * first, in their order, and adds the new ones after them in first-occurrence order.
   */
  lemma LocalSubscribeKeepsOrder(symbols: seq<Symbol>, prev: seq<Symbol>)
    requires NoDup(prev)
    ensures var local := SubscribeMarketData(true, symbols, prev).1;
      local == InsertAll(prev, symbols) && |prev| <= |local| && local[..|prev|] == prev
  {
    UnionOfDupFree(prev, symbols);
  }

  /**
   * The optimistic update agrees with the server: when the client's list is the server's
   * subscription list, the local union equals the list the server stores and echoes in
   * SUBSCRIBE_ACK, so the acknowledgement changes nothing.
   */
  lemma SubscribeAckConfirms(v: ClientView, form: OrderForm, ws: SocketId, symbols: seq<Symbol>, quotes: map<Symbol, Quote>)
    requires NoDup(v.subscribedSymbols)
    ensures var local := v.(subscribedSymbols := SubscribeMarketData(true, symbols, v.subscribedSymbols).1);
      var reply := SubscribedReply(ws, v.subscribedSymbols, symbols, quotes);
      && reply.newSubs == Some(local.subscribedSymbols)
      && Apply(local, form, Message(reply.sent[0])) == local
  {
    LocalSubscribeKeepsOrder(symbols, v.subscribedSymbols);
  }

  /** `prev.filter(s => !symbols.includes(s))`, applied only when the request is sent. */
  function UnsubscribeMarketData(open: bool, symbols: seq<Symbol>, prev: seq<Symbol>): (r: (Option<Envelope>, seq<Symbol>))
    ensures r.0.Some? <==> open
    ensures open ==> r.0.value == Envelope(Some(UnsubscribeType), Some(symbols), None)
    ensures forall y :: y in r.1 <==> y in prev && (open ==> y !in symbols)
    ensures |r.1| <= |prev|
    ensures NoDup(prev) ==> NoDup(r.1)
  {
    if open then (Some(Envelope(Some(UnsubscribeType), Some(symbols), None)), Without(prev, symbols))
    else (None, prev)
  }

  /**
   * The local removal agrees with the server's one-by-one deletes: the list the client keeps
   * is the remaining list of UNSUBSCRIBE_ACK, which therefore changes nothing.
   */
  lemma UnsubscribeAckConfirms(v: ClientView, form: OrderForm, symbols: seq<Symbol>)
    ensures var local := v.(subscribedSymbols := UnsubscribeMarketData(true, symbols, v.subscribedSymbols).1);
      var reply := UnsubscribedReply(v.subscribedSymbols, symbols);
      && reply.newSubs == Some(local.subscribedSymbols)
      && Apply(local, form, Message(reply.sent[0])) == local
  {
    DeleteAllIsWithout(v.subscribedSymbols, symbols);
  }

  /** What `placeOrder` returns, the request it sent and the form it leaves. */
  datatype Placement = Placement(ok: bool, sent: Option<Envelope>, form: OrderForm)

  /**
   * `placeOrder`: a form without a symbol or with a quantity that is not positive is refused
   * before anything is sent; a valid one is sent when the socket is OPEN, and only then is
   * the form reset to quantity 1 and an empty price, keeping symbol and side.
   */
  function PlaceOrder(open: bool, form: OrderForm): (p: Placement)
    ensures p.ok <==> form.symbol != "" && form.quantity > 0 && open
    ensures p.sent.Some? <==> p.ok
    ensures p.ok ==> p.sent.value == Envelope(Some(PlaceOrderType), None, Some(OrderData(form.symbol, Some(form.quantity), form.side)))
    ensures p.ok ==> p.form == form.(quantity := 1, price := "")
    ensures !p.ok ==> p.form == form
  {
    if form.symbol == "" || form.quantity == 0 || form.quantity <= 0 then Placement(false, None, form)
    else if !open then Placement(false, None, form)
    else
      Placement(true, Some(Envelope(Some(PlaceOrderType), None, Some(OrderData(form.symbol, Some(form.quantity), form.side)))),
                form.(quantity := 1, price := ""))
  }

  /**
   * Every order the client sends is routed to the order pipeline and passes the server's
   * format validation, so it can fail only on the risk check, the price lookup or the fill.
   */
  lemma PlacedOrderPassesValidation(open: bool, form: OrderForm)
    ensures var p := PlaceOrder(open, form);
      p.ok ==> KindOf(p.sent.value.msgType) == PlaceOrderKind && ValidateOrderFormat(p.sent.value.order)
  {
  }

  /**
   * A FILLED message from the server's pipeline is recorded as sent: its average price, total
   * and remaining quantity are all present and non-zero where they matter, so none of the
   * client's `||` fallbacks changes a value.
   */
  lemma ServerFillRecordedAsSent(row: OrderRow, orderId: OrderId, order: Option<OrderData>, quotes: map<Symbol, Quote>, d: Draws)
    ensures var m := Outcome(orderId, order, quotes, d);
      m.OrderFilled? ==>
        var r := Patch(row, m);
        && r.averagePrice == m.averagePrice && r.totalFilled == m.totalFilled
        && r.remainingQuantity == m.remainingQuantity && r.remainingQuantity == Some(0)
  {
  }

  /**
   * The acknowledged row need not describe the order that was placed: even if the handler held
   * the form as `placeOrder` leaves it, that form has been reset to quantity 1, so an order for
   * any other quantity is recorded with the wrong quantity.
   */
  lemma HeldFormIsNotThePlacedOrder(open: bool, form: OrderForm, ack: ServerMessage)
    requires PlaceOrder(open, form).ok && form.quantity != 1 && ack.OrderAck?
    ensures var p := PlaceOrder(open, form);
      AckedRow(ack, p.form).quantity != p.sent.value.order.value.quantity.value
  {
  }

  /**
   * The single-file server's messages lack the optional fields, so the client's fallbacks
   * fill them in: its PENDING acknowledgement gets the default text, and its fill is recorded
   * with the filled price as average, the filled quantity as total and nothing remaining.
   */
  lemma SimpleServerMessagesUseDefaults(row: OrderRow, form: OrderForm, p: PendingOrder, quotes: map<Symbol, Quote>, fillDraw: real)
    ensures var acked := AckedRow(OrderAck(p.orderId, "PENDING", ""), form);
      acked.status == "PENDING" && acked.message == DefaultAckMessage
    ensures var m := SimpleOrderOutcome(p, quotes, fillDraw);
      m.Some? && m.value.OrderFilled? ==>
        var r := Patch(row, m.value);
        && r.averagePrice == Some(m.value.filledPrice)
        && r.totalFilled == Some(m.value.filledQuantity)
        && r.remainingQuantity == Some(0)
  {
  }

  /**
   * A tick's batch brings the client's quotes for its subscribed symbols in line with the
   * server's store, and leaves every other symbol it held as it was.
   */
  lemma BatchSyncsSubscribed(v: ClientView, form: OrderForm, c: ClientInfo, quotes: map<Symbol, Quote>)
    ensures var r := Apply(v, form, Message(MarketBatch(Filtered(c.subscriptions, quotes))));
      && (forall s :: s in c.subscriptions && s in quotes ==> s in r.marketData && r.marketData[s] == quotes[s])
      && (forall s :: s in v.marketData && !(s in c.subscriptions && s in quotes) ==> r.marketData[s] == v.marketData[s])
  {
  }

  /** Receiving the same batch twice is the same as receiving it once. */
  lemma BatchIdempotent(prev: map<Symbol, Quote>, batch: map<Symbol, Quote>)
    ensures MergeMarketData(MergeMarketData(prev, batch), batch) == MergeMarketData(prev, batch)
  {
  }
}
