/**
 * The asynchronous order pipeline that follows an ORDER_ACK: validation, a risk check, a price
 * lookup and a simulated matching engine, each announced to the client, ending in exactly one
 * FILLED, REJECTED or ERROR message. The delays between the steps are not modelled; the values
 * `Math.random()` returns are parameters.
 */
module OrderProcessor {
  import opened Common
  import opened MarketData
  import opened Protocol
  import opened Validators
  import opened Transport

  /** The three `Math.random()` draws the pipeline makes: risk check, fill decision, fill price. */
  datatype Draws = Draws(risk: real, fill: real, slippage: real)

  /** A draw in the range `Math.random()` returns. */
  predicate InUnitRange(u: real) {
    0.0 <= u < 1.0
  }

  /** 90% of orders pass the risk check. */
  predicate RiskApproved(d: Draws) {
    d.risk > 0.1
  }

  /** 70% of submitted orders are filled. */
  predicate IsFilled(d: Draws) {
    d.fill > 0.3
  }

  /** The stages announced by ORDER_STATUS_UPDATE, in pipeline order. */
  datatype Stage = Validating | RiskChecking | Submitted

  const Stages: seq<Stage> := [Validating, RiskChecking, Submitted]

  function StageStatus(s: Stage): string {
    match s
    case Validating => "VALIDATING"
    case RiskChecking => "RISK_CHECKING"
    case Submitted => "SUBMITTED_TO_MATCHING_ENGINE"
  }

  function StageMessage(s: Stage): string {
    match s
    case Validating => "Order validation in progress"
    case RiskChecking => "Risk assessment in progress"
    case Submitted => "Order submitted for matching"
  }

  function StatusUpdate(orderId: OrderId, s: Stage): ServerMessage {
    OrderStatusUpdate(orderId, StageStatus(s), StageMessage(s))
  }

  /**
   * `marketData[symbol]?.price` read as a truth value: the price of a known symbol, or 0 for an
   * unknown one (0 and a missing price are both falsy, and both make the lookup fail).
   */
  function CurrentPrice(quotes: map<Symbol, Quote>, symbol: Symbol): real {
    if symbol in quotes then quotes[symbol].price else 0.0
  }

  /** `orderData.quantity || 1`. */
  function FilledQuantity(order: OrderData): int {
    if Truthy(order.quantity) then order.quantity.value else 1
  }

  /** The fill price: the current price moved by up to 1% either way. */
  function FillPrice(currentPrice: real, d: Draws): real {
    currentPrice * (1.0 + (d.slippage - 0.5) * 0.02)
  }

  /** How many status updates the pipeline sends before its final message (0 to 3). */
  function StagesPassed(order: Option<OrderData>, quotes: map<Symbol, Quote>, d: Draws): (n: nat)
    ensures n <= |Stages|
  {
    if !ValidateOrderFormat(order) then 0
    else if !RiskApproved(d) then 1
    else if CurrentPrice(quotes, order.value.symbol) == 0.0 then 2
    else 3
  }

  /** The error code thrown by the pipeline, if any. */
  function Failure(order: Option<OrderData>, quotes: map<Symbol, Quote>, d: Draws): (code: Option<string>)
    ensures code.Some? <==> StagesPassed(order, quotes, d) < |Stages|
  {
    if !ValidateOrderFormat(order) then Some(InvalidOrderFormat)
    else if !RiskApproved(d) then Some(RiskCheckFailed)
    else if CurrentPrice(quotes, order.value.symbol) == 0.0 then Some(SymbolNotFound)
    else None
  }

  /** The final message of the pipeline. */
  function Outcome(orderId: OrderId, order: Option<OrderData>, quotes: map<Symbol, Quote>, d: Draws): (m: ServerMessage)
    ensures IsTerminal(m) && m.orderId == orderId
  {
    match Failure(order, quotes, d)
    case Some(code) => OrderError(orderId, code, GetErrorMessage(code))
    case None =>
      if IsFilled(d) then
        var price := FillPrice(CurrentPrice(quotes, order.value.symbol), d);
        var qty := FilledQuantity(order.value);
        OrderFilled(orderId, price, qty, Some(price), Some(qty), Some(0))
      else
        OrderRejected(orderId, InsufficientLiquidity, Some("TRY_LIMIT_ORDER_OR_ADJUST_PRICE"))
  }

  /** The status updates announcing the first `n` stages. */
  function Announcements(orderId: OrderId, n: nat): seq<ServerMessage>
    requires n <= |Stages|
  {
    seq(n, k requires 0 <= k < n => StatusUpdate(orderId, Stages[k]))
  }

  /** Everything `processOrderAsync` sends, in order. */
  function PipelineEvents(orderId: OrderId, order: Option<OrderData>, quotes: map<Symbol, Quote>, d: Draws)
    : (events: seq<ServerMessage>)
    ensures |events| == StagesPassed(order, quotes, d) + 1
  {
    Announcements(orderId, StagesPassed(order, quotes, d)) + [Outcome(orderId, order, quotes, d)]
  }

  /**
   * Every order ends in exactly one terminal message, which is the last one sent; the ones
   * before it announce the stages in pipeline order; all carry the order's id.
   */
  lemma PipelineShape(orderId: OrderId, order: Option<OrderData>, quotes: map<Symbol, Quote>, d: Draws)
    ensures var events := PipelineEvents(orderId, order, quotes, d);
      && 1 <= |events| <= 4
      && IsTerminal(events[|events| - 1])
      && (forall k :: 0 <= k < |events| - 1 ==> !IsTerminal(events[k]) && events[k] == StatusUpdate(orderId, Stages[k]))
      && (forall k :: 0 <= k < |events| ==> IsOrderEvent(events[k]) && events[k].orderId == orderId)
  {
  }

  /**
   * No stage is skipped: a filled or rejected order is preceded by all three status updates,
   * and an error is preceded by exactly the stages before the step that failed (none for a
   * malformed order, validation for a failed risk check, validation and risk for a missing price).
   */
  lemma StagesBeforeOutcome(orderId: OrderId, order: Option<OrderData>, quotes: map<Symbol, Quote>, d: Draws)
    ensures var events := PipelineEvents(orderId, order, quotes, d);
      var m := Outcome(orderId, order, quotes, d);
      && (m.OrderFilled? || m.OrderRejected? ==> |events| == 4)
      && (m.OrderError? && m.errorCode == InvalidOrderFormat ==> |events| == 1)
      && (m.OrderError? && m.errorCode == RiskCheckFailed ==> |events| == 2)
      && (m.OrderError? && m.errorCode == SymbolNotFound ==> |events| == 3)
  {
  }

  /**
   * An order is filled exactly when it is well formed, passes the risk check, its symbol has a
   * price and the fill draw succeeds; it is rejected for liquidity exactly when only the last
   * of these fails, and then it suggests a limit order; otherwise it ends in an error naming
   * the first failed step.
   */
  lemma OutcomeCases(orderId: OrderId, order: Option<OrderData>, quotes: map<Symbol, Quote>, d: Draws)
    ensures var m := Outcome(orderId, order, quotes, d);
      && (m.OrderFilled? <==>
            ValidateOrderFormat(order) && RiskApproved(d) && order.value.symbol in quotes
            && quotes[order.value.symbol].price != 0.0 && IsFilled(d))
      && (m.OrderRejected? <==>
            ValidateOrderFormat(order) && RiskApproved(d) && CurrentPrice(quotes, order.value.symbol) != 0.0 && !IsFilled(d))
      && (m.OrderError? ==>
            m.errorCode == (if !ValidateOrderFormat(order) then InvalidOrderFormat
                            else if !RiskApproved(d) then RiskCheckFailed
                            else SymbolNotFound))
      && (m.OrderRejected? ==>
            m.reason == InsufficientLiquidity && m.suggestedAction == Some("TRY_LIMIT_ORDER_OR_ADJUST_PRICE"))
  {
  }

  /** An ERROR message always carries a known code, so its text comes from the table, never the fallback. */
  lemma ErrorsUseKnownCodes(orderId: OrderId, order: Option<OrderData>, quotes: map<Symbol, Quote>, d: Draws)
    ensures var m := Outcome(orderId, order, quotes, d);
      m.OrderError? ==>
        m.errorCode in ErrorMessages && m.errorMessage == ErrorMessages[m.errorCode] && m.errorMessage != UnknownErrorMessage
  {
    ErrorMessageIdentifiesCode(InvalidOrderFormat, InvalidOrderFormat);
    ErrorMessageIdentifiesCode(RiskCheckFailed, RiskCheckFailed);
    ErrorMessageIdentifiesCode(SymbolNotFound, SymbolNotFound);
  }

  /**
   * A fill reports the whole quantity at once: at least one unit (a negative quantity fails
   * validation and a zero one defaults to 1), the average price equal to the fill price,
   * nothing remaining, and a price within 1% of the current price when the draw is in range.
   * A missing or zero quantity fills exactly one unit.
   */
  lemma FillIsComplete(orderId: OrderId, order: Option<OrderData>, quotes: map<Symbol, Quote>, d: Draws)
    requires InUnitRange(d.slippage)
    ensures var m := Outcome(orderId, order, quotes, d);
      m.OrderFilled? ==>
        && m.filledQuantity >= 1
        && m.averagePrice == Some(m.filledPrice)
        && m.totalFilled == Some(m.filledQuantity)
        && m.remainingQuantity == Some(0)
        && (order.value.quantity.Some? && order.value.quantity.value > 0 ==> m.filledQuantity == order.value.quantity.value)
        && (!Truthy(order.value.quantity) ==> m.filledQuantity == 1)
        && var p := quotes[order.value.symbol].price;
           (p > 0.0 ==> 0.99 * p <= m.filledPrice < 1.01 * p)
  {
    var m := Outcome(orderId, order, quotes, d);
    if m.OrderFilled? {
      var p := quotes[order.value.symbol].price;
      var factor := 1.0 + (d.slippage - 0.5) * 0.02;
      if p > 0.0 {
        ScaleWithin(p, factor, 0.99, 1.01);
      }
    }
  }

  /** Scaling a positive amount by a factor in [lo, hi) lands in [lo * p, hi * p). */
  lemma ScaleWithin(p: real, factor: real, lo: real, hi: real)
    requires p > 0.0 && lo <= factor < hi
    ensures lo * p <= p * factor < hi * p
  {
    assert p * factor - lo * p == p * (factor - lo);
    assert hi * p - p * factor == p * (hi - factor);
  }

  /** A malformed order never reaches the risk check, so it is announced by nothing but its error. */
  lemma InvalidOrderFailsImmediately(orderId: OrderId, order: Option<OrderData>, quotes: map<Symbol, Quote>, d: Draws)
    requires !ValidateOrderFormat(order)
    ensures PipelineEvents(orderId, order, quotes, d)
      == [OrderError(orderId, InvalidOrderFormat, "Order format is invalid")]
  {
  }

  /**
   * `processOrderAsync(ws, orderId, orderData)`: the status updates and the final message, all
   * sent on `ws`; a thrown error code is caught and turned into ORDER_ERROR. The price is read
   * from `store` when the method runs.
   */
  method ProcessOrderAsync(net: Network, store: MarketStore, ws: SocketId, orderId: OrderId, order: Option<OrderData>, d: Draws)
    modifies net
    ensures net.outbox == old(net.outbox) + To(ws, PipelineEvents(orderId, order, store.quotes, d))
    ensures net.readyState == old(net.readyState) && net.timers == old(net.timers) && net.closes == old(net.closes)
  {
    ghost var announced := Announcements(orderId, StagesPassed(order, store.quotes, d));
    ghost var last := Outcome(orderId, order, store.quotes, d);
    assert PipelineEvents(orderId, order, store.quotes, d) == announced + [last];
    var thrown := RunStages(net, store, ws, orderId, order, d);
    if thrown.Some? {
      var error := OrderError(orderId, thrown.value, GetErrorMessage(thrown.value));
      assert error == last;
      assert net.outbox == old(net.outbox) + To(ws, announced);
      net.Send(ws, error);
      ToConcat(ws, announced, [error]);
    }
  }

  /**
   * The `try` block of `processOrderAsync`: the stage announcements and, when no step throws,
   * the FILLED or REJECTED message; returns the code thrown, if any.
   */
  method RunStages(net: Network, store: MarketStore, ws: SocketId, orderId: OrderId, order: Option<OrderData>, d: Draws)
    returns (thrown: Option<string>)
    modifies net
    ensures thrown == Failure(order, store.quotes, d)
    ensures net.outbox == old(net.outbox)
      + To(ws, Announcements(orderId, StagesPassed(order, store.quotes, d))
               + (if thrown.None? then [Outcome(orderId, order, store.quotes, d)] else []))
    ensures net.readyState == old(net.readyState) && net.timers == old(net.timers) && net.closes == old(net.closes)
  {
    ghost var sent: seq<ServerMessage> := [];
    assert net.outbox == old(net.outbox) + To(ws, sent);
    if !ValidateOrderFormat(order) {
      return Some(InvalidOrderFormat);
    }
    sent := SendOn(net, ws, StatusUpdate(orderId, Validating), sent);
    if !RiskApproved(d) {
      assert sent == Announcements(orderId, 1);
      return Some(RiskCheckFailed);
    }
    sent := SendOn(net, ws, StatusUpdate(orderId, RiskChecking), sent);
    var quote := store.GetMarketData(order.value.symbol);
    var currentPrice := if quote.Some? then quote.value.price else 0.0;
    if currentPrice == 0.0 {
      assert sent == Announcements(orderId, 2);
      return Some(SymbolNotFound);
    }
    sent := SendOn(net, ws, StatusUpdate(orderId, Submitted), sent);
    assert sent == Announcements(orderId, 3);
    if IsFilled(d) {
      var filledPrice := FillPrice(currentPrice, d);
      var filledQuantity := FilledQuantity(order.value);
      sent := SendOn(net, ws, OrderFilled(orderId, filledPrice, filledQuantity, Some(filledPrice), Some(filledQuantity), Some(0)), sent);
    } else {
      sent := SendOn(net, ws, OrderRejected(orderId, InsufficientLiquidity, Some("TRY_LIMIT_ORDER_OR_ADJUST_PRICE")), sent);
    }
    thrown := None;
  }

  /**
   * `ws.send(msg)` in the pipeline. The ghost `sent` lists the messages the pipeline has
   * sent on `ws` so far, and the outbox grows by exactly their deliveries.
   */
  method SendOn(net: Network, ws: SocketId, msg: ServerMessage, ghost sent: seq<ServerMessage>)
    returns (ghost sent': seq<ServerMessage>)
    modifies net
    ensures sent' == sent + [msg]
    ensures forall before :: net.outbox == before + To(ws, sent') <== old(net.outbox) == before + To(ws, sent)
    ensures net.readyState == old(net.readyState) && net.timers == old(net.timers) && net.closes == old(net.closes)
  {
    net.Send(ws, msg);
    sent' := sent + [msg];
    ToConcat(ws, sent, [msg]);
  }
}
