/**
 * The request router of the modular server: one decoded frame from a client is answered on
 * the client's socket, may change that client's subscriptions, may schedule initial
 * snapshots, and for PLACE_ORDER hands an order to the asynchronous pipeline.
 *
 * What one frame does is first given as a value, `Route`, and the handler methods are proved
 * to do exactly that.
 */
module MessageHandler {
  import opened Common
  import opened OrderedSet
  import opened MarketData
  import opened Protocol
  import opened Transport
  import opened ClientManager

  const InvalidJson := "Invalid JSON format"
  const ClientNotFound := "Client not found"
  const CannotUnsubscribe := "Cannot unsubscribe - client not found or no subscriptions"
  const OrderReceived := "Order received and queued for processing"

  /** Milliseconds between the initial snapshots of consecutive requested symbols. */
  const SnapshotSpacingMs := 100

  /** The request types the router knows, and everything else. */
  datatype Kind = SubscribeKind | UnsubscribeKind | PlaceOrderKind | HeartbeatKind | PingKind | UnknownKind

  /** The `type` text of a known request kind. */
  function TypeName(k: Kind): string
    requires k != UnknownKind
  {
    match k
    case SubscribeKind => SubscribeType
    case UnsubscribeKind => UnsubscribeType
    case PlaceOrderKind => PlaceOrderType
    case HeartbeatKind => HeartbeatType
    case PingKind => PingType
  }

  /** The `switch (data.type)`. */
  function KindOf(msgType: Option<string>): (k: Kind)
    ensures k != UnknownKind ==> msgType == Some(TypeName(k))
  {
    if msgType == Some(SubscribeType) then SubscribeKind
    else if msgType == Some(UnsubscribeType) then UnsubscribeKind
    else if msgType == Some(PlaceOrderType) then PlaceOrderKind
    else if msgType == Some(HeartbeatType) then HeartbeatKind
    else if msgType == Some(PingType) then PingKind
    else UnknownKind
  }

  /** Every known type name selects its own case, so no case shadows another. */
  lemma KindOfTypeName(k: Kind)
    requires k != UnknownKind
    ensures KindOf(Some(TypeName(k))) == k
  {
  }

  /**
   * An order handed to `processOrderAsync`, to run after the handler returns, with the socket
   * of the client that placed it, on which all its updates go.
   */
  datatype PendingOrder = PendingOrder(ws: SocketId, orderId: OrderId, order: Option<OrderData>)

  /**
   * What one frame does: the new subscription set of the sending client (if it changes), the
   * messages sent at once on its socket, the snapshot timers set, and the order spawned.
   */
  datatype Reply = Reply(newSubs: Option<seq<Symbol>>, sent: seq<ServerMessage>, scheduled: seq<Timer>, spawned: Option<PendingOrder>)

  function Sends(msgs: seq<ServerMessage>): Reply {
    Reply(None, msgs, [], None)
  }

  /** The client map after a reply: only the sending client's subscriptions can change. */
  function WithSubscriptions(clients: map<ClientId, ClientInfo>, clientId: ClientId, newSubs: Option<seq<Symbol>>)
    : (r: map<ClientId, ClientInfo>)
    ensures r.Keys == clients.Keys
    ensures forall id :: id in r && id != clientId ==> r[id] == clients[id]
    ensures newSubs.Some? && clientId in clients ==> r[clientId] == clients[clientId].(subscriptions := newSubs.value)
    ensures newSubs.None? || clientId !in clients ==> r == clients
  {
    if newSubs.Some? && clientId in clients then clients[clientId := clients[clientId].(subscriptions := newSubs.value)]
    else clients
  }

  /** The ERROR sent for a requested symbol the store does not have. */
  function SymbolError(symbol: Symbol): ServerMessage {
    Error("Symbol " + symbol + " not available", Some(symbol))
  }

  /** The snapshot timers of a SUBSCRIBE request: one per known symbol, 100 ms times its index. */
  function SnapshotTimers(ws: SocketId, symbols: seq<Symbol>, quotes: map<Symbol, Quote>): (ts: seq<Timer>)
    ensures |ts| <= |symbols|
    ensures forall t :: t in ts ==>
      && t.to == ws && t.symbol in quotes
      && t.delayMs % SnapshotSpacingMs == 0 && t.delayMs < SnapshotSpacingMs * |symbols|
      && symbols[t.delayMs / SnapshotSpacingMs] == t.symbol
    decreases |symbols|
  {
    if symbols == [] then []
    else
      var n := |symbols| - 1;
      var earlier := SnapshotTimers(ws, symbols[..n], quotes);
      if symbols[n] in quotes then earlier + [Timer(ws, SnapshotSpacingMs * n, symbols[n])] else earlier
  }

  /** The ERROR messages of a SUBSCRIBE request: one per unknown symbol, in request order. */
  function UnknownSymbolErrors(symbols: seq<Symbol>, quotes: map<Symbol, Quote>): (es: seq<ServerMessage>)
    ensures |es| <= |symbols|
    ensures forall e :: e in es ==>
      e.Error? && e.about.Some?
    decreases |symbols|
  {
    if symbols == [] then []
    else
      var n := |symbols| - 1;
      var earlier := UnknownSymbolErrors(symbols[..n], quotes);
      if symbols[n] in quotes then earlier else earlier + [SymbolError(symbols[n])]
  }

  /** Every requested symbol gets exactly one answer, a snapshot timer or an ERROR. */
  lemma {:induction false} AnswerCount(ws: SocketId, symbols: seq<Symbol>, quotes: map<Symbol, Quote>)
    ensures |SnapshotTimers(ws, symbols, quotes)| + |UnknownSymbolErrors(symbols, quotes)| == |symbols|
    decreases |symbols|
  {
    if symbols != [] {
      AnswerCount(ws, symbols[..|symbols| - 1], quotes);
    }
  }

  /** A symbol the store knows gets its snapshot timer, at 100 ms times its index. */
  lemma {:induction false} KnownSymbolsScheduled(ws: SocketId, symbols: seq<Symbol>, quotes: map<Symbol, Quote>)
    ensures forall i :: 0 <= i < |symbols| && symbols[i] in quotes ==>
      Timer(ws, SnapshotSpacingMs * i, symbols[i]) in SnapshotTimers(ws, symbols, quotes)
    decreases |symbols|
  {
    if symbols != [] {
      var n := |symbols| - 1;
      KnownSymbolsScheduled(ws, symbols[..n], quotes);
      forall i | 0 <= i < n && symbols[i] in quotes
        ensures Timer(ws, SnapshotSpacingMs * i, symbols[i]) in SnapshotTimers(ws, symbols, quotes)
      {
        assert symbols[..n][i] == symbols[i];
      }
    }
  }

  /** Each symbol ERROR names a requested symbol the store does not know. */
  lemma {:induction false} ErrorsNameUnknownSymbols(symbols: seq<Symbol>, quotes: map<Symbol, Quote>)
    ensures forall e :: e in UnknownSymbolErrors(symbols, quotes) ==>
      e.about.value in symbols && e.about.value !in quotes && e == SymbolError(e.about.value)
    decreases |symbols|
  {
    if symbols != [] {
      var n := |symbols| - 1;
      ErrorsNameUnknownSymbols(symbols[..n], quotes);
      assert forall s :: s in symbols[..n] ==> s in symbols;
    }
  }

  /** A symbol the store does not know gets an ERROR naming it. */
  lemma {:induction false} UnknownSymbolsReported(symbols: seq<Symbol>, quotes: map<Symbol, Quote>)
    ensures forall i :: 0 <= i < |symbols| && symbols[i] !in quotes ==>
      SymbolError(symbols[i]) in UnknownSymbolErrors(symbols, quotes)
    decreases |symbols|
  {
    if symbols != [] {
      var n := |symbols| - 1;
      UnknownSymbolsReported(symbols[..n], quotes);
      forall i | 0 <= i < n && symbols[i] !in quotes
        ensures SymbolError(symbols[i]) in UnknownSymbolErrors(symbols, quotes)
      {
        assert symbols[..n][i] == symbols[i];
      }
    }
  }

  /** Timers listed in strictly increasing delay order. */
  ghost predicate Staggered(ts: seq<Timer>) {
    forall j, k :: 0 <= j < k < |ts| ==> ts[j].delayMs < ts[k].delayMs
  }

  /** The snapshots are staggered: they are scheduled in strictly increasing delay order. */
  lemma {:induction false} SnapshotsStaggered(ws: SocketId, symbols: seq<Symbol>, quotes: map<Symbol, Quote>)
    ensures Staggered(SnapshotTimers(ws, symbols, quotes))
    decreases |symbols|
  {
    if symbols != [] {
      var n := |symbols| - 1;
      SnapshotsStaggered(ws, symbols[..n], quotes);
      var earlier := SnapshotTimers(ws, symbols[..n], quotes);
      var ts := SnapshotTimers(ws, symbols, quotes);
      forall j, k | 0 <= j < k < |ts|
        ensures ts[j].delayMs < ts[k].delayMs
      {
        assert ts[j] == earlier[j] && ts[j] in earlier;
        assert ts[j].delayMs < SnapshotSpacingMs * n;
        if k < |earlier| {
          assert ts[k] == earlier[k];
          assert earlier[j].delayMs < earlier[k].delayMs;
        } else {
          assert ts[k].delayMs == SnapshotSpacingMs * n;
        }
      }
    }
  }

  /** A SUBSCRIBE request from a registered client with a `symbols` array. */
  function SubscribedReply(ws: SocketId, subs: seq<Symbol>, symbols: seq<Symbol>, quotes: map<Symbol, Quote>): (r: Reply)
    ensures r.newSubs.Some? && (forall y :: y in r.newSubs.value <==> y in subs || y in symbols)
    ensures NoDup(subs) ==> NoDup(r.newSubs.value)
    ensures |r.sent| >= 1 && r.sent[0] == SubscribeAck(r.newSubs.value, |symbols|)
    ensures r.spawned.None?
  {
    var merged := InsertAll(subs, symbols);
    Reply(Some(merged), [SubscribeAck(merged, |symbols|)] + UnknownSymbolErrors(symbols, quotes),
          SnapshotTimers(ws, symbols, quotes), None)
  }

  /** An UNSUBSCRIBE request from a registered client with a `symbols` array. */
  function UnsubscribedReply(subs: seq<Symbol>, symbols: seq<Symbol>): (r: Reply)
    ensures r.newSubs.Some? && (forall y :: y in r.newSubs.value <==> y in subs && y !in symbols)
    ensures NoDup(subs) ==> NoDup(r.newSubs.value)
    ensures r.sent == [UnsubscribeAck(symbols, r.newSubs.value)] && r.scheduled == [] && r.spawned.None?
  {
    var remaining := DeleteAll(subs, symbols);
    Reply(Some(remaining), [UnsubscribeAck(symbols, remaining)], [], None)
  }

  /**
   * `handleSubscribeMarketData`; `None` when it throws (a registered client but no `symbols`
   * array), which happens before anything changes.
   */
  function SubscribeReply(ws: SocketId, client: Option<ClientInfo>, quotes: map<Symbol, Quote>, symbols: Option<seq<Symbol>>)
    : (r: Option<Reply>)
    ensures r.None? <==> client.Some? && symbols.None?
    ensures client.None? ==> r == Some(Sends([Error(ClientNotFound, None)]))
    ensures r.Some? && r.value.newSubs.Some? ==> client.Some? && symbols.Some?
    ensures r.Some? ==> |r.value.sent| >= 1 && r.value.spawned.None?
  {
    if client.None? then Some(Sends([Error(ClientNotFound, None)]))
    else if symbols.None? then None
    else Some(SubscribedReply(ws, client.value.subscriptions, symbols.value, quotes))
  }

  /** `handleUnsubscribeMarketData`; `None` when it throws. */
  function UnsubscribeReply(client: Option<ClientInfo>, symbols: Option<seq<Symbol>>): (r: Option<Reply>)
    ensures r.None? <==> client.Some? && symbols.None?
    ensures client.None? ==> r == Some(Sends([Error(CannotUnsubscribe, None)]))
    ensures r.Some? ==> |r.value.sent| == 1 && r.value.scheduled == [] && r.value.spawned.None?
  {
    if client.None? then Some(Sends([Error(CannotUnsubscribe, None)]))
    else if symbols.None? then None
    else Some(UnsubscribedReply(client.value.subscriptions, symbols.value))
  }

  /** A handler that threw is answered by the catch in `handleMessage`. */
  function Caught(r: Option<Reply>): (c: Reply)
    ensures r.Some? ==> c == r.value
    ensures r.None? ==> c.newSubs.None? && c.sent == [Error(InvalidJson, None)] && c.scheduled == [] && c.spawned.None?
  {
    if r.Some? then r.value else Sends([Error(InvalidJson, None)])
  }

  /**
   * `handleMessage(ws, clientId, message)` given the sender's record (`getClient`), the store
   * and the id the order would get; `parsed` is `None` when `JSON.parse` throws.
   */
  function Route(ws: SocketId, client: Option<ClientInfo>, quotes: map<Symbol, Quote>, parsed: Option<Envelope>, orderId: OrderId)
    : (r: Reply)
    ensures |r.sent| >= 1
    ensures r.spawned.Some? <==> parsed.Some? && KindOf(parsed.value.msgType) == PlaceOrderKind
    ensures r.newSubs.Some? ==> parsed.Some? && client.Some? && parsed.value.symbols.Some?
  {
    match parsed
    case None => Sends([Error(InvalidJson, None)])
    case Some(env) =>
      match KindOf(env.msgType)
      case SubscribeKind => Caught(SubscribeReply(ws, client, quotes, env.symbols))
      case UnsubscribeKind => Caught(UnsubscribeReply(client, env.symbols))
      case PlaceOrderKind => Reply(None, [OrderAck(orderId, "RECEIVED", OrderReceived)], [], Some(PendingOrder(ws, orderId, env.order)))
      case HeartbeatKind => Sends([HeartbeatAck])
      case PingKind => Sends([Pong])
      case UnknownKind => Sends([Error("Unknown message type: " + TypeText(env.msgType), None)])
  }

  /**
   * Every frame is answered at once by exactly one acknowledgement or error, followed by
   * nothing but per-symbol errors; subscriptions change only on an acknowledged SUBSCRIBE or
   * UNSUBSCRIBE from a registered client; timers are set only by SUBSCRIBE; an order is spawned
   * exactly for PLACE_ORDER, with the id its ORDER_ACK announced.
   */
  lemma RouteShape(ws: SocketId, client: Option<ClientInfo>, quotes: map<Symbol, Quote>, parsed: Option<Envelope>, orderId: OrderId)
    ensures var r := Route(ws, client, quotes, parsed, orderId);
      && |r.sent| >= 1
      && (forall k :: 1 <= k < |r.sent| ==> r.sent[k].Error? && r.sent[k].about.Some?)
      && (r.newSubs.Some? <==> r.sent[0].SubscribeAck? || r.sent[0].UnsubscribeAck?)
      && (r.newSubs.Some? ==> client.Some?)
      && (r.scheduled != [] ==> r.sent[0].SubscribeAck?)
      && (r.spawned.Some? <==> parsed.Some? && KindOf(parsed.value.msgType) == PlaceOrderKind)
      && (r.spawned.Some? ==> r.sent == [OrderAck(orderId, "RECEIVED", OrderReceived)]
                              && r.spawned.value == PendingOrder(ws, orderId, parsed.value.order))
  {
    var r := Route(ws, client, quotes, parsed, orderId);
    if parsed.Some? && KindOf(parsed.value.msgType) == SubscribeKind && client.Some? && parsed.value.symbols.Some? {
      var errs := UnknownSymbolErrors(parsed.value.symbols.value, quotes);
      forall k | 1 <= k < |r.sent|
        ensures r.sent[k].Error? && r.sent[k].about.Some?
      {
        assert r.sent[k] == errs[k - 1] && errs[k - 1] in errs;
      }
    }
  }

  /**
   * Subscribing adds: the new set holds exactly the old subscriptions and the requested
   * symbols, without duplicates, with the old ones first in their old order; the
   * acknowledgement reports that set and the number of symbols requested.
   */
  lemma SubscribeIsUnion(ws: SocketId, subs: seq<Symbol>, symbols: seq<Symbol>, quotes: map<Symbol, Quote>)
    requires NoDup(subs)
    ensures var r := SubscribedReply(ws, subs, symbols, quotes);
      && r.newSubs.Some?
      && Elems(r.newSubs.value) == Elems(subs) + Elems(symbols)
      && NoDup(r.newSubs.value)
      && r.newSubs.value[..|subs|] == subs
      && r.sent[0] == SubscribeAck(r.newSubs.value, |symbols|)
  {
  }

  /** Subscribing again to symbols already subscribed changes nothing. */
  lemma {:induction false} SubscribeIdempotent(subs: seq<Symbol>, symbols: seq<Symbol>)
    requires forall s :: s in symbols ==> s in subs
    ensures InsertAll(subs, symbols) == subs
    decreases |symbols|
  {
    if symbols != [] {
      SubscribeIdempotent(subs, symbols[..|symbols| - 1]);
    }
  }

  /**
   * Unsubscribing removes: the remaining set holds exactly the old subscriptions that were not
   * named, in their old order, and the acknowledgement echoes the request.
   */
  lemma UnsubscribeIsDifference(subs: seq<Symbol>, symbols: seq<Symbol>)
    requires NoDup(subs)
    ensures var r := UnsubscribedReply(subs, symbols);
      && r.newSubs == Some(Without(subs, symbols))
      && Elems(r.newSubs.value) == Elems(subs) - Elems(symbols)
      && NoDup(r.newSubs.value)
      && r.sent == [UnsubscribeAck(symbols, r.newSubs.value)]
  {
    DeleteAllIsWithout(subs, symbols);
  }

  /** Unsubscribing from what was just subscribed leaves exactly what was there before, minus those symbols. */
  lemma SubscribeThenUnsubscribe(ws: SocketId, subs: seq<Symbol>, symbols: seq<Symbol>, quotes: map<Symbol, Quote>)
    requires NoDup(subs)
    ensures var merged := SubscribedReply(ws, subs, symbols, quotes).newSubs.value;
      UnsubscribedReply(merged, symbols).newSubs.value == Without(subs, symbols)
  {
    var merged := InsertAll(subs, symbols);
    DeleteAllIsWithout(merged, symbols);
    DropSuffixOfNamed(subs, merged, symbols);
  }

  /** Filtering out `xs` from `s` extended by elements of `xs` is filtering `s`. */
  lemma {:induction false} DropSuffixOfNamed(s: seq<Symbol>, t: seq<Symbol>, xs: seq<Symbol>)
    requires |s| <= |t| && t[..|s|] == s
    requires forall k :: |s| <= k < |t| ==> t[k] in xs
    ensures Without(t, xs) == Without(s, xs)
    decreases |s|
  {
    if s == [] {
      AllNamed(t, xs);
    } else {
      assert t[1..][..|s[1..]|] == s[1..];
      DropSuffixOfNamed(s[1..], t[1..], xs);
    }
  }

  lemma {:induction false} AllNamed(t: seq<Symbol>, xs: seq<Symbol>)
    requires forall k :: 0 <= k < |t| ==> t[k] in xs
    ensures Without(t, xs) == []
    decreases |t|
  {
    if t != [] {
      AllNamed(t[1..], xs);
    }
  }

  /**
   * The effects of one reply on the network and the registry: the messages appended to the
   * sender's socket, the timers added, and the sender's subscriptions updated; nothing else.
   */
  twostate predicate Performed(net: Network, registry: ClientRegistry, ws: SocketId, clientId: ClientId, r: Reply)
    reads net, registry
  {
    && net.outbox == old(net.outbox) + To(ws, r.sent)
    && net.timers == old(net.timers) + r.scheduled
    && net.readyState == old(net.readyState) && net.closes == old(net.closes)
    && registry.keys == old(registry.keys)
    && registry.clients == WithSubscriptions(old(registry.clients), clientId, r.newSubs)
  }

  /** `symbols.forEach(s => subscriptions.add(s))` on a copy of the client's set. */
  method MergeSymbols(subs: seq<Symbol>, symbols: seq<Symbol>) returns (merged: seq<Symbol>)
    ensures merged == InsertAll(subs, symbols)
  {
    merged := subs;
    var i := 0;
    while i < |symbols|
      invariant 0 <= i <= |symbols|
      invariant merged == InsertAll(subs, symbols[..i])
    {
      assert symbols[..i + 1][..i] == symbols[..i];
      merged := Insert(merged, symbols[i]);
      i := i + 1;
    }
    assert symbols[..|symbols|] == symbols;
  }

  /** `symbols.forEach(s => subscriptions.delete(s))` on a copy of the client's set. */
  method RemoveSymbols(subs: seq<Symbol>, symbols: seq<Symbol>) returns (remaining: seq<Symbol>)
    ensures remaining == DeleteAll(subs, symbols)
  {
    remaining := subs;
    var i := 0;
    while i < |symbols|
      invariant 0 <= i <= |symbols|
      invariant remaining == DeleteAll(subs, symbols[..i])
    {
      assert symbols[..i + 1][..i] == symbols[..i];
      remaining := Delete(remaining, symbols[i]);
      i := i + 1;
    }
    assert symbols[..|symbols|] == symbols;
  }

  /** One more symbol adds its timer or its error to those of the symbols before it. */
  lemma InitialDataStep(ws: SocketId, symbols: seq<Symbol>, i: nat, quotes: map<Symbol, Quote>)
    requires i < |symbols|
    ensures SnapshotTimers(ws, symbols[..i + 1], quotes) == SnapshotTimers(ws, symbols[..i], quotes)
      + (if symbols[i] in quotes then [Timer(ws, SnapshotSpacingMs * i, symbols[i])] else [])
    ensures UnknownSymbolErrors(symbols[..i + 1], quotes) == UnknownSymbolErrors(symbols[..i], quotes)
      + (if symbols[i] in quotes then [] else [SymbolError(symbols[i])])
  {
    assert symbols[..i + 1][..i] == symbols[..i];
  }

  /** The initial-data loop: a snapshot timer per known symbol, an ERROR per unknown one. */
  method SendInitialData(net: Network, store: MarketStore, ws: SocketId, symbols: seq<Symbol>)
    modifies net
    ensures net.outbox == old(net.outbox) + To(ws, UnknownSymbolErrors(symbols, store.quotes))
    ensures net.timers == old(net.timers) + SnapshotTimers(ws, symbols, store.quotes)
    ensures net.readyState == old(net.readyState) && net.closes == old(net.closes)
  {
    var i := 0;
    ghost var errs: seq<ServerMessage> := [];
    ghost var ts: seq<Timer> := [];
    while i < |symbols|
      invariant 0 <= i <= |symbols|
      invariant errs == UnknownSymbolErrors(symbols[..i], store.quotes)
      invariant ts == SnapshotTimers(ws, symbols[..i], store.quotes)
      invariant net.outbox == old(net.outbox) + To(ws, errs)
      invariant net.timers == old(net.timers) + ts
      invariant net.readyState == old(net.readyState) && net.closes == old(net.closes)
    {
      InitialDataStep(ws, symbols, i, store.quotes);
      var symbol := symbols[i];
      var quote := store.GetMarketData(symbol);
      if quote.Some? {
        net.SetTimeout(ws, SnapshotSpacingMs * i, symbol);
        ts := ts + [Timer(ws, SnapshotSpacingMs * i, symbol)];
      } else {
        ToConcat(ws, errs, [SymbolError(symbol)]);
        net.Send(ws, SymbolError(symbol));
        errs := errs + [SymbolError(symbol)];
      }
      i := i + 1;
    }
    assert symbols[..|symbols|] == symbols;
  }

  /**
   * The body of the SUBSCRIBE handler once the client is found and `symbols` is an array:
   * add the symbols, store the set, acknowledge, then schedule a snapshot or send an error
   * per symbol.
   */
  method AddSubscriptions(net: Network, registry: ClientRegistry, store: MarketStore, ws: SocketId, clientId: ClientId, symbols: seq<Symbol>)
    requires registry.Valid() && clientId in registry.clients
    modifies net, registry
    ensures registry.Valid()
    ensures Performed(net, registry, ws, clientId, SubscribedReply(ws, old(registry.clients[clientId].subscriptions), symbols, store.quotes))
  {
    var client := registry.GetClient(clientId);
    var subs := MergeSymbols(client.value.subscriptions, symbols);
    registry.UpdateClientSubscriptions(clientId, subs);
    net.Send(ws, SubscribeAck(subs, |symbols|));
    SendInitialData(net, store, ws, symbols);
    ToConcat(ws, [SubscribeAck(subs, |symbols|)], UnknownSymbolErrors(symbols, store.quotes));
  }

  /**
   * The body of the UNSUBSCRIBE handler once the client is found and `symbols` is an array:
   * delete the symbols from the client's set in place and acknowledge.
   */
  method RemoveSubscriptions(net: Network, registry: ClientRegistry, ws: SocketId, clientId: ClientId, symbols: seq<Symbol>)
    requires registry.Valid() && clientId in registry.clients
    modifies net, registry
    ensures registry.Valid()
    ensures Performed(net, registry, ws, clientId, UnsubscribedReply(old(registry.clients[clientId].subscriptions), symbols))
  {
    var client := registry.GetClient(clientId);
    var remaining := RemoveSymbols(client.value.subscriptions, symbols);
    registry.UpdateClientSubscriptions(clientId, remaining);
    net.Send(ws, UnsubscribeAck(symbols, remaining));
  }

  /** `handleSubscribeMarketData`; `threw` reports the TypeError of a missing `symbols` array. */
  method HandleSubscribeMarketData(net: Network, registry: ClientRegistry, store: MarketStore, ws: SocketId, clientId: ClientId, symbols: Option<seq<Symbol>>)
    returns (threw: bool)
    requires registry.Valid()
    modifies net, registry
    ensures registry.Valid()
    ensures var r := SubscribeReply(ws, old(registry.GetClient(clientId)), store.quotes, symbols);
      && (threw <==> r.None?)
      && Performed(net, registry, ws, clientId, if r.Some? then r.value else Sends([]))
  {
    var client := registry.GetClient(clientId);
    if client.None? {
      net.Send(ws, Error(ClientNotFound, None));
      return false;
    }
    if symbols.None? {
      return true;
    }
    AddSubscriptions(net, registry, store, ws, clientId, symbols.value);
    return false;
  }

  /** `handleUnsubscribeMarketData`; `threw` reports the TypeError of a missing `symbols` array. */
  method HandleUnsubscribeMarketData(net: Network, registry: ClientRegistry, ws: SocketId, clientId: ClientId, symbols: Option<seq<Symbol>>)
    returns (threw: bool)
    requires registry.Valid()
    modifies net, registry
    ensures registry.Valid()
    ensures var r := UnsubscribeReply(old(registry.GetClient(clientId)), symbols);
      && (threw <==> r.None?)
      && Performed(net, registry, ws, clientId, if r.Some? then r.value else Sends([]))
  {
    var client := registry.GetClient(clientId);
    if client.None? {
      net.Send(ws, Error(CannotUnsubscribe, None));
      return false;
    }
    if symbols.None? {
      return true;
    }
    RemoveSubscriptions(net, registry, ws, clientId, symbols.value);
    return false;
  }

  /** `handlePlaceOrder`: acknowledge at once and hand the order to the pipeline. */
  method HandlePlaceOrder(net: Network, ws: SocketId, orderId: OrderId, order: Option<OrderData>)
    returns (spawned: PendingOrder)
    modifies net
    ensures net.outbox == old(net.outbox) + [Delivery(ws, OrderAck(orderId, "RECEIVED", OrderReceived))]
    ensures net.timers == old(net.timers) && net.readyState == old(net.readyState) && net.closes == old(net.closes)
    ensures spawned == PendingOrder(ws, orderId, order)
  {
    net.Send(ws, OrderAck(orderId, "RECEIVED", OrderReceived));
    spawned := PendingOrder(ws, orderId, order);
  }

  /**
   * `handleMessage(ws, clientId, message)`: does exactly what `Route` says, and returns the
   * order to run through `processOrderAsync`, if any.
   */
  method HandleMessage(net: Network, registry: ClientRegistry, store: MarketStore, ws: SocketId, clientId: ClientId,
                       parsed: Option<Envelope>, orderId: OrderId)
    returns (spawned: Option<PendingOrder>)
    requires registry.Valid()
    modifies net, registry
    ensures registry.Valid()
    ensures var r := Route(ws, old(registry.GetClient(clientId)), store.quotes, parsed, orderId);
      Performed(net, registry, ws, clientId, r) && spawned == r.spawned
  {
    spawned := None;
    if parsed.None? {
      net.Send(ws, Error(InvalidJson, None));
      return;
    }
    var data := parsed.value;
    var threw := false;
    match KindOf(data.msgType) {
      case SubscribeKind =>
        threw := HandleSubscribeMarketData(net, registry, store, ws, clientId, data.symbols);
      case UnsubscribeKind =>
        threw := HandleUnsubscribeMarketData(net, registry, ws, clientId, data.symbols);
      case PlaceOrderKind =>
        var order := HandlePlaceOrder(net, ws, orderId, data.order);
        spawned := Some(order);
      case HeartbeatKind =>
        net.Send(ws, HeartbeatAck);
      case PingKind =>
        net.Send(ws, Pong);
      case UnknownKind =>
        net.Send(ws, Error("Unknown message type: " + TypeText(data.msgType), None));
    }
    if threw {
      assert To(ws, []) == [];
      net.Send(ws, Error(InvalidJson, None));
      assert To(ws, [Error(InvalidJson, None)]) == [Delivery(ws, Error(InvalidJson, None))];
    }
  }

  /** A snapshot timer fires: the symbol's quote as it is now is sent on the socket. */
  method FireSnapshot(net: Network, store: MarketStore, t: Timer)
    requires t.symbol in store.quotes
    modifies net
    ensures net.outbox == old(net.outbox) + [Delivery(t.to, MarketSnapshot(t.symbol, store.quotes[t.symbol]))]
    ensures net.timers == old(net.timers) && net.readyState == old(net.readyState) && net.closes == old(net.closes)
  {
    var quote := store.GetMarketData(t.symbol);
    net.Send(t.to, MarketSnapshot(t.symbol, quote.value));
  }
}
