/**
 * The per-connection lifecycle of the modular server: a new socket is registered with an empty
 * subscription set and greeted, its frames go to the message router, and its closing removes
 * it from the registry. The client id (a random UUID), the peer address and the clock are
 * parameters.
 */
module ConnectionHandler {
  import opened Common
  import opened OrderedSet
  import opened MarketData
  import opened Protocol
  import opened Transport
  import opened ClientManager
  import opened MessageHandler
  import opened BroadcastService

  const WelcomeText := "Connected to FinTech WebSocket Server"

  /** The `connection` event: register the client, then send WELCOME with its id. */
  method OnConnection(net: Network, registry: ClientRegistry, ws: SocketId, clientId: ClientId, ip: string, connectedAt: int)
    requires registry.Valid()
    modifies net, registry
    ensures registry.Valid()
    ensures registry.clients == old(registry.clients)[clientId := ClientInfo(ws, clientId, ip, connectedAt, [])]
    ensures registry.keys == if clientId in old(registry.clients) then old(registry.keys) else old(registry.keys) + [clientId]
    ensures net.outbox == old(net.outbox) + [Delivery(ws, Welcome(clientId, WelcomeText))]
    ensures net.timers == old(net.timers) && net.readyState == old(net.readyState) && net.closes == old(net.closes)
  {
    registry.AddClient(clientId, ClientInfo(ws, clientId, ip, connectedAt, []));
    net.Send(ws, Welcome(clientId, WelcomeText));
  }

  /** A client that has just connected has no subscriptions, so a tick sends it nothing. */
  lemma NewClientGetsNoBatch(ws: SocketId, clientId: ClientId, ip: string, connectedAt: int,
                             states: map<SocketId, ReadyState>, quotes: map<Symbol, Quote>)
    ensures BatchFor(ClientInfo(ws, clientId, ip, connectedAt, []), states, quotes).None?
  {
  }

  /** The `message` event: the frame goes to `handleMessage` with the connection's id. */
  method OnMessage(net: Network, registry: ClientRegistry, store: MarketStore, ws: SocketId, clientId: ClientId,
                   parsed: Option<Envelope>, orderId: OrderId)
    returns (spawned: Option<PendingOrder>)
    requires registry.Valid()
    modifies net, registry
    ensures registry.Valid()
    ensures var r := Route(ws, old(registry.GetClient(clientId)), store.quotes, parsed, orderId);
      Performed(net, registry, ws, clientId, r) && spawned == r.spawned
  {
    spawned := HandleMessage(net, registry, store, ws, clientId, parsed, orderId);
  }

  /** The `close` event: the client leaves the registry; every other client keeps its record. */
  method OnClose(registry: ClientRegistry, clientId: ClientId)
    requires registry.Valid()
    modifies registry
    ensures registry.Valid()
    ensures registry.clients == old(registry.clients) - {clientId}
    ensures registry.keys == Delete(old(registry.keys), clientId)
    ensures registry.GetClient(clientId) == None
    ensures forall other :: other != clientId ==> registry.GetClient(other) == old(registry.GetClient(other))
  {
    registry.RemoveClient(clientId);
  }
}
