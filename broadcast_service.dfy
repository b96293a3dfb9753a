/**
 * The periodic market-data broadcast: each tick moves every price one step of the random walk
 * and then sends every client with an open socket one MARKET_DATA batch holding only the
 * symbols it subscribed to.
 */
module BroadcastService {
  import opened Common
  import opened OrderedSet
  import opened MarketData
  import opened Protocol
  import opened Transport
  import opened ClientManager

  /** Milliseconds between two ticks. */
  const TickIntervalMs := 2000

  /** The quotes of the subscribed symbols that the store knows. */
  function Filtered(subs: seq<Symbol>, quotes: map<Symbol, Quote>): (m: map<Symbol, Quote>)
    ensures forall s :: s in m <==> s in subs && s in quotes
    ensures forall s :: s in m ==> m[s] == quotes[s]
  {
    map s | s in subs && s in quotes :: quotes[s]
  }

  /**
   * The batch one client gets on a tick, if any: only an OPEN socket with a non-empty
   * subscription set is served, and only when at least one subscribed symbol is known.
   */
  function BatchFor(c: ClientInfo, states: map<SocketId, ReadyState>, quotes: map<Symbol, Quote>): (r: Option<ServerMessage>)
    ensures r.Some? <==> StateIn(states, c.ws) == Open && exists s :: s in c.subscriptions && s in quotes
    ensures r.Some? ==>
      && r.value.MarketBatch? && |r.value.batch| > 0
      && (forall s :: s in r.value.batch <==> s in c.subscriptions && s in quotes)
      && (forall s :: s in r.value.batch ==> r.value.batch[s] == quotes[s])
  {
    if StateIn(states, c.ws) == Open && |c.subscriptions| > 0 && |Filtered(c.subscriptions, quotes)| > 0 then
      Some(MarketBatch(Filtered(c.subscriptions, quotes)))
    else None
  }

  /** The deliveries of one tick over the clients `cs`, visited in order. */
  function Fanout(cs: seq<ClientInfo>, states: map<SocketId, ReadyState>, quotes: map<Symbol, Quote>): (ds: seq<Delivery>)
    ensures |ds| <= |cs|
    decreases |cs|
  {
    if cs == [] then []
    else
      var n := |cs| - 1;
      var batch := BatchFor(cs[n], states, quotes);
      Fanout(cs[..n], states, quotes) + (if batch.Some? then [Delivery(cs[n].ws, batch.value)] else [])
  }

  /**
   * No leakage: every delivery of a tick is a non-empty MARKET_DATA batch sent to the open
   * socket of some client, holding exactly that client's subscribed symbols that the store
   * knows, at their current quotes.
   */
  lemma {:induction false} FanoutOnlySubscribed(cs: seq<ClientInfo>, states: map<SocketId, ReadyState>, quotes: map<Symbol, Quote>)
    ensures forall d :: d in Fanout(cs, states, quotes) ==>
      exists c :: c in cs && d.to == c.ws && StateIn(states, c.ws) == Open
        && d.msg == MarketBatch(Filtered(c.subscriptions, quotes)) && |d.msg.batch| > 0
    decreases |cs|
  {
    if cs != [] {
      var n := |cs| - 1;
      FanoutOnlySubscribed(cs[..n], states, quotes);
      assert forall c :: c in cs[..n] ==> c in cs;
    }
  }

  /** How many of the deliveries `ds` go to socket `w`. */
  function CountTo(ds: seq<Delivery>, w: SocketId): (n: nat)
    ensures n <= |ds|
    decreases |ds|
  {
    if ds == [] then 0
    else CountTo(ds[..|ds| - 1], w) + (if ds[|ds| - 1].to == w then 1 else 0)
  }

  /** How many of the clients `cs` are connected on socket `w`. */
  function ClientsOn(cs: seq<ClientInfo>, w: SocketId): (n: nat)
    ensures n <= |cs|
    decreases |cs|
  {
    if cs == [] then 0
    else ClientsOn(cs[..|cs| - 1], w) + (if cs[|cs| - 1].ws == w then 1 else 0)
  }

  /** Counting over a concatenation adds the counts of the parts. */
  lemma {:induction false} CountToConcat(a: seq<Delivery>, b: seq<Delivery>, w: SocketId)
    ensures CountTo(a + b, w) == CountTo(a, w) + CountTo(b, w)
    decreases |b|
  {
    if b == [] {
      assert a + b == a;
    } else {
      var n := |b| - 1;
      assert (a + b)[..|a + b| - 1] == a + b[..n];
      assert (a + b)[|a + b| - 1] == b[n];
      CountToConcat(a, b[..n], w);
    }
  }

  /**
   * At most one message per client per tick: no socket receives more batches than there are
   * clients connected on it, so a socket with one client gets at most one and a socket with
   * none gets nothing.
   */
  lemma {:induction false} FanoutAtMostOnePerClient(cs: seq<ClientInfo>, states: map<SocketId, ReadyState>, quotes: map<Symbol, Quote>)
    ensures forall w :: CountTo(Fanout(cs, states, quotes), w) <= ClientsOn(cs, w)
    decreases |cs|
  {
    if cs != [] {
      var n := |cs| - 1;
      var batch := BatchFor(cs[n], states, quotes);
      var tail := if batch.Some? then [Delivery(cs[n].ws, batch.value)] else [];
      FanoutAtMostOnePerClient(cs[..n], states, quotes);
      forall w ensures CountTo(Fanout(cs, states, quotes), w) <= ClientsOn(cs, w) {
        CountToConcat(Fanout(cs[..n], states, quotes), tail, w);
        if tail != [] {
          assert tail[..0] == [];
        }
      }
    }
  }

  /** No omission: every open client with at least one known subscribed symbol gets its batch. */
  lemma {:induction false} FanoutServesEveryone(cs: seq<ClientInfo>, states: map<SocketId, ReadyState>, quotes: map<Symbol, Quote>)
    ensures forall i :: 0 <= i < |cs| && StateIn(states, cs[i].ws) == Open && (exists s :: s in cs[i].subscriptions && s in quotes) ==>
      Delivery(cs[i].ws, MarketBatch(Filtered(cs[i].subscriptions, quotes))) in Fanout(cs, states, quotes)
    decreases |cs|
  {
    if cs != [] {
      var n := |cs| - 1;
      FanoutServesEveryone(cs[..n], states, quotes);
      forall i | 0 <= i < |cs| && StateIn(states, cs[i].ws) == Open && (exists s :: s in cs[i].subscriptions && s in quotes)
        ensures Delivery(cs[i].ws, MarketBatch(Filtered(cs[i].subscriptions, quotes))) in Fanout(cs, states, quotes)
      {
        var s :| s in cs[i].subscriptions && s in quotes;
        assert s in Filtered(cs[i].subscriptions, quotes);
        if i < n {
          assert cs[..n][i] == cs[i];
        }
      }
    }
  }

  /**
   * The inner loop: `client.subscriptions.forEach` copying the quote of every known symbol
   * into `filteredData`.
   */
  method FilterSubscriptions(subs: seq<Symbol>, store: MarketStore) returns (filtered: map<Symbol, Quote>)
    ensures filtered == Filtered(subs, store.quotes)
  {
    filtered := map[];
    var i := 0;
    while i < |subs|
      invariant 0 <= i <= |subs|
      invariant filtered == Filtered(subs[..i], store.quotes)
    {
      assert forall s :: s in subs[..i + 1] <==> s in subs[..i] || s == subs[i] by {
        assert subs[..i + 1] == subs[..i] + [subs[i]];
      }
      var quote := store.GetMarketData(subs[i]);
      if quote.Some? {
        filtered := filtered[subs[i] := quote.value];
      }
      i := i + 1;
    }
    assert subs[..|subs|] == subs;
  }

  /** One more client adds its batch, if any, to the deliveries of the clients before it. */
  lemma FanoutStep(cs: seq<ClientInfo>, i: nat, states: map<SocketId, ReadyState>, quotes: map<Symbol, Quote>)
    requires i < |cs|
    ensures var batch := BatchFor(cs[i], states, quotes);
      Fanout(cs[..i + 1], states, quotes)
        == Fanout(cs[..i], states, quotes) + (if batch.Some? then [Delivery(cs[i].ws, batch.value)] else [])
  {
    assert cs[..i + 1][..i] == cs[..i];
  }

  /** The body of the client loop: send one client its batch, if it gets one. */
  method ServeClient(net: Network, store: MarketStore, client: ClientInfo) returns (sent: bool)
    modifies net
    ensures var batch := BatchFor(client, old(net.readyState), store.quotes);
      && net.outbox == old(net.outbox) + (if batch.Some? then [Delivery(client.ws, batch.value)] else [])
      && sent == batch.Some?
    ensures net.readyState == old(net.readyState) && net.timers == old(net.timers) && net.closes == old(net.closes)
  {
    sent := false;
    if net.StateOf(client.ws) == Open && |client.subscriptions| > 0 {
      var filteredData := FilterSubscriptions(client.subscriptions, store);
      if |filteredData| > 0 {
        net.Send(client.ws, MarketBatch(filteredData));
        sent := true;
      }
    }
  }

  /** The `clients.forEach` loop of a tick, over the clients `cs` in order. */
  method Broadcast(net: Network, store: MarketStore, cs: seq<ClientInfo>) returns (totalMessagesSent: nat)
    modifies net
    ensures net.outbox == old(net.outbox) + Fanout(cs, net.readyState, store.quotes)
    ensures totalMessagesSent == |Fanout(cs, net.readyState, store.quotes)|
    ensures net.readyState == old(net.readyState) && net.timers == old(net.timers) && net.closes == old(net.closes)
  {
    totalMessagesSent := 0;
    var i := 0;
    while i < |cs|
      invariant 0 <= i <= |cs|
      invariant net.outbox == old(net.outbox) + Fanout(cs[..i], net.readyState, store.quotes)
      invariant totalMessagesSent == |Fanout(cs[..i], net.readyState, store.quotes)|
      invariant net.readyState == old(net.readyState) && net.timers == old(net.timers) && net.closes == old(net.closes)
    {
      FanoutStep(cs, i, net.readyState, store.quotes);
      var sent := ServeClient(net, store, cs[i]);
      if sent {
        totalMessagesSent := totalMessagesSent + 1;
      }
      i := i + 1;
    }
    assert cs[..|cs|] == cs;
  }

  /**
   * One tick of the `setInterval` callback: update the store, then send each client its
   * batch; returns `totalMessagesSent`. `draws` are the walk's `Math.random()` values.
   */
  method Tick(net: Network, registry: ClientRegistry, store: MarketStore, draws: Symbol -> real)
    returns (totalMessagesSent: nat)
    requires registry.Valid()
    modifies net, store
    ensures store.quotes.Keys == old(store.quotes.Keys)
    ensures forall s :: s in store.quotes ==> store.quotes[s] == Step(old(store.quotes)[s], draws(s))
    ensures net.outbox == old(net.outbox) + Fanout(registry.GetAllClients(), net.readyState, store.quotes)
    ensures totalMessagesSent == |Fanout(registry.GetAllClients(), net.readyState, store.quotes)|
    ensures net.readyState == old(net.readyState) && net.timers == old(net.timers) && net.closes == old(net.closes)
  {
    store.UpdateMarketData(draws);
    var clients := registry.GetAllClients();
    totalMessagesSent := Broadcast(net, store, clients);
  }
}
