/**
 * The connection registry: the module-level `clients` Map from client id to the record of a
 * live connection. A JavaScript Map remembers insertion order, which fixes the order in which
 * the broadcast tick and the shutdown visit the clients; `keys` keeps that order.
 */
module ClientManager {
  import opened Common
  import opened OrderedSet
  import opened Transport

  /** The record stored per connection; `subscriptions` is a Set kept in insertion order. */
  datatype ClientInfo = ClientInfo(ws: SocketId, id: ClientId, ip: string, connectedAt: int, subscriptions: seq<Symbol>)

  /**
   * What `closeAllConnections` does, visiting `cs` in order over the ready states `states`:
   * the new ready states and the `ws.close` calls made. Only a socket that is OPEN when its
   * client is visited is closed.
   */
  function CloseOpen(cs: seq<ClientInfo>, states: map<SocketId, ReadyState>, code: int, reason: string)
    : (r: (map<SocketId, ReadyState>, seq<CloseCall>))
    ensures |r.1| <= |cs|
    ensures forall k :: 0 <= k < |r.1| ==> r.1[k].code == code && r.1[k].reason == reason && StateIn(r.0, r.1[k].ws) == Closing
    ensures forall ws :: StateIn(states, ws) != Open ==> StateIn(r.0, ws) == StateIn(states, ws)
    decreases |cs|
  {
    if cs == [] then (states, [])
    else
      var n := |cs| - 1;
      var (before, calls) := CloseOpen(cs[..n], states, code, reason);
      var ws := cs[n].ws;
      if StateIn(before, ws) == Open then (before[ws := Closing], calls + [CloseCall(ws, code, reason)])
      else (before, calls)
  }

  /**
   * `closeAllConnections` closes exactly the sockets that were OPEN and belong to a client:
   * those become CLOSING, every other socket keeps its state, and each close call carries the
   * given code and reason and goes to such a socket.
   */
  lemma {:induction false} CloseOpenClosesExactlyOpen(cs: seq<ClientInfo>, states: map<SocketId, ReadyState>, code: int, reason: string)
    ensures var (after, calls) := CloseOpen(cs, states, code, reason);
      && (forall ws :: StateIn(after, ws) ==
            if StateIn(states, ws) == Open && exists c :: c in cs && c.ws == ws then Closing else StateIn(states, ws))
      && (forall k :: 0 <= k < |calls| ==>
            calls[k].code == code && calls[k].reason == reason && StateIn(states, calls[k].ws) == Open
            && exists c :: c in cs && c.ws == calls[k].ws)
    decreases |cs|
  {
    if cs != [] {
      var n := |cs| - 1;
      CloseOpenClosesExactlyOpen(cs[..n], states, code, reason);
      var (before, calls) := CloseOpen(cs[..n], states, code, reason);
      assert forall c :: c in cs <==> c in cs[..n] || c == cs[n] by {
        assert cs == cs[..n] + [cs[n]];
      }
    }
  }

  class ClientRegistry {
    /** The ids in the Map's insertion order. */
    var keys: seq<ClientId>
    var clients: map<ClientId, ClientInfo>

    ghost predicate Valid()
      reads this
    {
      NoDup(keys) && forall id :: id in keys <==> id in clients
    }

    constructor ()
      ensures Valid() && keys == [] && clients == map[]
    {
      keys := [];
      clients := map[];
    }

    /** `getClient`: the record of a registered id, nothing for an unknown one. */
    function GetClient(clientId: ClientId): (r: Option<ClientInfo>)
      reads this
      ensures r.Some? <==> clientId in clients
      ensures r.Some? ==> r.value == clients[clientId]
    {
      if clientId in clients then Some(clients[clientId]) else None
    }

    /** `addClient`: `clients.set(id, info)`; a new id goes last, an existing one is overwritten in place. */
    method AddClient(clientId: ClientId, info: ClientInfo)
      requires Valid()
      modifies this
      ensures Valid()
      ensures clients == old(clients)[clientId := info]
      ensures keys == if clientId in old(clients) then old(keys) else old(keys) + [clientId]
      ensures GetClient(clientId) == Some(info)
      ensures forall other :: other != clientId ==> GetClient(other) == old(GetClient(other))
    {
      keys := Insert(keys, clientId);
      clients := clients[clientId := info];
    }

    /** `removeClient`: `clients.delete(id)`; an unknown id is a no-op. */
    method RemoveClient(clientId: ClientId)
      requires Valid()
      modifies this
      ensures Valid()
      ensures clients == old(clients) - {clientId}
      ensures keys == Delete(old(keys), clientId)
      ensures clientId !in old(clients) ==> keys == old(keys) && clients == old(clients)
      ensures GetClient(clientId) == None
      ensures forall other :: other != clientId ==> GetClient(other) == old(GetClient(other))
    {
      if clientId !in keys {
        WithoutAbsent(keys, clientId);
      }
      keys := Delete(keys, clientId);
      clients := clients - {clientId};
    }

    /** `getAllClients`: the records in the Map's iteration order. */
    function GetAllClients(): (cs: seq<ClientInfo>)
      requires Valid()
      reads this
      ensures |cs| == |keys|
      ensures forall i :: 0 <= i < |cs| ==> cs[i] == clients[keys[i]]
      ensures forall c :: c in cs <==> exists id :: id in clients && clients[id] == c
    {
      var cs := seq(|keys|, i requires 0 <= i < |keys| reads this requires Valid() => clients[keys[i]]);
      assert forall id :: id in clients ==> clients[id] in cs by {
        forall id | id in clients ensures clients[id] in cs {
          var i :| 0 <= i < |keys| && keys[i] == id;
          assert cs[i] == clients[id];
        }
      }
      cs
    }

    /**
     * `closeAllConnections(code, reason)`: every client whose socket is OPEN has it closed with
     * that code and reason; no client is removed.
     */
    method CloseAllConnections(net: Network, code: int, reason: string)
      requires Valid()
      modifies net
      ensures var (after, calls) := CloseOpen(GetAllClients(), old(net.readyState), code, reason);
        net.readyState == after && net.closes == old(net.closes) + calls
      ensures net.outbox == old(net.outbox) && net.timers == old(net.timers)
    {
      var cs := GetAllClients();
      var i := 0;
      while i < |cs|
        invariant 0 <= i <= |cs|
        invariant var (after, calls) := CloseOpen(cs[..i], old(net.readyState), code, reason);
          net.readyState == after && net.closes == old(net.closes) + calls
        invariant net.outbox == old(net.outbox) && net.timers == old(net.timers)
      {
        assert cs[..i + 1][..i] == cs[..i];
        var client := cs[i];
        if net.StateOf(client.ws) == Open {
          net.Close(client.ws, code, reason);
        }
        i := i + 1;
      }
      assert cs[..|cs|] == cs;
    }

    /**
     * `updateClientSubscriptions`: a registered client gets the new subscription set and keeps
     * its other fields and its place; an unknown id creates no entry.
     */
    method UpdateClientSubscriptions(clientId: ClientId, subscriptions: seq<Symbol>)
      requires Valid()
      modifies this
      ensures Valid()
      ensures keys == old(keys)
      ensures clientId in old(clients) ==>
        clients == old(clients)[clientId := old(clients)[clientId].(subscriptions := subscriptions)]
      ensures clientId !in old(clients) ==> clients == old(clients)
    {
      var client := GetClient(clientId);
      if client.Some? {
        clients := clients[clientId := client.value.(subscriptions := subscriptions)];
      }
    }
  }

  /** Deleting an absent element changes nothing. */
  lemma {:induction false} WithoutAbsent<T(!new)>(s: seq<T>, x: T)
    requires x !in s
    ensures Delete(s, x) == s
  {
    WithoutAbsentList(s, [x]);
  }

  lemma {:induction false} WithoutAbsentList<T(!new)>(s: seq<T>, xs: seq<T>)
    requires forall y :: y in s ==> y !in xs
    ensures Without(s, xs) == s
  {
    if s != [] {
      WithoutAbsentList(s[1..], xs);
      assert [s[0]] + s[1..] == s;
    }
  }
}
