# Trading gateway model

A Dafny model of the real-time trading gateway of `fintech-trading-platform`: a WebSocket
server that keeps a registry of connected clients, streams market data to the symbols each
client subscribed to, and runs every order through a simulated pipeline (validation, risk
check, price lookup, matching), together with the desktop client's reducers that fold the
server's messages into its order list, quote table and subscription list.

The server exists twice in the repository and both are modelled:

- the modular server (`server-simple/`): `validators.js`, `market-data.js`,
  `client-manager.js`, `order-processor.js`, `message-handler.js`, `broadcast-service.js`
  and `connection-handler.js`, one Dafny module each;
- the single-file `server-simple.js`, in module `ServerSimple`. Its connection, close,
  broadcast and subscription logic is line for line the same as the modular server's, so it
  reuses `ConnectionHandler.OnConnection`, `ConnectionHandler.OnClose`, `BroadcastService.Tick`,
  `MessageHandler.AddSubscriptions` and `MessageHandler.RemoveSubscriptions`. `ServerSimple`
  models only what differs: the `switch` and its fall-through, silent errors, the unvalidated
  one-timer order flow, and the SIGINT shutdown.

The client side (`WebSocketManager.js`) is module `WebSocketManager`.

How the model is built:

- Mutable server state is held in classes:
  - `MarketData.MarketStore` is the `marketData` object;
  - `ClientManager.ClientRegistry` is the `clients` Map, with its key order kept as a
    duplicate-free sequence;
  - `Transport.Network` holds the sockets' ready states and everything the server did to them:
    the `ws.send` calls, the `setTimeout` calls and the `ws.close` calls.
- Each handler is a method with loops, proved against a pure function that says what it does
  (`MessageHandler.Route`, `ServerSimple.SimpleRoute`, `BroadcastService.Fanout`,
  `OrderProcessor.PipelineEvents`, `ClientManager.CloseOpen`). Lemmas prove the properties of
  those functions.
- A JavaScript `Set`, and the key order of a `Map`, are duplicate-free sequences in insertion
  order (module `OrderedSet`).
- Inputs that the code gets from the outside world become parameters:
  - every value `Math.random()` returns;
  - the UUID and order ids;
  - the peer address and the clock;
  - whether the client's socket is OPEN.
- A frame reaches the model already decoded (`Protocol.Envelope`); `None` means the JSON did
  not parse.
- A `setTimeout` that sends an initial snapshot is recorded as a `Transport.Timer`.
  `MessageHandler.FireSnapshot` reads the quote when the timer fires, as the JavaScript does.

## Model

| member | source | states |
|---|---|---|
| OrderedSet.Insert | my-websocket-server/server-simple/handlers/message-handler.js:99-102 | `Set.add`: the result holds the old elements in their old places followed by `x` if it was new; no duplicates are introduced |
| OrderedSet.InsertAll | my-websocket-server/server-simple/handlers/message-handler.js:99-102 | adding a list: the elements are exactly the old ones and the added ones, the old ones keep their positions as a prefix, and the result stays duplicate-free |
| OrderedSet.InsertAllConcat | my-websocket-server/server-simple/handlers/message-handler.js:99-102 | adding `a` and then `b` is the same as adding `a + b` |
| OrderedSet.InsertAllOfDupFree | my-electron-app/src/src/components/WebSocketManager.js:412-415 | `new Set(s)` of a duplicate-free `s` gives back `s` in the same order |
| OrderedSet.UnionOfDupFree | my-electron-app/src/src/components/WebSocketManager.js:412-415 | `[...new Set([...prev, ...xs])]` equals adding `xs` one by one to a duplicate-free `prev` |
| OrderedSet.Without | my-electron-app/src/src/components/WebSocketManager.js:433-435 | `filter(y => !xs.includes(y))` keeps exactly the elements not in `xs`, is no longer than the input, and keeps it duplicate-free |
| OrderedSet.Delete | my-websocket-server/server-simple/clients/client-manager.js:42-44 | `delete` removes exactly `x` and keeps the collection duplicate-free |
| OrderedSet.WithoutWithout | my-electron-app/src/src/components/WebSocketManager.js:433-435 | filtering by `a` and then by `b` is filtering by `a + b` |
| OrderedSet.DeleteAll | my-websocket-server/server-simple/handlers/message-handler.js:152-155 | deleting the listed elements one at a time keeps exactly the elements not listed and keeps the set duplicate-free; `OrderedSet.DeleteAllIsWithout` adds that the order is kept |
| OrderedSet.DeleteAllIsWithout | my-websocket-server/server-simple/handlers/message-handler.js:152-155 | deleting the listed symbols one at a time leaves exactly what the client's `filter` leaves, in the same order |
| MarketData.Step | my-websocket-server/server-simple/data/market-data.js:34-40 | one walk step: for a draw in [0, 1) the recorded change lies in [-5, 5) percent |
| MarketData.StepBounded | my-websocket-server/server-simple/data/market-data.js:34-40 | a positive price stays positive, moves by at most 5% down and less than 5% up, and agrees with the recorded percentage change |
| MarketData.MarketStore.constructor | my-websocket-server/server-simple/data/market-data.js:15-28 | the store starts with exactly BTC/USD, ETH/USD and AAPL at their seed quotes |
| MarketData.MarketStore.GetMarketData | my-websocket-server/server-simple/data/market-data.js:47-49 | returns the entry of a known symbol and `None` (null) for any other; in a valid store the known symbols are exactly the seed symbols |
| MarketData.MarketStore.GetAllMarketData | my-websocket-server/server-simple/data/market-data.js:55-57 | returns the whole store: the same symbols and the same quotes |
| MarketData.MarketStore.UpdateMarketData | my-websocket-server/server-simple/data/market-data.js:34-40 | no symbol is added or removed, and every quote takes one walk step with its own draw |
| Transport.Network.Send | my-websocket-server/server-simple/handlers/message-handler.js:64-68 | `ws.send` appends one delivery to the socket and changes nothing else |
| Transport.Network.SetTimeout | my-websocket-server/server-simple/handlers/message-handler.js:120-128 | a timer is recorded with its socket, delay and symbol; nothing is sent yet |
| Transport.Network.Close | my-websocket-server/server-simple/clients/client-manager.js:62 | `ws.close(code, reason)` is recorded and moves the socket to CLOSING, unless it is already closed; nothing is sent |
| Validators.ValidateOrderFormat | my-websocket-server/server-simple/utils/validators.js:15-19 | an order is valid iff it is present, has a non-empty symbol, and has no negative quantity (a zero quantity is falsy and passes) |
| Validators.ZeroQuantityIsNotGiven | my-websocket-server/server-simple/utils/validators.js:17 | a zero quantity is judged exactly like a missing one, and an order without quantity is valid iff it has a symbol |
| Validators.GetErrorMessage | my-websocket-server/server-simple/utils/validators.js:26-34 | the table text for the four known codes, "Unknown error occurred" for every other code; never empty |
| Validators.ErrorMessageIdentifiesCode | my-websocket-server/server-simple/utils/validators.js:26-34 | the fallback text appears iff the code is unknown, and two known codes never share a text |
| ClientManager.CloseOpenClosesExactlyOpen | my-websocket-server/server-simple/clients/client-manager.js:59-65 | `closeAllConnections` moves to CLOSING exactly the OPEN sockets of registered clients; every other socket keeps its state; each close call carries the given code and reason |
| ClientManager.CloseOpen | my-websocket-server/server-simple/clients/client-manager.js:59-65 | at most one close call per client, each with the given code and reason, to a socket left CLOSING; a socket that was not OPEN keeps its state; `ClientManager.CloseOpenClosesExactlyOpen` states exactly which sockets close |
| ClientManager.ClientRegistry.constructor | my-websocket-server/server-simple/clients/client-manager.js:16 | the registry starts empty |
| ClientManager.ClientRegistry.GetClient | my-websocket-server/server-simple/clients/client-manager.js:34-36 | the record of a registered id, `None` (null) for any other |
| ClientManager.ClientRegistry.AddClient | my-websocket-server/server-simple/clients/client-manager.js:25-27 | `Map.set`: the id maps to the new record; a new id is appended to the key order and a known id keeps its place; no other client changes |
| ClientManager.ClientRegistry.RemoveClient | my-websocket-server/server-simple/clients/client-manager.js:42-44 | `Map.delete`: the id is gone from the map and the key order; an unknown id changes nothing; no other client changes |
| ClientManager.ClientRegistry.GetAllClients | my-websocket-server/server-simple/clients/client-manager.js:50-52 | every registered client exactly once, in insertion order |
| ClientManager.ClientRegistry.CloseAllConnections | my-websocket-server/server-simple/clients/client-manager.js:59-65 | the loop's ready states and close calls are those of `CloseOpen` over the clients in order; nothing is sent |
| ClientManager.ClientRegistry.UpdateClientSubscriptions | my-websocket-server/server-simple/clients/client-manager.js:72-78 | a registered client gets the new subscriptions and keeps its other fields and place; an unknown id creates nothing |
| OrderProcessor.StagesPassed | my-websocket-server/server-simple/handlers/order-processor.js:35-89 | at most the three announced stages are passed |
| OrderProcessor.Failure | my-websocket-server/server-simple/handlers/order-processor.js:35-76 | a code is thrown iff the order stops before the matching engine |
| OrderProcessor.Outcome | my-websocket-server/server-simple/handlers/order-processor.js:97-154 | the pipeline's last message is FILLED, REJECTED or ERROR and carries the order's id |
| OrderProcessor.PipelineEvents | my-websocket-server/server-simple/handlers/order-processor.js:21-155 | one message per passed stage, plus the final one |
| OrderProcessor.PipelineShape | my-websocket-server/server-simple/handlers/order-processor.js:21-155 | 1 to 4 messages; only the last is terminal; the ones before it are VALIDATING, RISK_CHECKING and SUBMITTED in that order; all carry the order id |
| OrderProcessor.StagesBeforeOutcome | my-websocket-server/server-simple/handlers/order-processor.js:31-131 | no stage is skipped: FILLED and REJECTED come after all three status updates (4 messages); an ERROR comes after exactly the stages before the failed step (1 message for a bad format, 2 for a failed risk check, 3 for a missing price) |
| OrderProcessor.OutcomeCases | my-websocket-server/server-simple/handlers/order-processor.js:35-131 | FILLED iff valid, risk-approved, priced and the fill draw succeeds; REJECTED iff only the fill draw fails, and then with reason INSUFFICIENT_LIQUIDITY and the suggestion TRY_LIMIT_ORDER_OR_ADJUST_PRICE; otherwise ERROR naming the first failed step |
| OrderProcessor.ErrorsUseKnownCodes | my-websocket-server/server-simple/handlers/order-processor.js:144-153 | every ORDER_ERROR carries a code from the table and its text, never the fallback text |
| OrderProcessor.FillIsComplete | my-websocket-server/server-simple/handlers/order-processor.js:99-117 | a fill reports at least 1 unit: the requested quantity when positive and exactly 1 when the quantity is missing or zero; average price = fill price, total = filled quantity, 0 remaining, and a price within 1% of the current price |
| OrderProcessor.InvalidOrderFailsImmediately | my-websocket-server/server-simple/handlers/order-processor.js:34-39 | a malformed order gets exactly one message: ORDER_ERROR INVALID_ORDER_FORMAT with its text |
| OrderProcessor.ProcessOrderAsync | my-websocket-server/server-simple/handlers/order-processor.js:21-155 | what it sends to the socket is exactly `PipelineEvents` for the current quotes and draws |
| OrderProcessor.RunStages | my-websocket-server/server-simple/handlers/order-processor.js:27-139 | the `try` block throws exactly the code `Failure` names, after sending one status update per passed stage, and sends the FILLED or REJECTED message only when nothing is thrown |
| MessageHandler.KindOf | my-websocket-server/server-simple/handlers/message-handler.js:37-60 | a frame is routed to a known handler only when its `type` is exactly that handler's type name |
| MessageHandler.KindOfTypeName | my-websocket-server/server-simple/handlers/message-handler.js:37-56 | each of the five type names is routed to its own handler |
| MessageHandler.WithSubscriptions | my-websocket-server/server-simple/handlers/message-handler.js:105 | writing back one client's subscriptions gives a registered sender exactly the new list with its other fields kept, keeps the set of ids and every other client's record, and changes nothing when there is no new list or no such client |
| MessageHandler.SnapshotTimers | my-websocket-server/server-simple/handlers/message-handler.js:118-128 | each snapshot timer targets the sender, names a known symbol, and has delay 100·i, where i is that symbol's index in the request |
| MessageHandler.UnknownSymbolErrors | my-websocket-server/server-simple/handlers/message-handler.js:129-137 | at most one ERROR per requested symbol, each naming a symbol |
| MessageHandler.AnswerCount | my-websocket-server/server-simple/handlers/message-handler.js:118-138 | every requested symbol gets exactly one answer: a snapshot timer or an error |
| MessageHandler.KnownSymbolsScheduled | my-websocket-server/server-simple/handlers/message-handler.js:118-128 | a known symbol at request index i gets a snapshot timer with delay 100·i |
| MessageHandler.ErrorsNameUnknownSymbols | my-websocket-server/server-simple/handlers/message-handler.js:129-137 | each ERROR is "Symbol X not available" for a requested X that the store does not know |
| MessageHandler.UnknownSymbolsReported | my-websocket-server/server-simple/handlers/message-handler.js:129-137 | every unknown requested symbol gets its ERROR |
| MessageHandler.SnapshotsStaggered | my-websocket-server/server-simple/handlers/message-handler.js:118-128 | the snapshot delays strictly increase in request order |
| MessageHandler.RouteShape | my-websocket-server/server-simple/handlers/message-handler.js:23-70 | every frame gets at least one reply; extra replies are per-symbol errors; subscriptions change only with a SUBSCRIBE_ACK or UNSUBSCRIBE_ACK to a registered client; only PLACE_ORDER spawns the pipeline, after exactly one ORDER_ACK RECEIVED, and the spawned order runs on the sender's socket with the id its ACK announced |
| MessageHandler.Route | my-websocket-server/server-simple/handlers/message-handler.js:23-70 | every frame gets at least one reply; the order pipeline is spawned exactly for PLACE_ORDER; subscriptions change only for a parsed frame from a registered client that carries `symbols`; `MessageHandler.RouteShape` states the full shape |
| MessageHandler.Caught | my-websocket-server/server-simple/handlers/message-handler.js:64-69 | a handler that returns is passed through unchanged; one that throws is answered by exactly one "Invalid JSON format" ERROR and changes nothing |
| MessageHandler.SubscribeReply | my-websocket-server/server-simple/handlers/message-handler.js:75-139 | an unregistered client gets exactly the "Client not found" ERROR; the handler throws exactly when a registered client sends no `symbols`; subscriptions change only when both are present; an answer is never empty and never spawns an order |
| MessageHandler.SubscribedReply | my-websocket-server/server-simple/handlers/message-handler.js:99-138 | the new subscriptions are exactly the old ones and the requested ones, duplicate-free if the old ones were; the first reply is the SUBSCRIBE_ACK listing them with the request's length as count; `MessageHandler.SubscribeIsUnion` adds the order |
| MessageHandler.UnsubscribeReply | my-websocket-server/server-simple/handlers/message-handler.js:144-172 | an unregistered client gets exactly the "Cannot unsubscribe" ERROR; the handler throws exactly when a registered client sends no `symbols`; an answer is a single message and sets no timer |
| MessageHandler.UnsubscribedReply | my-websocket-server/server-simple/handlers/message-handler.js:150-163 | the new subscriptions are exactly the old ones not requested, duplicate-free if the old ones were, and the only reply is the UNSUBSCRIBE_ACK listing the request and the remainder |
| MessageHandler.SubscribeIsUnion | my-websocket-server/server-simple/handlers/message-handler.js:99-113 | the new subscriptions are old ∪ requested (unknown symbols included), duplicate-free, with the old ones first; SUBSCRIBE_ACK lists them with the request's length as count |
| MessageHandler.SubscribeIdempotent | my-websocket-server/server-simple/handlers/message-handler.js:99-102 | subscribing to symbols already held changes nothing |
| MessageHandler.UnsubscribeIsDifference | my-websocket-server/server-simple/handlers/message-handler.js:150-163 | the new subscriptions are old minus requested, in their old order; UNSUBSCRIBE_ACK echoes the request and the remaining list |
| MessageHandler.SubscribeThenUnsubscribe | my-websocket-server/server-simple/handlers/message-handler.js:99-155 | subscribing to a list and then unsubscribing from it leaves the old subscriptions minus that list |
| MessageHandler.MergeSymbols | my-websocket-server/server-simple/handlers/message-handler.js:99-102 | the `forEach(add)` loop computes `InsertAll` |
| MessageHandler.RemoveSymbols | my-websocket-server/server-simple/handlers/message-handler.js:152-155 | the `forEach(delete)` loop computes the one-by-one deletion |
| MessageHandler.SendInitialData | my-websocket-server/server-simple/handlers/message-handler.js:118-138 | the loop sends exactly the unknown-symbol errors and schedules exactly the snapshot timers |
| MessageHandler.AddSubscriptions | my-websocket-server/server-simple/handlers/message-handler.js:99-138 | performs the subscribe reply: stores the union, sends the ACK and the errors, and schedules the snapshots |
| MessageHandler.RemoveSubscriptions | my-websocket-server/server-simple/handlers/message-handler.js:150-163 | performs the unsubscribe reply |
| MessageHandler.HandleSubscribeMarketData | my-websocket-server/server-simple/handlers/message-handler.js:75-139 | an unknown client gets "Client not found"; a registered client without `symbols` throws before anything changes; otherwise the subscribe reply is performed |
| MessageHandler.HandleUnsubscribeMarketData | my-websocket-server/server-simple/handlers/message-handler.js:144-172 | an unknown client gets the "Cannot unsubscribe" error; a missing `symbols` throws before anything changes; otherwise the unsubscribe reply is performed |
| MessageHandler.HandlePlaceOrder | my-websocket-server/server-simple/handlers/message-handler.js:177-198 | ORDER_ACK RECEIVED is sent on the sender's socket before the order is handed, unvalidated, to the pipeline on that same socket |
| MessageHandler.HandleMessage | my-websocket-server/server-simple/handlers/message-handler.js:23-70 | does exactly what `Route` says: a parse failure or a handler's throw gives one "Invalid JSON format" ERROR; an unknown type gives an ERROR naming it; HEARTBEAT and PING give HEARTBEAT_ACK and PONG; no socket is closed |
| MessageHandler.FireSnapshot | my-websocket-server/server-simple/handlers/message-handler.js:120-128 | a snapshot timer sends one isInitial MARKET_DATA with the quote at firing time |
| BroadcastService.Filtered | my-websocket-server/server-simple/services/broadcast-service.js:34-40 | the batch holds exactly the subscribed symbols that the store knows, at their store quotes |
| BroadcastService.Fanout | my-websocket-server/server-simple/services/broadcast-service.js:27-52 | a tick sends at most as many messages as there are clients |
| BroadcastService.FanoutAtMostOnePerClient | my-websocket-server/server-simple/services/broadcast-service.js:31-51 | at most one message per client per tick: no socket gets more batches than there are clients on it |
| BroadcastService.FanoutOnlySubscribed | my-websocket-server/server-simple/services/broadcast-service.js:31-52 | no leakage: every delivery is a non-empty batch to an OPEN client's socket, holding only that client's subscribed symbols |
| BroadcastService.BatchFor | my-websocket-server/server-simple/services/broadcast-service.js:32-50 | a client gets a batch exactly when its socket is OPEN and one of its subscribed symbols is known; the batch is a non-empty MARKET_DATA holding exactly those symbols at their current quotes |
| BroadcastService.ServeClient | my-websocket-server/server-simple/services/broadcast-service.js:32-50 | serving one client appends exactly its batch, if any, to the outbox, reports whether it sent, and leaves socket states, timers and closes unchanged; `BroadcastService.FanoutOnlySubscribed` states what the batches hold |
| BroadcastService.FanoutServesEveryone | my-websocket-server/server-simple/services/broadcast-service.js:31-52 | no omission: every OPEN client with at least one known subscribed symbol gets its batch |
| BroadcastService.FilterSubscriptions | my-websocket-server/server-simple/services/broadcast-service.js:34-40 | the inner loop computes `Filtered` |
| BroadcastService.Broadcast | my-websocket-server/server-simple/services/broadcast-service.js:31-52 | the client loop sends exactly `Fanout` of the clients in order, counts one per message sent, and changes no socket state, timer or close call |
| BroadcastService.Tick | my-websocket-server/server-simple/services/broadcast-service.js:22-55 | the store takes one walk step; then the deliveries are exactly `Fanout` over the updated quotes, and `totalMessagesSent` is their number |
| ConnectionHandler.OnConnection | my-websocket-server/server-simple/handlers/connection-handler.js:26-65 | the client is registered with no subscriptions, at the end of the broadcast order if its id is new and in its old place otherwise, and then greeted with WELCOME and its id |
| ConnectionHandler.NewClientGetsNoBatch | my-websocket-server/server-simple/handlers/connection-handler.js:47-53 | a client that has just connected gets no market data on a tick |
| ConnectionHandler.OnMessage | my-websocket-server/server-simple/handlers/connection-handler.js:69-71 | each frame is handled by `handleMessage` with the connection's id |
| ConnectionHandler.OnClose | my-websocket-server/server-simple/handlers/connection-handler.js:74-81 | the client leaves the registry and the broadcast order, the other clients keep their order, and no other client's record changes |
| ServerSimple.IntendedDispatch | my-websocket-server/server-simple.js:125-329 | corrected dispatch: an unknown type goes to no branch, and every known type goes to the branch it goes to as written |
| ServerSimple.SimpleDispatch | my-websocket-server/server-simple.js:125-329 | as written, every frame runs some branch: SUBSCRIBE and PLACE_ORDER only for their own types, and the UNSUBSCRIBE branch for UNSUBSCRIBE_MARKET_DATA and for every unknown type (the fall-through of the Findings) |
| ServerSimple.SimpleReplyFor | my-websocket-server/server-simple.js:125-329 | only the PLACE_ORDER branch spawns an order timer; subscriptions change exactly in the SUBSCRIBE and UNSUBSCRIBE branches for a registered client with `symbols`; only SUBSCRIBE sets snapshot timers; the `Ignore` branch of the corrected dispatch does nothing |
| ServerSimple.SimpleRoute | my-websocket-server/server-simple.js:110-339 | a frame that does not parse changes nothing and is not answered; only PLACE_ORDER spawns an order; as written, an unknown type changes the subscriptions of every registered client that sends `symbols` (see `ServerSimple.FallThroughUnsubscribes`) |
| ServerSimple.IntendedRoute | my-websocket-server/server-simple.js:110-339 | with the corrected dispatch an unparsed frame or an unknown type changes nothing and is not answered, and every other frame is handled exactly as written (see `ServerSimple.UnknownTypeIgnored`) |
| ServerSimple.FallThroughUnsubscribes | my-websocket-server/server-simple.js:294-328 | as written, a frame of any unknown type with `symbols` from a registered client does exactly what an UNSUBSCRIBE_MARKET_DATA frame with those symbols does: the symbols are removed and an UNSUBSCRIBE_ACK is sent |
| ServerSimple.MisspelledSubscribeUnsubscribes | my-websocket-server/server-simple.js:294-328 | a frame of type "SUBSCRIBE" with symbols ["BTC/USD"] unsubscribes a client from BTC/USD and gets an UNSUBSCRIBE_ACK |
| ServerSimple.FallThroughReportsUnsubscribeError | my-websocket-server/server-simple.js:294-328 | as written, an unknown type from an unregistered client gets the "Cannot unsubscribe" error |
| ServerSimple.UnknownTypeIgnored | my-websocket-server/server-simple.js:294-300 | with the corrected dispatch an unknown type has no effect, and every other frame is handled as written |
| ServerSimple.SimpleOrderAckUnvalidated | my-websocket-server/server-simple.js:213-241 | PLACE_ORDER gets ORDER_ACK PENDING without validation, and the order is settled later as sent |
| ServerSimple.SimpleOrderOutcome | my-websocket-server/server-simple.js:241-266 | the timer's message carries the order's id and is never an error; it is FILLED exactly when the draw exceeds 0.3 and otherwise REJECTED for INSUFFICIENT_LIQUIDITY; it is missing exactly when a fill meets a frame without `order` (the callback throws) |
| ServerSimple.SimpleFillTerms | my-websocket-server/server-simple.js:249-254 | a fill is at the store's price for a known symbol with a non-zero price and at 45000 otherwise, for the requested quantity when it is non-zero and for 1 when it is missing or zero |
| ServerSimple.UnknownSymbolFilledAtFallback | my-websocket-server/server-simple.js:253 | an order for an unknown symbol is still filled, at 45000 |
| ServerSimple.NegativeQuantityFilled | my-websocket-server/server-simple.js:254 | an order with a negative quantity, which the validator refuses, is filled for that quantity |
| ServerSimple.FireOrderTimer | my-websocket-server/server-simple.js:241-266 | the timer sends exactly `SimpleOrderOutcome` on the socket of the client that placed the order, or nothing when the callback throws |
| ServerSimple.RunCase | my-websocket-server/server-simple.js:127-328 | each `switch` branch does what `SimpleReplyFor` says; errors and a missing client are only logged, except the UNSUBSCRIBE error reply |
| ServerSimple.OnMessage | my-websocket-server/server-simple.js:110-339 | the `message` handler as written does exactly what `SimpleRoute` says; a frame that does not parse gets no reply |
| ServerSimple.OnMessageIntended | my-websocket-server/server-simple.js:110-339 | the `message` handler with the corrected dispatch does exactly what `IntendedRoute` says |
| ServerSimple.CloseEvery | my-websocket-server/server-simple.js:431-435 | one close call per client, in order, with code 1001 and "Server shutting down", whatever the socket's state |
| ServerSimple.ShutdownsAgreeWhenAllOpen | my-websocket-server/server-simple.js:427-435 | when every client has its own OPEN socket, this shutdown and the modular `closeAllConnections(1001, ...)` do the same |
| ServerSimple.Shutdown | my-websocket-server/server-simple.js:427-435 | the SIGINT loop's close calls and ready states are those of `CloseEvery`; nothing is sent |
| WebSocketManager.AckedRow | my-electron-app/src/src/components/WebSocketManager.js:170-182 | the ORDER_ACK row has the server's id and the symbol, quantity and side of the form the handler holds; its status and message are the server's when non-empty, otherwise PROCESSING and the default text; it has no later fields yet |
| WebSocketManager.Patch | my-electron-app/src/src/components/WebSocketManager.js:195-300 | an update keeps the row's id, symbol, quantity, side and acknowledgement text, and sets the event's status and fields; FILLED falls back to the fill price, the filled quantity and 0 when the optional fields are missing or zero; every field the event does not set keeps its value |
| WebSocketManager.UpdateOrders | my-electron-app/src/src/components/WebSocketManager.js:200-209 | `prev.map`: the list keeps its length; exactly the rows with the message's id are patched, and every other row is unchanged |
| WebSocketManager.MergeMarketData | my-electron-app/src/src/components/WebSocketManager.js:160-165 | `{...prev, ...batch}`: the symbols are the union; the batch's quotes win; every other symbol keeps its quote |
| WebSocketManager.Apply | my-electron-app/src/src/components/WebSocketManager.js:119-324 | each message touches only its own part of the state; the ACKs replace the subscription list; WELCOME sets the id; the quote table changes only on MARKET_DATA and the order list only on order messages; ORDER_ACK appends exactly one row; unparsable text, unknown types, ERROR, HEARTBEAT_ACK and PONG change nothing; no row is removed or re-identified |
| WebSocketManager.DataMessagesApplied | my-electron-app/src/src/components/WebSocketManager.js:153-209 | an initial snapshot with a symbol overwrites exactly that symbol's quote and keeps every other one; a batch is merged into the quote table; an order update patches exactly the rows with its id |
| WebSocketManager.ApplyAll | my-electron-app/src/src/components/WebSocketManager.js:119-324 | over any stream of messages, the order list only grows and each existing row keeps describing the same order |
| WebSocketManager.AckedRowTakesLastStatus | my-electron-app/src/src/components/WebSocketManager.js:170-300 | after an ORDER_ACK, any messages, and a final update for the same order, the acknowledged row keeps its identity and shows the final update's status |
| WebSocketManager.OrderLifecycle | my-electron-app/src/src/components/WebSocketManager.js:170-300 | after the server's ORDER_ACK and the whole pipeline, the list has one new row with the order's id, labelled from the held form, whose status is the final message's (FILLED, REJECTED or ERROR); earlier rows still describe their orders |
| WebSocketManager.SubscribeMarketData | my-electron-app/src/src/components/WebSocketManager.js:403-417 | the request is sent iff the socket is OPEN, and only then does the local list change, to the duplicate-free union of the old and requested symbols |
| WebSocketManager.LocalSubscribeKeepsOrder | my-electron-app/src/src/components/WebSocketManager.js:412-415 | the local union keeps the existing symbols first and in order, and adds the new ones by first occurrence |
| WebSocketManager.SubscribeAckConfirms | my-electron-app/src/src/components/WebSocketManager.js:134-140 | the optimistic local list equals the list the server stores and echoes in SUBSCRIBE_ACK, so the ACK changes nothing |
| WebSocketManager.UnsubscribeMarketData | my-electron-app/src/src/components/WebSocketManager.js:425-437 | the request is sent iff the socket is OPEN, and only then are exactly the listed symbols removed; the list stays duplicate-free |
| WebSocketManager.UnsubscribeAckConfirms | my-electron-app/src/src/components/WebSocketManager.js:143-149 | the local removal equals the server's remaining list, so UNSUBSCRIBE_ACK changes nothing |
| WebSocketManager.PlaceOrder | my-electron-app/src/src/components/WebSocketManager.js:445-474 | it returns true iff the form has a symbol and a positive quantity and the socket is OPEN; only then is PLACE_ORDER sent and the form reset to quantity 1 and an empty price, keeping symbol and side |
| WebSocketManager.PlacedOrderPassesValidation | my-electron-app/src/src/components/WebSocketManager.js:447-461 | every order the client sends goes to the server's order handler and passes `validateOrderFormat` |
| WebSocketManager.HeldFormIsNotThePlacedOrder | my-electron-app/src/src/components/WebSocketManager.js:465-469 | after `placeOrder` resets the form, a row labelled from that form records quantity 1 for an order placed with any other quantity |
| WebSocketManager.ServerFillRecordedAsSent | my-electron-app/src/src/components/WebSocketManager.js:245-254 | a fill from the modular pipeline is stored with the server's average price, total and 0 remaining; the client's fallbacks do not apply |
| WebSocketManager.SimpleServerMessagesUseDefaults | my-electron-app/src/src/components/WebSocketManager.js:180-182 | the single-file server's PENDING ACK gets the default text, and its bare fills get the fill price as average, the quantity as total and 0 remaining |
| WebSocketManager.BatchSyncsSubscribed | my-electron-app/src/src/components/WebSocketManager.js:160-165 | after a tick's batch, the client holds the store's quote for every subscribed symbol the store knows, and every other quote is unchanged |
| WebSocketManager.BatchIdempotent | my-electron-app/src/src/components/WebSocketManager.js:160-165 | receiving the same batch twice is the same as receiving it once |

## Left out

- Floating point is modelled as exact reals. Prices, changes and fill prices carry no
  rounding, and the `toFixed` formatting of logs and notifications is left out.
- `Math.random()`, `uuidv4()`, `Date.now()` and the peer address are parameters. The
  `ORD_<time>_<random>` format of order ids is not modelled. Timestamps, `executionTime`,
  `rejectionTime` and `lastUpdated` are not modelled.
- JSON encoding and decoding are not modelled. A frame is a decoded `Envelope`, and a
  `symbols` value that is not an array is not modelled.
- The property lookups `marketData[symbol]` and `errorMap[code]` do not model
  `Object.prototype` keys such as `"__proto__"`.
- Time and interleaving are not modelled:
  - the pipeline's `await` delays;
  - the matching delay;
  - the empty post-trade `setTimeout`;
  - the random delay of the single-file order timer.

  `ProcessOrderAsync` reads the price when it runs and sends its messages as one uninterrupted
  sequence. A tick or another frame arriving between two of its steps is not modelled.
- `ws.send` is recorded whatever the socket's state. What the `ws` library does with a send to
  a socket that is not OPEN is not modelled.
- The `error` event handler only logs, and is not modelled. All `console` output and the
  `process.env.NODE_ENV` debug field of ORDER_ERROR are left out.
- `index.js` and `server-config.js` (server start-up) are not part of this model. Neither
  are `wss.close` and `process.exit` in the SIGINT handler.
- MessageHandler.FireSnapshot: requires the timer's symbol to still be in the store. The
  store's symbols never change, so this always holds for a scheduled timer.
- MessageHandler.AddSubscriptions: the JavaScript mutates the client's `Set` in place, aliased
  with the Map entry. The model writes the new list back through
  `UpdateClientSubscriptions`, which gives the same final state.
- ServerSimple.SimpleOrderOutcome: a fill for a frame without an `order` object throws inside
  the timer callback. Such an uncaught error in Node ends the process; the model only records
  that nothing is sent.
- Quantities are integers. `parseFloat` of a fractional or textual form quantity, and the
  order form's price (`parseFloat(orderForm.price)`, which the server ignores), are not
  modelled.
- WebSocketManager.Apply: a MARKET_DATA snapshot with an empty `symbol` falls into the batch
  branch in the client and would merge the quote's own fields as symbols. The server never
  sends one (snapshots go only to known symbols), and the model leaves the state unchanged
  for it.
- WebSocketManager.AckedRow: the row is labelled from the order form that `ws.onmessage`
  captured when `connectWebSocket` last ran (on mount in `App.js`), not from the order the
  acknowledgement answers. The model takes that form as a parameter and does not tie it to
  `PlaceOrder`'s request; `HeldFormIsNotThePlacedOrder` shows that even the form as
  `placeOrder` leaves it would mislabel the quantity. Matching rows to placed orders would need
  a record of pending orders that the client does not keep.
- ClientManager.ClientRegistry.CloseAllConnections: `client-manager.js` compares against
  `WebSocket.OPEN` without importing the `ws` module. The model assumes `WebSocket` resolves to
  the `ws` constants; on a runtime without a global `WebSocket`, the ReferenceError this
  raises inside the shutdown handler is not modelled. The `client.ws &&` guard is not modelled
  either, since every record holds a socket.
- The client's connection management is not modelled:
  - `connectWebSocket`, `disconnectWebSocket` and the reconnect timer;
  - the heartbeat interval;
  - `window.electronAPI` notifications;
  - `alert`;
  - the UI components.

  Whether the socket is OPEN is the `open` parameter of the client's actions.

## Findings

In `server-simple.js` the `UNSUBSCRIBE_MARKET_DATA` case is reachable both from real
UNSUBSCRIBE frames and, through the `default:` branch that lacks a `break`, from frames of
every unknown type.

| source | as written | input that shows it | evidently intended | confidence | as-written member | corrected member |
|---|---|---|---|---|---|---|
| my-websocket-server/server-simple.js:294-300 | `default:` has no `break` and sits just before `case 'UNSUBSCRIBE_MARKET_DATA'`, so every unknown type runs the unsubscribe code | a frame `{type: "SUBSCRIBE", symbols: ["BTC/USD"]}` (a misspelled type) from a client subscribed to BTC/USD removes that subscription and is answered with UNSUBSCRIBE_ACK; from an unregistered client any unknown type gets "Cannot unsubscribe" | an unknown type is only logged and changes nothing | high (not executed) | ServerSimple.FallThroughUnsubscribes | ServerSimple.UnknownTypeIgnored |
