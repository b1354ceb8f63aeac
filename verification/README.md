# MultiMarketPrices: a verified model of the gateway's protocols

This Dafny project models the stateful protocols of the market-data gateway and proves what they guarantee
over every run. Each core is a state machine of pure functions, the lemmas about its runs, and a class whose
methods update the fields in place as the C++ object does, each method proved to take exactly the step of the
state machine.

| files | what they model |
|---|---|
| `SessionModel`, `SessionDrift`, `Session` | the WebSocket `session` that keeps a remote exchange in step with a set of live streams through calls, batches, write failures and reconnects |
| `PubSubRouter` | `PubSubDataRouter` with its two redundant indexes |
| `ReqRespModel`, `ReqRespTheorems`, `ReqRespRouter` | `GenericReqRespRouter` under re-entrant callbacks |
| `RestModel`, `RestClient` | `BinanceRestClient`, a FIFO over one persistent connection |
| `Decimal`, `MiddlewareModel`, `Middleware` | request/response over topics: headers, decimal ids, the pending book |
| `PlatformCommModel`, `PlatformComm` | the subscription table, its change log and the fan-out of prices |
| `Keys` | routing keys, exchange stream names and the mapping between them |

## How the systems are modelled

**WebSocket session.** The throttler, the post to the strand and `async_write` are one outstanding write. It
captures its payload when it is sent and completes later, successfully (the exchange applies it) or not. A
completion of either kind may still arrive after the connection was lost. Three things are assumed of the
network: a handshake completes only while disconnected, the outstanding write is gone before it, and an
aborted write is only ever the echo of the session's own close. SUBSCRIBE adds to the exchange's set,
UNSUBSCRIBE removes from it, and a new connection starts empty.

The batches are captured at `send` but the pending sets stay editable while they are written and are cleared
whole afterwards, so an idle session need not be in step with the exchange (`IdleMayBeOutOfStep` is a concrete
run: a subscribe that arrives while a SUBSCRIBE batch is being written is lost until the next reconnect or a
fresh unsubscribe and subscribe). `ExactDrift` says which streams are out of step in every run, by an
automaton (`WatchStep`) that reads only the session's own fields. `OnlyWindowsDrift` and
`FreshStreamDriftsIffInWindow` name the calls that cause it: (a) the call edits the set being written, (b) a
subscribe is cancelled against an unsubscribe that is older than the handshake and that no retained SUBSCRIBE
re-creates, (c) an unsubscribe is cancelled against a pending subscribe while the single command in flight
subscribes that very stream; plus the stream of a retained SUBSCRIBE that is neither live nor pending. The
comment at `WebSockets.h:173-175` speaks of cancelling pending unsubscribes at the handshake; `ReconnectHeals`
shows that this never happens.

**Re-entrant router.** Callbacks are finite scripts of requests, responses and cancels, and a response names
the request whose closure it calls. `Inside` and `Outside` say what a script does during and outside a
forward; the class really re-enters itself, and its `RunScript` and `Request` are proved equal to them. The
ghost argument `fuel` only bounds their recursion from above, and every script has such a bound. `erase(it)`
is removal of the id. `unregisterAsResponder` removes the type whoever registered it, as in the source.

**REST client.** A handshake completes only while disconnected, and a response answers what is on the wire of
the current connection. The request on the wire, the launches, the callbacks and the transmissions are
recorded, so that conservation and matching are statements about whole runs. A fatal error before the first
connection drains the queue through `close_connection`, so the callbacks see `no_data` and not the fatal
error, although `fail` has a loop of its own that would pass the error on.

**Middleware.** `respond` ignores the result of the producer, so a response for a request that named an empty
topic is dropped and the request is finished nevertheless. The model keeps that.

## Model

| member | source | states |
|---|---|---|
| SessionModel.ReachableStates | MDGateways/Binance/WebSockets.h:166-381 | in every reachable state pending subscribes are live, pending unsubscribes are not, a connected idle session has nothing pending and no retained command, a connected busy one has exactly one of single command, subscribe batch, unsubscribe batch on the wire, and no handler sends while a write is outstanding |
| SessionModel.LiveIsWanted | MDGateways/Binance/WebSockets.h:508-647 | in every run the live set is exactly what the calls asked for, whatever the network did |
| SessionModel.RetainedCommandIsResent | MDGateways/Binance/WebSockets.h:184 | a single command whose write has not succeeded survives calls, failures and handshakes and is what the next handshake sends |
| SessionModel.WaitingCallsUndoEachOther | MDGateways/Binance/WebSockets.h:480-647 | in every reachable state in which a call must wait, a subscribe and an unsubscribe of the same stream undo each other completely, in either order |
| SessionModel.ErrorsDisconnect | MDGateways/Binance/WebSockets.h:337-381 | an error other than the echo of an own close disconnects, clears every in-flight flag once connected, and keeps every set and the retained command |
| SessionModel.WriteOkSettles | MDGateways/Binance/WebSockets.h:284-313 | a successful write settles exactly the command or the set that was written and sends what is pending next, subscribes first |
| SessionDrift.DrainBound | MDGateways/Binance/WebSockets.h:237-313 | with no new call, at most three successful writes make a connected session idle, and the exchange then holds the drained set |
| SessionDrift.ReconnectHeals | MDGateways/Binance/WebSockets.h:166-192 | in every reachable state, after a handshake, playing out the retained command and both batches yields exactly the live set plus at most the one stream of the handshake exception; the loop over the live streams cancels nothing and queues them all |
| SessionDrift.ExceptionIsACancelledUnsubscribe | MDGateways/Binance/WebSockets.h:184 | read off the calls of any run, the handshake exception is the stream of the retained SUBSCRIBE iff its last accepted call was an unsubscribe cancelled against a pending subscribe |
| SessionDrift.OfflineUnsubscribeReachesExchange | MDGateways/Binance/WebSockets.h:586-599 | a stream unsubscribed while disconnected, other than by cancelling a pending subscribe, is off the exchange once a later handshake has drained, whatever failures and other calls come between |
| SessionDrift.ExactDrift | MDGateways/Binance/WebSockets.h:480-647 | in every run, a stream of a connected session is wrong after draining, and on an idle one is wrong now, iff the observer predicts it |
| SessionDrift.OnlyWindowsDrift | MDGateways/Binance/WebSockets.h:301-312 | only streams called in window (a), (b) or (c) since the handshake, and the handshake exception, drift |
| SessionDrift.FreshStreamDriftsIffInWindow | MDGateways/Binance/WebSockets.h:480-489 | a stream no window has touched starts to drift with a call iff the call is in a window |
| SessionDrift.CalmCall | MDGateways/Binance/WebSockets.h:508-647 | from a calm state a call keeps the session calm iff it does not edit the set being written; otherwise exactly its own stream drifts |
| SessionDrift.ConvergesWithinConnection | MDGateways/Binance/WebSockets.h:284-313 | within a connection, any interleaving of writes and calls that never edit the set being written keeps "drained equals live", so every later idle state is in step |
| SessionDrift.IdleMayBeOutOfStep | MDGateways/Binance/WebSockets.h:301-306 | a concrete run that ends idle and out of step |
| SessionObject.Session.Send | MDGateways/Binance/WebSockets.h:491-506 | needs no write outstanding; afterwards the command is the one outstanding write and the session is busy |
| SessionObject.Session.SendPendingSubs | MDGateways/Binance/WebSockets.h:237-260 | sends all pending subscribes as one batch, iff there are any |
| SessionObject.Session.SendPendingUnsubs | MDGateways/Binance/WebSockets.h:262-281 | sends all pending unsubscribes as one batch, if there are any |
| SessionObject.Session.OnHandshake | MDGateways/Binance/WebSockets.h:166-192 | the in-place code, loop included, takes exactly the handshake step of every run theorem above and keeps the invariant |
| SessionObject.Session.OnWriteOk | MDGateways/Binance/WebSockets.h:284-313 | a successful write clears what was written, sends the next batch due and keeps the invariant: exactly the step of the run theorems |
| SessionObject.Session.OnWriteError | MDGateways/Binance/WebSockets.h:288-294 | a failed write disconnects but keeps every set and the retained command: exactly the step of the run theorems |
| SessionObject.Session.OnConnectionError | MDGateways/Binance/WebSockets.h:337-396 | any other error disconnects, is ignored or is fatal, keeps every set and the retained command, and keeps the invariant |
| SessionObject.Session.CheckAndCancel | MDGateways/Binance/WebSockets.h:480-489 | finds and removes the stream |
| SessionObject.Session.SubscribeOnStrand | MDGateways/Binance/WebSockets.h:508-575 | a call for a trade or depth stream is ignored, cancelled, queued or sent exactly as in the run theorems |
| SessionObject.Session.UnsubscribeOnStrand | MDGateways/Binance/WebSockets.h:577-647 | the same for unsubscribes; one made while disconnected is queued and reaches the exchange by `OfflineUnsubscribeReachesExchange` |
| PubSubRouter.IndexesAreDetermined | CrazyRouters.hpp:127-128 | the registrations determine both indexes, so the second one is redundant |
| PubSubRouter.PubSubDataRouter.Produce | CrazyRouters.hpp:22-36 | calls each matching callback exactly once, keyed subscribers first, and is true iff at least one ran |
| PubSubRouter.PubSubDataRouter.Consume | CrazyRouters.hpp:39-55 | adds the pair to the registrations iff it is new; both indexes keep agreeing |
| PubSubRouter.PubSubDataRouter.ConsumeEverything | CrazyRouters.hpp:57-63 | adds the subscriber iff it is new |
| PubSubRouter.PubSubDataRouter.UnregisterFromEverything | CrazyRouters.hpp:65-68 | removes the subscriber, true iff it was there |
| PubSubRouter.PubSubDataRouter.Unregister | CrazyRouters.hpp:70-74 | removes the pair from both indexes or from neither, true iff it was registered |
| PubSubRouter.PubSubDataRouter.UnregisterAll | CrazyRouters.hpp:76-90 | removes exactly the pairs of the subscriber, true iff it had any registration |
| PubSubRouter.PubSubDataRouter.RemoveFromRoutingTable | CrazyRouters.hpp:93-107 | removes the pair and leaves no empty bucket |
| PubSubRouter.PubSubDataRouter.RemoveFromRegIdStore | CrazyRouters.hpp:109-125 | removes the pair from the second index and leaves no empty bucket |
| ReqRespModel.Drain | CrazyRouters.hpp:273-276 | the drain loop terminates with an empty queue although forwards enqueue more |
| ReqRespTheorems.WorkQueueIsFifo | CrazyRouters.hpp:256-277 | in every run each accepted request is forwarded exactly once, in acceptance order, never inside another forward, and each outermost call ends with an empty queue |
| ReqRespTheorems.PendingIsOpen | CrazyRouters.hpp:252-267 | in every run the pending set is the accepted ids neither retired nor cancelled since, and only pending ids are responded to |
| ReqRespTheorems.OpenIdsMeaning | CrazyRouters.hpp:282-290 | what being open means on the log, by quantifiers |
| ReqRespTheorems.NothingAfterCancel | CrazyRouters.hpp:282-290 | after a cancel nothing is delivered to the id until it is accepted again |
| ReqRespTheorems.AtMostOneLastResponse | CrazyRouters.hpp:260-265 | if no last handler re-enters its own closure, no run delivers anything to an id after its last response |
| ReqRespTheorems.StrictMeansNothingAfterLast | CrazyRouters.hpp:260-265 | what that means on the log, by quantifiers |
| ReqRespTheorems.ReentryRepeats | CrazyRouters.hpp:261-264 | a handler that begins by re-entering its own last closure is always delivered to again |
| ReqRespModel.ListenerRunsIffRegistered | CrazyRouters.hpp:256-267 | a forward of an unregistered type does nothing at all; of a registered one, the first action of the listener's script directly follows its beginning |
| ReqRespTheorems.RequestRunsListenerIffRegistered | CrazyRouters.hpp:248-280 | from every quiescent state a request of a free id is delivered its listener's first response directly after its forward begins iff its type is registered; otherwise it only stays pending |
| ReqRespTheorems.QueuedRequestRunsListenerIffRegistered | CrazyRouters.hpp:269-276 | the same for every request waiting in the queue, wherever it stands, by the time the queue has drained |
| ReqRespTheorems.RequestDuringForwardRunsListener | CrazyRouters.hpp:256-277 | a request made from within a listener waits for that forward to end and then runs its own listener |
| ReqRespTheorems.DeliveryRunsHandler | CrazyRouters.hpp:258-267 | in and out of a forward, a response to a pending id is delivered and its handler's first action directly follows |
| ReqRespTheorems.ScriptsRunInTurn | CrazyRouters.hpp:258-267 | a callback runs to its end: two scripts in turn are their concatenation |
| ReqRespRouter.GenericReqRespRouter.RegisterAsResponder | CrazyRouters.hpp:228-236 | book and inner router gain exactly the type together, with the given responder and listener, iff it was free |
| ReqRespRouter.GenericReqRespRouter.UnregisterAsResponder | CrazyRouters.hpp:238-246 | book and inner router lose exactly the type together, iff it was taken |
| ReqRespRouter.GenericReqRespRouter.Request | CrazyRouters.hpp:248-280 | the re-entrant method takes the flat step: queued during a forward, otherwise forwarded and drained |
| ReqRespRouter.GenericReqRespRouter.RunForwarder | CrazyRouters.hpp:258-267 | runs the one listener's script iff the type is in the book: without one only the forward's beginning and end are logged, with one its first action follows the beginning; ends with the flag clear and both books agreeing |
| ReqRespRouter.GenericReqRespRouter.AtMostOneListener | CrazyRouters.hpp:228-246 | a request reaches exactly one listener if its type is in the book, otherwise none |
| ReqRespRouter.GenericReqRespRouter.RunScript | CrazyRouters.hpp:258-267 | a callback's actions, re-entering the router, amount to the flat script |
| ReqRespRouter.GenericReqRespRouter.RunResponse | CrazyRouters.hpp:260-265 | a response to a pending id is delivered, to any other ignored; after a last one the id is not pending, whatever the handler did |
| ReqRespRouter.GenericReqRespRouter.CancelRequest | CrazyRouters.hpp:282-290 | removes exactly the id, true iff it was pending |
| RestModel.EveryRunConserves | MDGateways/Binance/RestApi.cpp:53-262 | in every run the fired callbacks followed by the queue are the launched requests in launch order; the wire holds the first unfired one iff connected with work; answers match; transmissions never go back |
| RestModel.FatalDrainReportsNoData | MDGateways/Binance/RestApi.cpp:210-225 | a fatal failure before the first connection tells every waiting callback `no_data`, in order |
| RestModel.OutageResendsTheFront | MDGateways/Binance/RestApi.cpp:199-239 | any other failure loses nothing: through any number of further failures and launches the queue waits, no callback fires and nothing is sent, and the next handshake sends the first unanswered request again |
| RestModel.ConnectedQueueIsAnswered | MDGateways/Binance/RestApi.cpp:153-197 | a connected client answers its whole queue in order, each request with its own response |
| RestClientObject.RestClient.LaunchRequest | MDGateways/Binance/RestApi.cpp:53-69 | a launched request joins the end of the queue and goes out at once iff it is alone and connected; all run invariants kept |
| RestClientObject.RestClient.StartNextRequest | MDGateways/Binance/RestApi.cpp:71-82 | nothing else is on the wire; afterwards the front is |
| RestClientObject.RestClient.OnHandshake | MDGateways/Binance/RestApi.cpp:112-131 | after a reconnect the unanswered front is sent again; all run invariants kept |
| RestClientObject.RestClient.OnRead | MDGateways/Binance/RestApi.cpp:153-197 | the answered request's own callback fires with the symbol list, the object, or nothing for an empty or malformed body; it leaves the queue and the next one goes out; all run invariants kept |
| RestClientObject.RestClient.OnFail | MDGateways/Binance/RestApi.cpp:199-239 | disconnects unless aborted, and keeps the queue and the callbacks for the reconnect, unless it is fatal before the first connection: then every callback is told `no_data`; all run invariants kept |
| RestClientObject.RestClient.Stop | MDGateways/Binance/RestApi.cpp:241-248 | every waiting callback fires once, in order; all run invariants kept |
| RestClientObject.RestClient.CloseConnection | MDGateways/Binance/RestApi.cpp:250-262 | calls every waiting callback with `no_data`, in queue order |
| Decimal.PrintParse | MiddleWare/Interface.cpp:175 | parsing the printed form of any 64-bit id gives the id |
| Decimal.WrappedParse | MiddleWare/Interface.cpp:250-259 | a number of any size wrapped in white space, a sign and a tail reads as itself, as its negative modulo 2^64 after a minus, or not at all when out of range |
| MiddlewareModel.PendingBook | MiddleWare/Interface.cpp:225-329 | in every run the book is the accepted ordinary requests with no last response yet, each with the topic it named, and every response goes to the topic of its own open request |
| MiddlewareModel.RunIsHeard | MiddleWare/Interface.cpp:137-329 | in every run each requester's callbacks receive exactly the ids, payloads, last flags and pongs meant for its topic, in order |
| MiddlewareModel.ResponseCallsOneCallback | MiddleWare/Interface.cpp:137-198 | every response record calls exactly one callback: the error callback iff its headers are malformed, otherwise the response or pong callback with what the headers say |
| MiddlewareModel.RequestArrives | MiddleWare/Interface.cpp:675-702 | a request reaches the book under its own id and topic and the handler with its own payload; a duplicate changes nothing but the error count |
| MiddlewareModel.RequestRoundTrip | MiddleWare/Interface.cpp:296-329 | for every id and every sequence of `respond` calls the requester receives exactly that sequence up to its first last response |
| MiddlewareModel.PingRoundTrip | MiddleWare/Interface.cpp:200-223 | a ping returns as one pong with its id and never enters the book; without a pong callback it is refused before anything is sent |
| MiddlewareObject.Responder.HandleRequest | MiddleWare/Interface.cpp:225-294 | exactly the step of the run theorems; handled iff the record is a request; the handler is called, with the record's id and payload, iff the headers are well formed, the id is free and it is no special request; anything malformed only counts an error |
| MiddlewareObject.Responder.HandleSpecialRequest | MiddleWare/Interface.cpp:200-223 | answers pings and ignores other special requests |
| MiddlewareObject.Responder.Respond | MiddleWare/Interface.cpp:296-329 | exactly the step of the run theorems: Ok iff the id is pending; then one record goes to its topic, unless that is empty, and a last response removes the id |
| PlatformCommModel.RunIsConsistent | MDGateways/PlatformComm/PlatformComm.cpp:132-239 | in every run a topic is in the table for a key iff the latest handled command for the pair was a subscribe; the log's actions per pair alternate starting with subscribe; no topic set is empty; every key splits |
| PlatformCommModel.CommandTakesEffect | MDGateways/PlatformComm/PlatformComm.cpp:189-233 | after any run a "subscribe" message makes its topic want `symbol:type` and an "unsubscribe" ends it, no other pair changes, and the log gains exactly that update iff something changed |
| PlatformCommModel.OtherMessagesAreIgnored | MDGateways/PlatformComm/PlatformComm.cpp:189-203 | after any run another type, an unknown partition or a missing member changes neither table nor log |
| PlatformCommModel.ReplayRebuildsTable | MDGateways/PlatformComm/PlatformComm.cpp:219-233 | replaying the emitted change log from nothing rebuilds the table exactly |
| PlatformCommModel.BookKeepingChangesOnePair | MDGateways/PlatformComm/PlatformComm.cpp:132-179 | book-keeping succeeds iff it changes the pair, and changes no other pair |
| PlatformCommObject.PlatformComm.HandleBookKeepingForSubscription | MDGateways/PlatformComm/PlatformComm.cpp:132-150 | exactly the table change of the run theorems; true iff the pair is new |
| PlatformCommObject.PlatformComm.HandleBookKeepingForUnsubscription | MDGateways/PlatformComm/PlatformComm.cpp:152-170 | exactly the table change of the run theorems; true iff the pair was there, and no empty set stays |
| PlatformCommObject.PlatformComm.MsgCb | MDGateways/PlatformComm/PlatformComm.cpp:181-239 | the step of one platform message: afterwards the topic wants the key iff the message was a subscribe; an update is logged iff the table changed |
| PlatformCommObject.PlatformComm.OnPriceDataFromExchange | MDGateways/PlatformComm/PlatformComm.cpp:316-368 | exactly one message to each topic whose latest handled command for a concerned key was a subscribe, none to any other; type, record key and body are those of the kind of update |
| Keys.KeyToStreamInPlace | MDGateways/Binance/Binance.cpp:188-209 | the in-place lower-casing computes the stream of a key |
| Keys.StreamShape | MDGateways/Binance/Binance.cpp:188-209 | a key has a stream iff its type is trade or depth: the symbol letter by letter without upper case, then exactly "@trade" or "@depth5" |
| Keys.StreamToKeyInPlace | MDGateways/Binance/Binance.cpp:459-488 | the in-place upper-casing computes the key of a stream |
| Keys.RoundTrip | MDGateways/Binance/Binance.cpp:174-209 | key to stream and back is the identity iff the symbol has no lower-case letter, ':' or '@' |
| Keys.DistinctKeysDistinctStreams | MDGateways/Binance/WebSockets.h:510-544 | distinct keys with clean symbols have distinct streams |
| Keys.DisintegrateInvertsGenerate | MDGateways/Binance/Binance.cpp:382-390 | every generated key has two tokens, and comes apart into symbol and type iff neither holds a ':' |

## Left out

- Sockets, TLS, DNS, timers, the throttler and thread scheduling: they appear only as the events a network can deliver; each handler is one atomic step.
- JSON text and the message numbers of the WebSocket commands: commands are a verb and a set of streams; the order of streams in a batch and `m_msgNo`, which the constructor does not initialise, are not modelled.
- `closeConnection`/`stop` of `session` and the Retry action, which `classifyError` never returns.
- `EndToEndReqRespRouter`: its `request` and `cancelRequest` are the text of the generic router's, with the responder id in place of the request type.
- Callbacks that register or unregister while a router iterates, which C++ leaves undefined, and iterator validity: a handler that cancels its own id before the erase is modelled as a removal by id.
- Old response closures after an id is reused: a response names the id, so a closure kept from an earlier request with the same id reaches the handler of the later one in the model.
- SessionObject.Session.OnHandshake: the ready callback and the restarted read are not modelled.
- RestClientObject.RestClient.Stop: after `stop` no completion of the old connection is delivered; with one, `on_read` would take the front of an empty queue.
- The `get*` wrappers of the REST client, which call back at once while disconnected, and `keepAlive`, which only launches a ping.
- `handleLifecycle`, the consumption loops, rebalancing and shutdown of the middleware.
- `PerPartitionSM`: CPPFsm/FSM.hpp is not part of this model, so `MsgCb` stops at the book-keeping and the emitted update; a message without a destination topic, which throws in the source, is not modelled.
- "A stream stays up while any topic wants it": each topic's unsubscribe is forwarded without counting, so this is not claimed.
- Configuration merging, connectivity status, snapshots, logging and the data dumper.
