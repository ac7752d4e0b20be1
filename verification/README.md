# Verified models of the Streamr network's state machines

The components of the Streamr monorepo that are driven by callbacks, timers and awaits, as Dafny
state machines. JavaScript runs an event to completion, so one callback, timer firing or resumed
await is one step. For each component there is

- a class whose methods change its fields step by step as the source does, each proved to make
  exactly the step of a function on values;
- an invariant that every step keeps, and theorems over every run, that is, over every sequence of
  enabled events.

| file | component |
|---|---|
| `Endpoints.dfy`, `ConnectionParts.dfy`, `Connections.dfy`, `StrandedEndpoints.dfy`, `ConnectionManager.dfy` | the endpoint map of one connection manager: who may change it, what becomes of buffered messages, and which endpoints nobody reports on any more |
| `SimultaneousDial.dfy`, `DialingManagers.dfy` | two nodes that dial each other: every interleaving ends on one connection, first for the endpoint maps, then for two whole managers |
| `Rpc.dfy` | requests and notifications of the RPC communicator, over a network that loses, repeats and reorders |
| `ProviderHealth.dfy`, `FailoverProvider.dfy`, `ChainEventPoller.dfy` | back-off of failing providers, hedged calls, and the cursor of the event poller |
| `AirportClustering.dfy` | the clustering and renumbering loops of the airport script |
| `ProxyNodeFinder.dfy`, `Gate.dfy`, `TheGraphClient.dfy` | concurrent discovery workers, queries that wait at gates, paging |
| `FrameDecoder.dfy`, `Metrics.dfy`, `EventGateway.dfy`, `MapWithTtl.dfy`, `ERC1271.dfy` | stream framing, sampling, the event gateway, entries that expire and a cache of verdicts |
| `Defer.dfy`, `Wrappers.dfy`, `Arithmetic.dfy` | the settle-once promise, an option type, facts about quotients |

Hashes, message parsers, recovered signers, random draws and clocks are parameters. What transports,
servers and the chain do is an event, possible whenever the source has to reckon with it.

## Where the code does not do what one might expect

- `getOfferer`: if the hashes of the two orderings are equal, both nodes take the other for the
  offerer, and two nodes that dial each other end on different connections (`EqualHashesDisagree`;
  `OfferersAgree` says exactly when).
- `rejectHandshake` for a pending connection that is already an endpoint, as a websocket server does
  it with a connection it requested, leaves the endpoint behind with nobody to report on it
  (`PendingDestroyedKeeps`; `StrandedRun`). Over all events an endpoint is stranded like that exactly
  in three ways (`StrandedExactly`), and only in this one if connectors offer no used-up connection
  (`OnlyDestroyStrands`); it stays stranded exactly until another connection of the peer takes it over
  (`StrandedStays`). `RequestFrees` shows that the requests of `SimultaneousDial.dfy` never strand one.
- What waits at a stranded endpoint is rejected by `stop`, two seconds later, or written or rejected by
  a connection that takes the endpoint over. A message pushed after `stop` has rejected the buffer has a
  rejected promise from the start, and is written all the same if another connection then takes over
  (`RejectedYetWritten`; `BufferedMessageFate` over every run).
- A connector can hand out a pending connection again after it was replaced, and the manager takes it
  (`ReplacedOfferedAgain`). A connection that is taken can report nothing, neither success nor end,
  exactly if it was offered before and was replaced, or is the endpoint's own, or is stopped with its
  handshake over (`ReportsNothingExactly`). What other connections report stays silent all the same
  (`StaleEventsAreSilent`, in every run with any offers).
- `send` with `connect` and `sendIfStopped` in a stopped manager gets no endpoint and fails on that
  (`NoEndpointExactly`).
- The poller's comment says that logs asked for by accident reach nobody. Registration goes by topic
  but delivery by event name: with two overloads of one event on one contract a log reaches both
  listeners (`DeliveryIsExactIff`).
- Without a JFK row the airport script writes to index -1 and throws; and rotating to JFK splits
  JFK's country unless JFK is its first row or there is no other country (`NumberFromJfk`,
  `RotationKeepsCountries`, `JfkSplitsItsCountry`).
- If the gateway's `start` returns undefined, it is started again for every listener and never
  stopped (`NeedsAProducer`).
- A `once` listener runs as often as an emission begins while it is registered, so twice if an
  earlier listener emits the event again (`OnceMeansOnce`, `NestedCallsTwice`).
- After a timeout a second polling loop can run beside the first (`TwoLoops`; `OneLoopExactly` says
  when).
- A page size of zero makes `queryEntities` fail after one empty page (`QueryEntities`).
- The comment on `DENIAL_TTL` says ten minutes; its value, and the model, is 20 seconds. The cache
  key leaves out the payload, so a verdict may stem from another payload of the signer
  (`OtherPayloads`; `AskIsExact` says when).
- Set-asides of a provider are a cool-down apart even if the clock goes back (`SetAsidesAreApart`
  assumes nothing about it).

## Model

| member | source | states |
|---|---|---|
| Endpoints.OfferersAgree | packages/dht/src/helpers/offering.ts:6-14 | the two ends name the same node as offerer if and only if the two hashes differ, and then the node whose own ordering of the pair has the smaller hash; if not, each names the other |
| Connections.StepKeeps | packages/dht/src/connection/ConnectionManager.ts:217-486 | every event, offers of any connection fresh or handed out before included, keeps the invariant: an endpoint names an object of its peer, a connection that can still report something is the stored one, a buffer that holds messages waits at one endpoint, a connection has written what waited for it and then the direct sends, and only the fallback of `stop` leaves an endpoint with a rejected promise |
| Connections.ReachableValid | packages/dht/src/connection/ConnectionManager.ts:217-486 | that invariant holds in every state of every run, whatever the connectors offer, starts, stops and the fallback of `stop` included |
| Connections.StaleEventsAreSilent | packages/dht/src/connection/PendingConnection.ts:33-62 | in every reachable state, whatever a connection that is not the stored one reports, no endpoint is removed or overwritten, no buffer flushed and nothing written |
| Connections.AcceptKeeps | packages/dht/src/connection/ConnectionManager.ts:438-473 | an accepted connection becomes the peer's endpoint; a replaced pending connection hands over its buffer, a replaced established one does not |
| Connections.NewConnectionKeeps | packages/dht/src/connection/ConnectionManager.ts:425-473 | an offered connection, fresh or handed out before, is newly stored exactly if the manager has not stopped and there is no endpoint for which this node is the offerer; else the endpoints stay |
| Connections.ReportsNothingExactly | packages/dht/src/connection/websocket/WebsocketClientConnector.ts:75-80 | a connection that is taken can report nothing to the manager if and only if it was offered before and has been replaced, or is the endpoint's own, or is stopped and no longer handshaking |
| Connections.NoListenerIsDoubled | packages/dht/src/connection/ConnectionManager.ts:433-434 | a connection taken again gets its listeners twice, but no event that it still had a listener for is emitted any more |
| Connections.HandshakeCompletedKeeps | packages/dht/src/connection/PendingConnection.ts:38-42 | a completed handshake establishes the stored connection with its buffer written, unless it was replaced or its listener removed, and changes nothing for any other, although `stopped` is not looked at |
| Connections.PendingClosedKeeps | packages/dht/src/connection/PendingConnection.ts:44-53 | a closed pending connection removes the endpoint exactly if it is the stored one and neither stopped nor replaced |
| Connections.PendingDestroyedKeeps | packages/dht/src/connection/PendingConnection.ts:55-62 | destroying changes no endpoint; its connection can report nothing afterwards exactly if it is stored, except that a stopped one, for which `destroy` returns at once, may still complete its handshake |
| StrandedEndpoints.StrandedRun | packages/dht/src/connection/websocket/WebsocketServerConnector.ts:132-139 | a run that ends with a stranded endpoint |
| Connections.ManagedClosedKeeps | packages/dht/src/connection/ManagedConnection.ts:50-63 | the end of an established connection removes the endpoint exactly if it is the stored one and still listened to |
| Connections.SendToKeeps | packages/dht/src/connection/ConnectionManager.ts:294-298 | a message for an existing endpoint is appended to what waits for it or was written to it, and to nothing else |
| Connections.NoEndpointExactly | packages/dht/src/connection/ConnectionManager.ts:269-294 | a send fails on a missing endpoint if and only if the manager is stopped, may still send, has to connect, and the peer is not itself and has no endpoint |
| Connections.SendExactly | packages/dht/src/connection/ConnectionManager.ts:269-298 | every send: when each of its results occurs, in terms of the phase, the endpoint and the options; a message written or buffered comes last at its peer's endpoint, which is made if there is none; for any other result there is no trace of it |
| Connections.OneResult | packages/dht/src/connection/ConnectionManager.ts:269-298 | these conditions exclude each other |
| Connections.StopBegunDooms | packages/dht/src/connection/ConnectionManager.ts:226-246 | `stop` will reject exactly the buffers of endpoints whose connection will not report its end, and changes no endpoint by that |
| Connections.FallbackViews | packages/dht/src/connection/ConnectionManager.ts:242-246 | that fallback rejects an open promise, throws away what waits at the endpoint, leaves the endpoint, and keeps the invariant |
| Connections.WaitingEnds | packages/dht/src/connection/ConnectionManager.ts:382-423 | while a buffer waits, the end of the stored connection rejects it exactly if that is neither stopped nor replaced, its handshake writes all of it exactly if it can complete, and at least one of the two unless the endpoint is stranded |
| Connections.RunRemembers | packages/utils/src/Defer.ts:39-53 | over any stretch of a run a settled promise stays, a settled buffer that `stop` did not reject stays as it is, and what was pushed, thrown away or written only grows |
| Connections.PhaseExactly | packages/dht/src/connection/ConnectionManager.ts:198-250 | over every event: only starting and stopping change the phase, and a stopped manager gets no new endpoint |
| Connections.StoppedForGood | packages/dht/src/connection/ConnectionManager.ts:198-250 | over every run: once stopped, it stays so, and no endpoint is added |
| Connections.EndsOnce | packages/dht/src/connection/ManagedConnection.ts:50-56 | over every run: after the end of an established connection, or the removal of its listeners, no end of it changes an endpoint |
| Connections.BufferedMessageFate | packages/dht/src/connection/ConnectionManager.ts:387-401 | a buffered message in every later state: while the promise is open it waits in order at its peer's endpoint; once it is resolved it was written at its place on exactly one connection, before any direct send; once it is rejected it is lost and never written, except that a message pushed after the fallback of `stop` may still wait or be written |
| StrandedEndpoints.StoredExactly | packages/dht/src/connection/ConnectionManager.ts:382-486 | over every event: a connection that the event does not newly store is stored afterwards if and only if it was, the event reports nothing of it, and no other connection to its peer is taken; and what becomes of it |
| StrandedEndpoints.StrandedExactly | packages/dht/src/connection/PendingConnection.ts:33-62 | over every event: an endpoint becomes stranded, its connection unable to report success or end, if and only if the event takes a connection that can report nothing, destroys a stored one that is neither stopped nor replaced, or ends the handshaker of a stored one that was stopped before it was taken |
| StrandedEndpoints.StrandedStays | packages/dht/src/connection/ConnectionManager.ts:438-459 | a stranded endpoint stays, stranded, if and only if the event takes no other connection to its peer |
| StrandedEndpoints.StrandedUntilTakenOver | packages/dht/src/connection/ConnectionManager.ts:438-459 | so over any stretch of a run in which none is taken |
| StrandedEndpoints.SoundExactly | packages/dht/src/connection/websocket/WebsocketClientConnector.ts:75-80 | if every endpoint's connection was not replaced and reports both ways unless it was destroyed, that is so after any event if and only if the event takes no connection that is replaced, stopped, finished or the endpoint's own |
| StrandedEndpoints.ReachableSound | packages/dht/src/connection/websocket/WebsocketClientConnector.ts:75-80 | so it holds in every state of every run that takes none of those |
| StrandedEndpoints.OnlyDestroyStrands | packages/dht/src/connection/Handshaker.ts:96-105 | in such a run an endpoint becomes stranded if and only if its stored connection is destroyed |
| StrandedEndpoints.ReplacedOfferedAgain | packages/dht/src/connection/websocket/WebsocketClientConnector.ts:75-80 | a run in which a replaced, live connection is offered again, taken, and can report nothing |
| StrandedEndpoints.RejectedYetWritten | packages/dht/src/connection/ConnectionManager.ts:242-246 | a run in which a message is written to a connection although its promise was rejected by the fallback of `stop` |
| Defers.Defer.Resolve | packages/utils/src/Defer.ts:39-45 | an open promise is resolved, a settled one stays |
| Defers.Defer.Reject | packages/utils/src/Defer.ts:47-53 | an open promise is rejected, a settled one stays |
| ConnectionParts.OutputBuffer.Push | packages/dht/src/connection/OutputBuffer.ts:9-12 | the message waits last, and all who push share one promise |
| ConnectionParts.OutputBuffer.Resolve | packages/dht/src/connection/OutputBuffer.ts:18-21 | the buffer is empty and the promise resolved unless it was settled |
| ConnectionParts.OutputBuffer.Reject | packages/dht/src/connection/OutputBuffer.ts:23-26 | the buffer is empty and the promise rejected unless it was settled |
| ConnectionParts.PendingConnection.ReplaceAsDuplicate | packages/dht/src/connection/PendingConnection.ts:33-36 | only the replaced flag is set |
| ConnectionParts.PendingConnection.OnHandshakeCompleted | packages/dht/src/connection/PendingConnection.ts:38-42 | emits to the one-time listener exactly if not replaced |
| ConnectionParts.PendingConnection.Close | packages/dht/src/connection/PendingConnection.ts:44-53 | stops once, and emits exactly if it was neither stopped nor replaced |
| ConnectionParts.PendingConnection.Destroy | packages/dht/src/connection/PendingConnection.ts:55-62 | stops without emitting, and loses its listeners |
| ConnectionParts.ManagedConnection.ReplaceAsDuplicate | packages/dht/src/connection/ManagedConnection.ts:60-63 | only the replaced flag is set |
| ConnectionParts.ManagedConnection.OnDisconnected | packages/dht/src/connection/ManagedConnection.ts:50-56 | emits exactly if not replaced and listened to, and only once |
| ConnectionManagers.ConnectionManager.OnConnected | packages/dht/src/connection/ConnectionManager.ts:382-407 | the loop writes the whole buffer in order, and the new state is the step's |
| ConnectionManagers.ConnectionManager.OnDisconnected | packages/dht/src/connection/ConnectionManager.ts:409-423 | the endpoint goes, and a connecting one's buffer is rejected |
| ConnectionManagers.ConnectionManager.OnNewConnection | packages/dht/src/connection/ConnectionManager.ts:425-436 | answers whether the connection, fresh or handed out before, was taken, and makes the step, keeping the invariant |
| ConnectionManagers.ConnectionManager.AcceptNewConnection | packages/dht/src/connection/ConnectionManager.ts:438-473 | refuses exactly if there is an endpoint and this node is the offerer, then without any change |
| ConnectionManagers.ConnectionManager.OnHandshakeCompleted | packages/dht/src/connection/Handshaker.ts:46-50 | the pending connection reports its success to the manager exactly if it may, and its handshaker stops |
| ConnectionManagers.ConnectionManager.ClosePending | packages/dht/src/connection/PendingConnection.ts:44-53 | closing reports the end to the manager exactly if the connection is live and heard |
| ConnectionManagers.ConnectionManager.OnManagedClosed | packages/dht/src/connection/ManagedConnection.ts:50-56 | the end of a transport is reported to the manager exactly if the connection is heard and was not replaced |
| ConnectionManagers.ConnectionManager.Send | packages/dht/src/connection/ConnectionManager.ts:269-313 | makes the step that `SendExactly` describes, errors and the two tests for oneself included |
| ConnectionManagers.ConnectionManager.DeliverTo | packages/dht/src/connection/ConnectionManager.ts:294-298 | makes the step that `SendExactly` describes: written, buffered or dropped, or failed for lack of an endpoint |
| ConnectionManagers.ConnectionManager.Close | packages/dht/src/connection/ConnectionManager.ts:475-486 | closing a pending connection is the step of its `close`; an established one is left to its transport, and without an endpoint there is only a report |
| ConnectionManagers.ConnectionManager.Start | packages/dht/src/connection/ConnectionManager.ts:198-203 | starts unless it runs or has stopped |
| ConnectionManagers.ConnectionManager.BeginStop | packages/dht/src/connection/ConnectionManager.ts:217-239 | the loop closes every connection that is not handshaked, and nothing else, and what cannot report its end is waited for |
| ConnectionManagers.ConnectionManager.OnStopTimeout | packages/dht/src/connection/ConnectionManager.ts:242-246 | after two seconds the buffer is rejected and the endpoint stays |
| ConnectionManagers.ConnectionManager.FinishStop | packages/dht/src/connection/ConnectionManager.ts:249-250 | then the manager is stopped, with its endpoints as they are |
| ConnectionManagers.CloseAllLeaves | packages/dht/src/connection/ConnectionManager.ts:226-239 | after it a peer's endpoint is gone exactly if its connection was being made and could still report; all others are unchanged |
| ConnectionManagers.ConnectionManager.OnHandshakeResponse | packages/dht/src/connection/Handshaker.ts:38-60 | a response completes, closes for good, or waits for the other end, and is ignored once the handshaker has stopped |
| ConnectionManagers.ResponseExactly | packages/dht/src/connection/Handshaker.ts:38-60 | what a response does to the endpoints, by its version and error: established, closed for good, or unchanged for a duplicate and for a stopped handshaker |
| ConnectionManagers.ConnectionManager.CloseFromHandshaker | packages/dht/src/connection/Handshaker.ts:52-55 | closes the pending connection and stops listening |
| Connections.HandshakerClosedKeeps | packages/dht/src/connection/Handshaker.ts:30-55 | when the handshaker closes its connection the endpoint goes exactly if that is the stored one, neither stopped nor replaced |
| ConnectionManagers.ConnectionManager.OnHandshakeRequest | packages/dht/src/connection/Handshaker.ts:96-110 | an incoming request is accepted exactly if the manager takes the connection |
| ConnectionManagers.ConnectionManager.RejectHandshake | packages/dht/src/connection/Handshaker.ts:96-105 | the pending connection is destroyed, and no endpoint changes |
| ConnectionManagers.AfterRequestKeeps | packages/dht/src/connection/Handshaker.ts:96-110 | an accepted request establishes its connection at once, a refused one leaves all endpoints alone |
| SimultaneousDial.DialIsTheManagers | packages/dht/src/connection/ConnectionManager.ts:425-436 | a dial moves the dialler's endpoint map as its manager moves it |
| SimultaneousDial.RequestIsTheManagers | packages/dht/src/connection/Handshaker.ts:96-110 | so does a request at the acceptor |
| SimultaneousDial.DeliverIsTheManagers | packages/dht/src/connection/Handshaker.ts:38-55 | so does a reply at the dialler |
| SimultaneousDial.EveryRunAgrees | packages/dht/src/connection/ConnectionManager.ts:438-473 | if the hashes differ, every interleaving with nothing left to deliver ends with both nodes on the same connection, the offerer's if the offerer dialled |
| SimultaneousDial.EveryRunEnds | packages/dht/src/connection/Handshaker.ts:23-110 | after d dials at most 3·d further events can happen |
| SimultaneousDial.NoDeadlock | packages/dht/src/connection/Handshaker.ts:23-110 | while anything is undelivered an event other than a dial is possible |
| SimultaneousDial.EqualHashesDisagree | packages/dht/src/helpers/offering.ts:6-14 | if the hashes are equal, a run ends with the nodes on different connections |
| DialingManagers.RequestFrees | packages/dht/src/connection/Handshaker.ts:96-110 | an incoming request never strands an endpoint |
| DialingManagers.ManagersKeepStep | packages/dht/src/connection/ConnectionManager.ts:382-473 | in every run of the same events two whole managers have the endpoint maps of the dialling world |
| DialingManagers.ManagersAgree | packages/dht/src/connection/ConnectionManager.ts:438-473 | so two managers that dialled, with different hashes and nothing left to deliver, each hold one established endpoint for the other, over the same transport |
| Rpc.StepKeeps | packages/proto-rpc/src/RpcCommunicator.ts:183-358 | for every registered request: in the map, unsettled and timed are equivalent; a settled promise never changes |
| Rpc.SendDoneLeavesRequests | packages/proto-rpc/src/RpcCommunicator.ts:221-233 | the notification path never resolves a registered request with the empty result |
| Rpc.LateResponse | packages/proto-rpc/src/RpcCommunicator.ts:237-246 | a response to a settled request, or a second one, changes nothing |
| Rpc.DisconnectIsExact | packages/dht/src/transport/ListeningRpcCommunicator.ts:18-21 | a disconnect rejects exactly the open requests aimed at that peer |
| Rpc.VerdictOfResponse | packages/proto-rpc/src/RpcCommunicator.ts:255-341 | what the client learns of a handled request: the parsed answer or that it cannot be parsed, one of two special errors by their codes, or else the error with the message, class and code that were thrown, of which empty ones are not told |
| Rpc.LearnsExactly | packages/proto-rpc/src/RpcCommunicator.ts:255-341 | so it learns of a server failure if and only if the handler threw with an ordinary code, and of a result if and only if it answered and the answer can be parsed |
| Rpc.VerdictOfAny | packages/proto-rpc/src/RpcCommunicator.ts:330-341 | for any response: the type of its error decides what it is settled with, and without one its body |
| Rpc.EventSettlesExactly | packages/proto-rpc/src/RpcCommunicator.ts:183-358 | what becomes of an open promise at every event, with the error of each rejection |
| Rpc.CallsExactly | packages/proto-rpc/src/RpcCommunicator.ts:192-235 | a call is rejected by a stopped client, a notification without a listener fulfilled; a request is registered with its peer and timed exactly if the client runs |
| Rpc.NothingElseChanges | packages/proto-rpc/src/RpcCommunicator.ts:183-358 | only `stop` stops the client, and only a call adds a promise or a request |
| Rpc.SettledForGood | packages/proto-rpc/src/RpcCommunicator.ts:51-99 | over every run no promise is settled twice |
| Rpc.RequestsAreAnswered | packages/proto-rpc/src/RpcCommunicator.ts:237-345 | over every run with losses, repetitions and reordering: a request settled by a server has learned, exactly, of the outcome that a handler had for that very request |
| Rpc.ResponseSettles | packages/proto-rpc/src/RpcCommunicator.ts:237-345 | over every run: an open request that receives the response to a handled one learns of that outcome, for good |
| Rpc.ExchangeSucceeds | packages/proto-rpc/src/RpcCommunicator.ts:192-345 | in any reachable state a running client can make a request, have it handled and learn the outcome |
| Rpc.RpcCommunicator.OnOutgoingMessage | packages/proto-rpc/src/RpcCommunicator.ts:192-235 | makes the step of a call, keeping the invariant; a message without a deferred result changes nothing |
| Rpc.RpcCommunicator.OnSendFailed | packages/proto-rpc/src/RpcCommunicator.ts:211-220 | a failed send rejects what it belongs to, once |
| Rpc.RpcCommunicator.OnIncomingResponse | packages/proto-rpc/src/RpcCommunicator.ts:317-345 | a response settles its request by its verdict if the request is open, else nothing, as `VerdictOfResponse` and `VerdictOfAny` say |
| Rpc.RpcCommunicator.OnTimeout | packages/proto-rpc/src/RpcCommunicator.ts:41-47 | the timeout rejects and removes its request |
| Rpc.RpcCommunicator.HandleClientError | packages/proto-rpc/src/RpcCommunicator.ts:347-358 | rejects and removes the request if it is open |
| Rpc.RpcCommunicator.OnPeerDisconnected | packages/dht/src/transport/ListeningRpcCommunicator.ts:18-21 | the loop ends all open requests to the peer and no others |
| Rpc.RpcCommunicator.Stop | packages/proto-rpc/src/RpcCommunicator.ts:183-190 | the loop rejects every open request and empties the map |
| ProviderHealths.HealthAfter | packages/sdk/src/ProviderHealth.ts:55-83 | after any history with f counted failures since the last success the cool-down is 0 if f < 2, else min(30000·2^(f-2), 300000), counted from the last counted failure |
| ProviderHealths.CooldownTable | packages/sdk/src/ProviderHealth.ts:6-8 | the cool-down is half a minute after two failures, then doubles, and is five minutes from the sixth |
| ProviderHealths.CountedExactly | packages/sdk/src/ProviderHealth.ts:68-83 | a failure counts if and only if it is one of the first two since the last success or the cool-down of the last one counted is over |
| ProviderHealths.SetAsidesAreApart | packages/sdk/src/ProviderHealth.ts:68-83 | consecutive set-asides are at least the earlier cool-down apart |
| ProviderHealths.SetAsidesTakeTime | packages/sdk/src/ProviderHealth.ts:68-83 | k+1 set-asides take at least the sum of the first k cool-downs |
| ProviderHealths.Shuffle | packages/sdk/src/ProviderHealth.ts:17-26 | the loop swaps each position with the one drawn for it |
| ProviderHealths.ShuffleReachesAll | packages/sdk/src/ProviderHealth.ts:17-26 | every order of the list comes about by some draws |
| ProviderHealths.ShuffleTellsDraws | packages/sdk/src/ProviderHealth.ts:17-26 | and, of different providers, by those draws only, so that equally likely draws give equally likely orders |
| ProviderHealths.SortIsStable | packages/sdk/src/ProviderHealth.ts:49-51 | those set aside until the same time keep their order |
| ProviderHealths.ProviderHealth.Order | packages/sdk/src/ProviderHealth.ts:45-53 | a permutation with the healthy providers first, shuffled by the draws, and then the others, soonest back first and otherwise in their order |
| ProviderHealths.ProviderHealth.RecordSuccess | packages/sdk/src/ProviderHealth.ts:55-66 | clears the provider's failures, and nobody else's |
| ProviderHealths.ProviderHealth.RecordFailure | packages/sdk/src/ProviderHealth.ts:68-83 | counts a failure unless the provider is set aside or unknown |
| FailoverProviders.StepKeeps | packages/sdk/src/FailoverProvider.ts:58-112 | every event keeps: asked providers are a prefix of the order and the rest is queued, an open call has an attempt outstanding and its timer armed, `pending` counts the attempts that did not fail; while the call is open and providers are left the attempt timer is armed |
| FailoverProviders.CallIsServed | packages/sdk/src/FailoverProvider.ts:58-114 | over every run: while the call is open an attempt is outstanding, the call timer is armed, and so is the attempt timer while providers are left; providers are asked in the health order; a rejection by provider failures means every provider was asked and failed that way |
| FailoverProviders.AlwaysHedged | packages/sdk/src/FailoverProvider.ts:77-85 | over every run: while an open call has providers left its attempt timer is armed, and when it fires exactly the next provider of the order is asked and the timer armed again |
| FailoverProviders.StepAsks | packages/sdk/src/FailoverProvider.ts:77-107 | over every event: one more provider is asked, the next of the order, if and only if the call is open, providers are left, and the timer fires or a provider fails; every attempt notes its reply and its first judgement |
| FailoverProviders.StepSettles | packages/sdk/src/FailoverProvider.ts:65-107 | over every event: how it settles an open call, by the last provider's failure only if all have failed, and that only provider failures are remembered |
| FailoverProviders.TimeoutTellsLastFailure | packages/sdk/src/FailoverProvider.ts:65-67 | over every run: a call that runs out of time is rejected with the last provider failure, if there was one |
| FailoverProviders.ProviderFailureCodes | packages/sdk/src/FailoverProvider.ts:12-16 | the four codes by which a provider fails rather than answers |
| FailoverProviders.FirstAnswerWins | packages/sdk/src/FailoverProvider.ts:87-99 | the first answer settles the call for good |
| FailoverProviders.SettledForGood | packages/sdk/src/FailoverProvider.ts:68-76 | a call settles once |
| FailoverProviders.JudgedForGood | packages/sdk/src/FailoverProvider.ts:115-131 | an attempt is judged at most once |
| FailoverProviders.StepJudges | packages/sdk/src/FailoverProvider.ts:115-131 | an event writes at most the health record of the one attempt that it judges |
| FailoverProviders.LateIsNoSuccess | packages/sdk/src/FailoverProvider.ts:114-131 | an answer after the attempt's slow timer, a result or an error, never counts as a success |
| FailoverProviders.FailoverCall.constructor | packages/sdk/src/FailoverProvider.ts:58-67 | the first provider of the order is asked, the rest queued |
| FailoverProviders.FailoverCall.LaunchNextProvider | packages/sdk/src/FailoverProvider.ts:77-86 | takes a provider off the queue, and asks it and arms the timer for the next one unless the call is settled, the step that `StepAsks` describes |
| FailoverProviders.FailoverCall.JudgeAttempt | packages/sdk/src/FailoverProvider.ts:117-128 | records the first judgement of an attempt only |
| FailoverProviders.FailoverCall.HandleResult | packages/sdk/src/FailoverProvider.ts:88-91 | a result is judged and offered as the settlement |
| FailoverProviders.FailoverCall.HandleError | packages/sdk/src/FailoverProvider.ts:92-107 | an error that is an answer ends the call; a provider's failure asks the next, or ends the call when none is left |
| FailoverProviders.FailoverCall.HandleSlow | packages/sdk/src/FailoverProvider.ts:129-129 | a slow attempt is judged a failure |
| FailoverProviders.FailoverCall.HandleCallTimer | packages/sdk/src/FailoverProvider.ts:65-67 | the call is rejected with the last failure, or a timeout |
| ChainEventPollers.PollDeliversDue | packages/sdk/src/contracts/ChainEventPoller.ts:162-210 | the deliveries of one poll are what is due between the old and the new cursor, however far the provider lags |
| ChainEventPollers.PollKeeps | packages/sdk/src/contracts/ChainEventPoller.ts:113-210 | a poll over providers that fail, lag and take turns keeps: delivered is exactly what is due below the cursor, which never goes back |
| ChainEventPollers.PollExactly | packages/sdk/src/contracts/ChainEventPoller.ts:113-206 | a poll answered by a provider that knows the chain up to a block delivers all events from the cursor up to there, and moves the cursor just above the last of them; without any it moves above the block number asked for after 30 polls without progress, else stays; it starts counting anew exactly if the cursor moved |
| ChainEventPollers.FailedPollExactly | packages/sdk/src/contracts/ChainEventPoller.ts:119-206 | an aborted poll changes nothing, and one without an answer is only counted |
| ChainEventPollers.CounterIsExact | packages/sdk/src/contracts/ChainEventPoller.ts:201-206 | over every run the counter is the number of polls since the cursor last moved |
| ChainEventPollers.ExactlyOnce | packages/sdk/src/contracts/ChainEventPoller.ts:112-210 | over every run of polls every log from the start up to the cursor has been delivered exactly once and in order |
| ChainEventPollers.DeliveredUpTo | packages/sdk/src/contracts/ChainEventPoller.ts:113-206 | over every run: once a poll was answered by a provider that knew the chain up to a block, all that is due from the start up to that block has been delivered, in order |
| ChainEventPollers.FilterKeepsEvents | packages/sdk/src/contracts/ChainEventPoller.ts:131-181 | the filter of addresses and topics loses no log that somebody is registered for |
| ChainEventPollers.DeliveryIsExactIff | packages/sdk/src/contracts/ChainEventPoller.ts:166-199 | every listener gets exactly the logs of its contract and topic if and only if no contract has listeners for two overloads of one event name |
| ChainEventPollers.OverloadMisdelivers | packages/sdk/src/contracts/ChainEventPoller.ts:191-199 | a log of one overload also reaches the listener of the other |
| ChainEventPollers.ListenerGetsItsLogs | packages/sdk/src/contracts/ChainEventPoller.ts:112-210 | over every run, without such overloads, a listener has received its logs up to the cursor once each, in chain order, and nothing else |
| ChainEventPollers.ListenerHasItsLogs | packages/sdk/src/contracts/ChainEventPoller.ts:113-206 | and then every listener has received all of its logs up to that block, in order |
| ChainEventPollers.DeliveredInTurn | packages/sdk/src/contracts/ChainEventPoller.ts:191-199 | one log is delivered to one listener after the other |
| ChainEventPollers.AsksTooMuchIff | packages/sdk/src/contracts/ChainEventPoller.ts:131-158 | the filter asks for logs of nobody if and only if some registered address and topic were never registered together |
| ChainEventPollers.ChainEventPoller.WithProvider | packages/sdk/src/contracts/ChainEventPoller.ts:56-73 | the loop ends at the first reply that is not its provider's failure, with the block number of that same provider, and the health record has one judgement for every provider asked |
| ChainEventPollers.AskedExactly | packages/sdk/src/contracts/ChainEventPoller.ts:56-73 | providers are asked up to the decisive reply, which is not a failure of its provider while all before it are; without one all are asked |
| ChainEventPollers.JudgedByOwnReply | packages/sdk/src/contracts/ChainEventPoller.ts:56-73 | each provider asked is judged once, by its own reply: the decisive one a success even if it reports an error, the others a failure at their time, and nobody else is judged |
| ChainEventPollers.ChainEventPoller.FindEvents | packages/sdk/src/contracts/ChainEventPoller.ts:165-181 | the loop keeps the logs that some listener is registered for, in order |
| ChainEventPollers.ChainEventPoller.DeliverEvents | packages/sdk/src/contracts/ChainEventPoller.ts:191-199 | the loops deliver each event to the listeners of its contract and name |
| ChainEventPollers.ChainEventPoller.Poll | packages/sdk/src/contracts/ChainEventPoller.ts:113-210 | one poll makes the step that `PollExactly` and `FailedPollExactly` describe, and judges the providers asked |
| AirportClustering.CollectCountries | packages/cdn-location/data-generation/generateIataToRegionNumberMapping.ts:51-54 | exactly the countries there are, each once, in the order in which they appear first |
| AirportClustering.FindClusters | packages/cdn-location/data-generation/generateIataToRegionNumberMapping.ts:60-94 | the clusters are the maximal runs of the country, all of them, from left to right |
| AirportClustering.SortRanks | packages/cdn-location/data-generation/generateIataToRegionNumberMapping.ts:96-100 | the sort puts the larger cluster first and of two equal ones the earlier |
| AirportClustering.SkipClusters | packages/cdn-location/data-generation/generateIataToRegionNumberMapping.ts:120-130 | the index jumps pass exactly one run of the country, or nothing |
| AirportClustering.Rebuild | packages/cdn-location/data-generation/generateIataToRegionNumberMapping.ts:112-135 | the copying loop puts the gathered rows where the first cluster was and keeps all others in order |
| AirportClustering.PassPermutes | packages/cdn-location/data-generation/generateIataToRegionNumberMapping.ts:112-135 | a pass permutes the rows |
| AirportClustering.PassGathers | packages/cdn-location/data-generation/generateIataToRegionNumberMapping.ts:112-135 | after a pass its country is contiguous |
| AirportClustering.PassKeeps | packages/cdn-location/data-generation/generateIataToRegionNumberMapping.ts:112-135 | a pass keeps every other contiguous country contiguous |
| AirportClustering.PassKeepsOrder | packages/cdn-location/data-generation/generateIataToRegionNumberMapping.ts:114-134 | a pass keeps the order of all other rows |
| AirportClustering.GatherCountry | packages/cdn-location/data-generation/generateIataToRegionNumberMapping.ts:58-136 | one pass: the country's runs, largest first and of equal ones the earlier, stand where the first of them was, and nothing else has moved; it permutes the rows, makes the country contiguous and keeps all others so |
| AirportClustering.GatheringIsUnique | packages/cdn-location/data-generation/generateIataToRegionNumberMapping.ts:58-136 | there is one way only to gather a country like that |
| AirportClustering.ClusterByCountry | packages/cdn-location/data-generation/generateIataToRegionNumberMapping.ts:58-136 | the loop over all countries gathers one after the other, in the order in which they appear first, and outputs a permutation in which every country is contiguous |
| AirportClustering.SortRotates | packages/cdn-location/data-generation/generateIataToRegionNumberMapping.ts:159-161 | sorting by the running count rotates the rows |
| AirportClustering.CountFrom | packages/cdn-location/data-generation/generateIataToRegionNumberMapping.ts:148-157 | the two loops count from the JFK row to the end and on from the start |
| AirportClustering.Times100 | packages/cdn-location/data-generation/generateIataToRegionNumberMapping.ts:165-167 | every number is scaled by 100 and nothing else changes |
| AirportClustering.NumberFromJfk | packages/cdn-location/data-generation/generateIataToRegionNumberMapping.ts:140-167 | the rows are rotated to the first JFK row and numbered 100, 200, ..., 100·n with JFK at 100; it fails exactly if there is no JFK row |
| AirportClustering.RotationKeepsCountries | packages/cdn-location/data-generation/generateIataToRegionNumberMapping.ts:138-161 | the rotation keeps a country contiguous if and only if it does not cut through it, or there is no other country |
| AirportClustering.JfkSplitsItsCountry | packages/cdn-location/data-generation/generateIataToRegionNumberMapping.ts:138-161 | three rows of which the rotation splits JFK's country |
| ProxyNodeFinders.ResumeKeeps | packages/sdk/src/ProxyNodeFinder.ts:64-97 | a worker's step keeps: every operator taken has replied or is waited for by one worker, the found nodes are of different operators that gave them, the signal is given exactly when enough are found |
| ProxyNodeFinders.EveryWorkerStarts | packages/sdk/src/ProxyNodeFinder.ts:45-67 | thanks to the early check every worker begins with an operator of its own |
| ProxyNodeFinders.NoneAskedTwice | packages/sdk/src/ProxyNodeFinder.ts:63-67 | in every interleaving the operators asked are a prefix of the list, none twice |
| ProxyNodeFinders.ResultIsFinal | packages/sdk/src/ProxyNodeFinder.ts:72-87 | what workers hear after the race never changes the result |
| ProxyNodeFinders.ConcludesRightly | packages/sdk/src/ProxyNodeFinder.ts:99-111 | when the race is over the result is n nodes of n different operators, or fewer than n gave nodes and all operators have replied |
| ProxyNodeFinders.FoundExactly | packages/sdk/src/ProxyNodeFinder.ts:69-87 | over every run what has been found are the first n of the nodes sampled from the replies that had any, in the order of the replies |
| ProxyNodeFinders.AsksExactly | packages/sdk/src/ProxyNodeFinder.ts:64-67 | after a reply its worker asks the next operator of the list if there is one and more nodes are wanted, and else ends |
| ProxyNodeFinders.SearchEnds | packages/sdk/src/ProxyNodeFinder.ts:64-97 | a search takes at most as many replies as there are operators |
| ProxyNodeFinders.ProxySearch.constructor | packages/sdk/src/ProxyNodeFinder.ts:99-105 | the loop starts the workers one after the other |
| ProxyNodeFinders.ProxySearch.LoopHead | packages/sdk/src/ProxyNodeFinder.ts:65-67 | a worker takes the next operator, or ends |
| ProxyNodeFinders.ProxySearch.OnReply | packages/sdk/src/ProxyNodeFinder.ts:69-96 | a reply adds the sampled node, if it had any and not enough are found, and signals when enough are |
| ProxyNodeFinders.ProxySearch.Conclusion | packages/sdk/src/ProxyNodeFinder.ts:107-111 | the nodes if there are enough, else an error with their number |
| ProxyNodeFinders.Begin | packages/sdk/src/ProxyNodeFinder.ts:44-48 | with fewer operators than proxies wanted it gives up without asking any |
| Gates.Gate.Open | packages/utils/src/Gate.ts:16-35 | an open gate stays open; opening a closed one releases all who wait, once |
| Gates.Gate.Close | packages/utils/src/Gate.ts:20-22 | closing a closed gate keeps the promise others wait for |
| Gates.Gate.WaitUntilOpen | packages/utils/src/Gate.ts:37-41 | one waits exactly if the gate is closed |
| TheGraphClients.StepKeeps | packages/utils/src/TheGraphClient.ts:156-208 | every event keeps: each gate in the set is closed, with a target above the last seen block, and a polling loop is alive while there are gates |
| TheGraphClients.ReachableValid | packages/utils/src/TheGraphClient.ts:156-208 | that holds in every reachable state |
| TheGraphClients.PollReleasesExactly | packages/utils/src/TheGraphClient.ts:192-202 | a poll lets pass exactly the waiting queries whose block it has reached, although an unchanged number is not compared with any gate |
| TheGraphClients.SentOnlyWhenIndexed | packages/utils/src/TheGraphClient.ts:48-51 | over every run a query is sent only after a poll reported a block at least as large as each number given before it began |
| TheGraphClients.TargetIsLargest | packages/utils/src/TheGraphClient.ts:48-81 | over every run the block a query needs is the largest of 0 and all numbers given to `updateRequiredBlockNumber` before it began |
| TheGraphClients.WaitsExactly | packages/utils/src/TheGraphClient.ts:156-202 | over every run a query passes at once if the last block number reported is that large, and else at the first later poll that reports one so large; it waits exactly until then unless it times out |
| TheGraphClients.NoStall | packages/utils/src/TheGraphClient.ts:189-208 | while a query waits some loop will poll, and a poll that reports its block lets it pass |
| TheGraphClients.LoopsEnd | packages/utils/src/TheGraphClient.ts:191-208 | with no gates left every loop ends at its next step |
| TheGraphClients.OneLoopExactly | packages/utils/src/TheGraphClient.ts:176-191 | over every run there is at most one polling loop if and only if no query has to wait, finding no gates, between a timeout that took the last gate and the next poll or waking of the loop left over |
| TheGraphClients.OneLoopWithoutTimeouts | packages/utils/src/TheGraphClient.ts:168-208 | without timeouts there is at most one loop, and none without gates |
| TheGraphClients.BlockNumberFallsExactly | packages/utils/src/TheGraphClient.ts:192-194 | the seen block falls exactly when a poll reports a smaller one |
| TheGraphClients.TwoLoops | packages/utils/src/TheGraphClient.ts:168-187 | a run with two loops at once |
| TheGraphClients.IndexingState.WaitUntilIndexed | packages/utils/src/TheGraphClient.ts:156-187 | a query passes or gets a closed gate, and the first gate starts a loop; what it waits for is in `TargetIsLargest` and `WaitsExactly` |
| TheGraphClients.IndexingState.OpenReachedGates | packages/utils/src/TheGraphClient.ts:196-201 | the loop opens and removes exactly the gates that are reached |
| TheGraphClients.IndexingState.OnPolled | packages/utils/src/TheGraphClient.ts:191-206 | one round of polling makes the step |
| TheGraphClients.IndexingState.UpdateRequiredBlockNumber | packages/utils/src/TheGraphClient.ts:79-81 | the required block is the largest number given |
| TheGraphClients.IndexingState.OnTimeout | packages/utils/src/TheGraphClient.ts:168-173 | the gate of a query that timed out is removed |
| TheGraphClients.IndexingState.OnWoke | packages/utils/src/TheGraphClient.ts:203-206 | a loop goes on exactly if there are gates |
| TheGraphClients.IndexingState.SendQuery | packages/utils/src/TheGraphClient.ts:48-51 | a query is sent after it has passed its gate |
| TheGraphClients.PageContinues | packages/utils/src/TheGraphClient.ts:69-73 | the page after the last id of k rows is the next rows of the table |
| TheGraphClients.QueryEntities | packages/utils/src/TheGraphClient.ts:53-77 | the loop yields every row of the table once and in order, in floor(n/pageSize)+1 queries, and fails for page size zero |
| FrameDecoder.DecodeAppend | packages/utils/src/lengthPrefixedFrameUtils.ts:23-46 | decoding some bytes first and the rest later is decoding them at once |
| FrameDecoder.DecodeEncode | packages/utils/src/lengthPrefixedFrameUtils.ts:10-46 | decoding the frames of any payloads below 2^32 bytes gives the payloads and an empty buffer |
| FrameDecoder.EncodeDecode | packages/utils/src/lengthPrefixedFrameUtils.ts:33-46 | of any bytes, the frames of what is decoded and the rest are the bytes |
| FrameDecoder.PrefixDecodesToPrefix | packages/utils/src/lengthPrefixedFrameUtils.ts:23-46 | of a prefix of the bytes a prefix of the payloads is decoded |
| FrameDecoder.HeaderRoundTrip | packages/utils/src/lengthPrefixedFrameUtils.ts:10-14 | a written length is read back |
| FrameDecoder.WriteInvertsRead | packages/utils/src/lengthPrefixedFrameUtils.ts:33-37 | a read length is written back |
| FrameDecoder.BigEndianIsOrdered | packages/utils/src/lengthPrefixedFrameUtils.ts:10-14 | a header has four bytes, and headers are ordered, byte by byte, as their numbers are |
| FrameDecoder.ToFrame | packages/utils/src/lengthPrefixedFrameUtils.ts:10-14 | a payload has a frame exactly if its length fits 32 bits |
| FrameDecoder.LengthPrefixedFrameDecoder.Transform | packages/utils/src/lengthPrefixedFrameUtils.ts:23-26 | a chunk makes it emit the complete frames of buffer and chunk, and keep the rest |
| FrameDecoder.LengthPrefixedFrameDecoder.ProcessStreamData | packages/utils/src/lengthPrefixedFrameUtils.ts:33-46 | the loop emits the complete frames in order and keeps the rest |
| FrameDecoder.LengthPrefixedFrameDecoder.Consume | packages/utils/src/lengthPrefixedFrameUtils.ts:23-31 | a whole stream, however split, is decoded like its concatenation |
| FrameDecoder.DecodeStream | packages/utils/src/lengthPrefixedFrameUtils.ts:10-46 | frames in any split into chunks come out as the payloads, with an empty buffer |
| Metrics.StepKeeps | packages/utils/src/Metric.ts:216-239 | every event keeps: due times are multiples of the interval, a sampler has summed what was recorded since it started, a report amounts to what its samplers summed |
| Metrics.TickTimes | packages/utils/src/scheduleAtFixedRate.ts:15-28 | tick times are multiples of the interval and grow by at least the interval |
| Metrics.SkippedHadCome | packages/utils/src/scheduleAtFixedRate.ts:17-28 | a due time between two ticks is skipped only because it had come when it was to be scheduled |
| Metrics.FirstTick | packages/utils/src/scheduleAtFixedRate.ts:15-28 | the first tick is after the start, and a due time before it was skipped only because it had come |
| Metrics.TickWasAhead | packages/utils/src/scheduleAtFixedRate.ts:20-25 | every tick was still ahead when the clock was read for it |
| Metrics.EveryValueReportedOnce | packages/utils/src/Metric.ts:209-240 | over every run: between two ticks the recorded values of a metric are, one after the other, those of the reports, so counts, and rates times the sampled time, sum to what was recorded, and the sampled times fill the time between the ticks |
| Metrics.TickReports | packages/utils/src/Metric.ts:154-181 | a tick reports every running sampler, with what was recorded on it |
| Metrics.TickExactly | packages/utils/src/Metric.ts:216-239 | a tick makes a report exactly if something was sampled, of exactly the sampled metrics, and starts to sample all |
| Metrics.OneReportPerTick | packages/utils/src/Metric.ts:216-239 | over every run: of two successive ticks the second makes one report, at its time and of the metrics there were at the first, and none if there were none |
| Metrics.FirstTickReportsNothing | packages/utils/src/Metric.ts:218-234 | over every run the first tick makes no report |
| Metrics.MetricsContext.AddMetric | packages/utils/src/Metric.ts:199-207 | a name can be added once |
| Metrics.MetricsContext.RecordValue | packages/utils/src/Metric.ts:46-49 | a value goes into the running sampler of its metric only |
| Metrics.MetricsContext.ScheduleNext | packages/utils/src/scheduleAtFixedRate.ts:17-28 | the due time advances by the interval, and is armed if it is ahead |
| Metrics.MetricsContext.OnTick | packages/utils/src/Metric.ts:216-239 | the loops report all running samplers and start one for each metric |
| EventGateways.StepKeeps | packages/utils/src/initEventGateway.ts:16-32 | every event keeps: with listeners the producer runs, without it runs only while a `once` callback does, and `start` and `stop` alternate |
| EventGateways.RunsWhileListenedTo | packages/utils/src/initEventGateway.ts:4-32 | over every run, nested emissions included, `start` and `stop` alternate, and when nothing is emitted the producer runs if and only if there are listeners |
| EventGateways.NeedsAProducer | packages/utils/src/initEventGateway.ts:18-29 | that promise holds in all runs if and only if `start` returns something other than undefined |
| EventGateways.OffSparesOnce | packages/utils/src/ObservableEventEmitter.ts:23-35 | `off` removes all copies of a listener added by `on` and nothing else, in particular nothing added by `once` |
| EventGateways.CalledPerEmission | packages/utils/src/ObservableEventEmitter.ts:23-47 | over every run, calls made and calls still due by emissions under way are together the emissions that began while a `once` listener was registered |
| EventGateways.CalledPerCopy | packages/utils/src/ObservableEventEmitter.ts:18-47 | and for any listener: calls made and still due are one for each copy registered when an emission began |
| EventGateways.CalledInOrder | packages/utils/src/ObservableEventEmitter.ts:45-47 | over every run: an emission during which no other begins calls the listeners there were at its beginning, each entry once and in order |
| EventGateways.OrderIsKept | packages/utils/src/ObservableEventEmitter.ts:18-47 | over every event: listeners are added last, and those that stay keep their order |
| EventGateways.PlainExactly | packages/utils/src/ObservableEventEmitter.ts:18-43 | over every run: a listener given to `on` is registered as often as it was added since the last `off` for it or removal of all |
| EventGateways.OnceExactly | packages/utils/src/ObservableEventEmitter.ts:23-43 | over every run: a listener given to `once` is registered until it is called or all are removed, and not after that |
| EventGateways.OnceMeansOnce | packages/utils/src/ObservableEventEmitter.ts:23-47 | over every run that ends with no emission under way, a `once` listener was called exactly as often as an emission began while it was registered, so at most once if and only if at most one did |
| EventGateways.OnceWithoutNesting | packages/utils/src/ObservableEventEmitter.ts:23-30 | where no listener emits, each `once` listener is called at most once |
| EventGateways.NestedCallsTwice | packages/utils/src/ObservableEventEmitter.ts:23-47 | a listener that emits again lets a later `once` listener run twice |
| EventGateways.EventGateway.constructor | packages/utils/src/initEventGateway.ts:30-32 | a gateway over an emitter with listeners starts at once |
| EventGateways.EventGateway.AddListener | packages/utils/src/ObservableEventEmitter.ts:18-21 | the listener is added last, and the producer starts if it did not run |
| EventGateways.EventGateway.AddOnce | packages/utils/src/ObservableEventEmitter.ts:23-30 | a wrapper of its own is registered, and the observer told |
| EventGateways.EventGateway.RemoveListener | packages/utils/src/ObservableEventEmitter.ts:32-35 | the listener goes, and the producer stops if it was the last |
| EventGateways.EventGateway.RemoveAllListeners | packages/utils/src/ObservableEventEmitter.ts:37-43 | all go, and observers hear of it only if there were any |
| EventGateways.EventGateway.BeginEmit | packages/utils/src/ObservableEventEmitter.ts:45-47 | an emission is due to the listeners there are when it begins |
| EventGateways.EventGateway.CallNextListener | packages/utils/src/ObservableEventEmitter.ts:45-47 | the next of them is called, one of `once` after its removal |
| EventGateways.EventGateway.ReturnFromListener | packages/utils/src/ObservableEventEmitter.ts:24-27 | a `once` wrapper tells the observer after its listener has returned |
| TtlMaps.StepKeeps | packages/utils/src/MapWithTtl.ts:14-69 | every event keeps: each entry has exactly one live timer and each live timer an entry |
| TtlMaps.TimerRemovesItsOwn | packages/utils/src/MapWithTtl.ts:65-69 | a timer removes the entry it was made for, never a newer one |
| TtlMaps.SetReplacesTimer | packages/utils/src/MapWithTtl.ts:14-23 | setting a value leaves its key with the new timer only |
| TtlMaps.RunRefines | packages/utils/src/MapWithTtl.ts:14-69 | over every run the map holds what a reference without timers keeps, as long as it is young enough |
| TtlMaps.GetIsExact | packages/utils/src/MapWithTtl.ts:25-28 | `get` gives the value set last and not deleted if it is younger than its time to live, and nothing if it is older or there is none |
| TtlMaps.MapWithTtl.SetEntry | packages/utils/src/MapWithTtl.ts:14-23 | the old timer is cleared, the new entry has its own |
| TtlMaps.MapWithTtl.DeleteEntry | packages/utils/src/MapWithTtl.ts:34-40 | entry and timer go together |
| TtlMaps.MapWithTtl.ClearEntries | packages/utils/src/MapWithTtl.ts:42-47 | the loop clears the timer of every entry |
| TtlMaps.MapWithTtl.OnTimer | packages/utils/src/MapWithTtl.ts:65-69 | a timer deletes what its key has by then |
| ERC1271.KeyDetermines | packages/sdk/src/contracts/ERC1271ContractFacade.ts:24-26 | the key determines the contract and the signer |
| ERC1271.StepKeepsValid | packages/sdk/src/contracts/ERC1271ContractFacade.ts:51-73 | every event keeps: what is cached is an answer of the chain given when its timer started, what was returned is a fresh answer |
| ERC1271.VerdictsAreFresh | packages/sdk/src/contracts/ERC1271ContractFacade.ts:51-73 | over every run of concurrent calls a returned verdict is what the chain answered for that contract and signer, at most 10 minutes ago if positive and 20 seconds ago if negative |
| ERC1271.AnswersAreTheChains | packages/sdk/src/contracts/ERC1271ContractFacade.ts:58-71 | each such answer is the result of a question asked, positive exactly for the magic value of ERC-1271 |
| ERC1271.KeptIsLastAnswer | packages/sdk/src/contracts/ERC1271ContractFacade.ts:58-71 | over every run, what is kept for a key is the last answer of the chain to a question with that key |
| ERC1271.KeptExactly | packages/sdk/src/contracts/ERC1271ContractFacade.ts:58-71 | over every run it is kept until it is too old, ten minutes after an approval and 20 seconds after a denial, and no longer |
| ERC1271.AskIsExact | packages/sdk/src/contracts/ERC1271ContractFacade.ts:51-61 | a call asks the chain about its payload if and only if nothing is kept for its contract and signer; else its verdict repeats the last answer for them, which was about its payload if and only if that was asked about the same payload |
| ERC1271.AnswerIsOwn | packages/sdk/src/contracts/ERC1271ContractFacade.ts:69-71 | the answer to a waiting call becomes that call's own verdict |
| ERC1271.FailureIsNotKept | packages/sdk/src/contracts/ERC1271ContractFacade.ts:62-68 | over every run a failure of the chain leaves the cache as it is, and whatever is kept then is the answer of an earlier step |
| ERC1271.OtherPayloads | packages/sdk/src/contracts/ERC1271ContractFacade.ts:24-56 | a run in which a verdict given about one payload is returned for another of the signer |
| ERC1271.ERC1271ContractFacade.IsValidSignature | packages/sdk/src/contracts/ERC1271ContractFacade.ts:51-58 | a kept verdict is returned at once, else the call waits for the chain |
| ERC1271.ERC1271ContractFacade.OnResult | packages/sdk/src/contracts/ERC1271ContractFacade.ts:69-71 | the answer is cached and returned |
| ERC1271.ERC1271ContractFacade.OnFailure | packages/sdk/src/contracts/ERC1271ContractFacade.ts:62-68 | a failure is thrown and leaves the cache alone |

## Left out

- ConnectionManagers.ConnectionManager.BeginStop: the graceful disconnect of established connections and the shutdown of the connectors are not modelled.
- ConnectionManagers.ConnectionManager.Close: the transport of an established connection is foreign; its end is the event of `OnManagedClosed`.
- Pending, established and buffer objects of the manager are records in its fields, named by their transport connection, so that aliasing is not captured; the classes of `ConnectionParts.dfy` are proved against the same functions.
- The connectors are not part of this model; they may offer any connection to a peer, fresh or handed out before. Nor are connection locks, private mode, metrics and garbage collection.
- ConnectionManagers.ConnectionManager.FinishStop: the clearing of the connection locks, the duplicate detector and the listeners is not modelled.
- ConnectionManagers.ConnectionManager.OnHandshakeResponse: handshake messages are given as parsed version and error; encoding and the sending of responses are left out.
- SimultaneousDial.EveryRunAgrees: transports lose nothing, no timeout fires and no established connection ends, as the property assumes.
- Rpc.RpcCommunicator.OnOutgoingMessage: the header, status and trailer promises settle with the message's and are not kept apart.
- Server-side deadlines and the server's method registry are the parameter `Handled`; a server that stops while it handles a request simply sends nothing.
- FailoverProviders: quorums other than 1 and broadcast transactions are delegated by the source to its library; raw values thrown that are no `Error` are not told apart.
- ProviderHealths.ProviderHealth.Order: the random draws are inputs; how they are distributed is not modelled.
- ChainEventPollers: the listener set is fixed, listeners do not throw, logs decode, there are no reorganisations, and starting, stopping and the first block number query are left out.
- ChainEventPollers.ChainEventPoller.Poll: the order of providers is any order, as the health record gives it.
- Airports: reading and writing files, the travelling-salesman tour and the first sort by it.
- ProxyNodeFinders.Begin: stream ids, the registry query and the shuffle give the list of operators, in any order; which node is sampled is an input.
- TheGraphClients.IndexingState.WaitUntilIndexed: a gate is a flag of its query; `Gate.dfy` models the class itself.
- TheGraphClients.QueryEntities: the table does not change while it is read, and failing requests are left out.
- Metrics: average and level samplers, number formatting and the `period` label of reports.
- EventGateways: one event name, listeners that do not throw, and a `start` that does not emit by itself.
- ERC1271.ERC1271ContractFacade.IsValidSignature: the recovered signer is an input; failing recovery throws before anything is looked up.
- Browser and Node transports, the DHT itself, storage, command line tools and configuration are not modelled.
