# Gateway verification

A Dafny model of the Aethernet gateway, with proofs of what it keeps over every run. Three parts are modelled:

1. **The session and routing core** (`libs/gateway`). A device's packet opens, or finds, a session in a table keyed by
   device, client and server identity. A session buffers what it is given until a get-action has found a server stream
   for it: in a weak cache, in Aether's server table, or by asking a resolver. Replies fan out to all sessions that
   share a stream. The whole is one state machine (`GatewayModel`), and the theorems hold in every state that any
   sequence of its events reaches.
2. **The device side** (`simulator/sim-gateway`). A bus gives devices their ids and carries packets both ways; ports
   join it to the gateway; a channel builds transports to a server. Put together with part 1 they give end-to-end
   delivery theorems (`EndToEnd`).
3. **The LR02 driver** (`src/lora_gateways`). Operations are queued, and each is a pipeline that enters the AT mode,
   sends commands and leaves the AT mode, sharing one flag. Any request may fail.

Each part has a specification made of functions, theorems about runs of it, and classes that are changed in place
(`GatewayObjects`, `SimObjects`, `SimulationObjects`, `ChannelObjects`, `LoraObjects`). Every method of a class is proved
to do to the view of the object exactly what the function of the same name does; the table below lists only those with a
loop or a run. `HandleAll` is proved to be a run, and a `Simulation` of devices, ports, bus and gateway records the run
that led to its state, so the theorems about runs hold of the objects.

Verify everything with `dafny verify dfyconfig.toml`.

## Reading order

| file | content |
|---|---|
| `Wire`, `Flatten` | values on the wire; the endpoint list of a server descriptor |
| `GatewayModel` | the state machine of the gateway |
| `GatewayInvariant`, `GatewaySteps` | the invariant, and that every event keeps it |
| `FanOut`, `Entries`, `Liveness` | what one event does: to the outputs, to one session, to the owners of streams |
| `Conservation`, `Outflow`, `Order`, `Isolation`, `CacheView`, `Sharing`, `Teardown`, `ResolveAction`, `Resolution`, `Progress`, `Agreement`, `RightServer`, `Collisions`, `Cloud` | the theorems about the gateway |
| `BusModel`, `SystemModel`, `EndToEnd`, `Attachment`, `Uplink`, `Downlink`, `Channel` | the device side, the state machine of the whole, and the theorems about it |
| `LoraModel`, `LoraSessions`, `LoraRuns`, `LoraQueue` | the driver and its theorems |
| `GatewayObjects`, `SimObjects`, `SimulationObjects`, `ChannelObjects`, `LoraObjects` | the classes |
| `OwnCalls` | what the device objects of a simulation have received |

## What is assumed of Aether

The Aether library is not part of this model. The following is taken from it.

- A buffering stream keeps what is written to it in order. Once tied, it may pass its oldest item on at any time, one
  item per event; this covers flushing at once when it is tied as well as flushing later, when the link comes up.
- A data or link event of a server stream is delivered, as one atomic step, to those who listened when it came, in the
  order in which they began to listen.
- A weak pointer to a server stream has expired exactly when no stored session and no pending get-action holds the
  stream. A get-action lives until it reports.
- Assigning a state to an action's state machine marks it as changed, and the next update takes notice of it.
- Aether's server table only grows. Other parts of Aether may add servers to it at any time. A resolver that succeeds
  answers with at least one server, as the source asserts.
- The hash of endpoints is any function. Where the hash matters, the assumption is a precondition of the theorem.
- In the driver, queued jobs run one at a time in the order they were pushed; a pipeline stops at its first failed
  stage; a stage that starts another operation waits for it. Whether a stage that yields no action counts as done or as
  failed is a parameter, and the theorems say for which value they hold.
- In `LoraSessions.FlagTellsTheMode` the module changes its mode with exactly those toggles that it answers as expected.

Time, the answers of resolvers, modules and access points, and the moment each event happens are inputs of a run.

## What was found

Where the code does not meet what one would expect of it, a theorem states exactly when it does; and where only some runs
miss it, a concrete run does.

- `CacheStream` never replaces an entry, not even an expired one. Storing a stream then acts like a plain
  insert-if-absent if and only if no expired entry for the id is left (`CacheView.StoreIsPlainUnlessExpired`); a run in
  which one is left is `CacheView.ExpiredEntryBlocks`.
- Once a request for a server id completes, later lookups of the id return its stream if and only if the id was not
  cached by then (`Sharing.SharedExactlyWhen`). Requests that do not overlap meet this (`Sharing.SharedOnceResolved`); two
  that overlap do not (`Sharing.OverlapBreaksSharing`).
- A stream in link error is still what lookups return if and only if a pending get-action holds it
  (`Teardown.LinkErrorTearsDown`); a run that gets there is `Teardown.BrokenButHeld`. Such an action then ties its session
  to the broken stream, and only the session's next stream update erases it (`Teardown.StreamUpdateErases`,
  `Teardown.BrokenIsTied`).
- A failed resolution leaves its session in the table for good: it is never tied, and nothing sent under its key is ever
  passed on (`Teardown.StrandedForever`). A stored session is stranded if and only if its get-action reported an error
  (`Teardown.StrandedExactly`); a run that gets there is `Teardown.RefusedRunStrands`.
- The cache and Aether's table agree on an id if and only if the resolver's answer carries the id it was asked for
  (`Agreement.AgreementNeedsTheId`); a run in which they do not is `Agreement.OtherAnswerDisagrees`.
- What a client sends to a second server is passed on to its first one if and only if the identities of the two are equal
  (`Collisions.CollisionMisroutes`); for every hash there are two such servers (`Collisions.EveryHashMisroutes`).
- `Init` of the driver never completes, because it waits for operations queued behind itself
  (`LoraSessions.InitNeverSucceeds`). Operations are served if and only if a request of `Init` has failed or, where empty
  stages count as failed, `Init` came to a serial setting that has no command (`LoraRuns.ServedOnlyIfInitFailed`). If an
  empty stage counts as failed, no operation ever succeeds (`LoraRuns.NothingEverSucceeds`).
- The driver's AT flag is set when the toggle is handed out, not when it succeeds, so it tells the module's mode if and
  only if an even number of toggles has failed (`LoraSessions.FlagTellsTheMode`); a run in which a command is sent to a
  module that is not in AT mode is `LoraSessions.FlagMisleads`.

## Model

| member | source | states |
|---|---|---|
| GatewaySteps.Reachable | libs/gateway/local_port.cpp:73-144 | every state reached by any run satisfies the invariant: table entries agree with their sessions and keys, listeners are exactly the tied entries once each, pending actions belong to untied sessions, nothing is lost or reordered between a client and its stream, handles are valid, sessions opened by endpoints share nothing |
| GatewaySteps.StepKeeps | libs/gateway/local_port.cpp:93-144 | each single event keeps that invariant from any state satisfying it |
| Conservation.Conserved | libs/gateway/gw_stream.cpp:23-50 | what was sent under a key since its session was opened, read off the run, is what the session passed on followed by what it still buffers, in order, across resolution and tying |
| Conservation.Interleaved | libs/gateway/server_stream.cpp:20-31 | what a server stream received is an interleaving of beginnings of what its own sessions wrote, also of sessions that are gone; a session tied elsewhere contributed nothing |
| Conservation.LastUsedIs | libs/gateway/local_port.cpp:114-127 | the time of last use of an entry is the time of the latest input or output under its key since it was opened, read off the run |
| Conservation.LastUsedGrows | libs/gateway/local_port.cpp:114-127 | under a clock that never goes back the time of last use of a stored session never decreases |
| Outflow.SentCounts | libs/gateway/server_stream.cpp:20-31 | over any run the items that left a stream for its channel are as many as the sendings that found one left, never more than it received |
| Outflow.AllIsSent | libs/gateway/server_stream.cpp:20-31 | as many sendings as a stream has items left take all of them, and change nothing else |
| Order.ListenersInOrder | libs/gateway/local_port.cpp:105-111 | over any run the listeners of a stream stand in the order in which their sessions were tied to it |
| Order.RepliesInOrder | libs/gateway/local_port.cpp:105-132 | in every reachable state the outputs of one datum come in that order |
| FanOut.ExactFanOut | libs/gateway/local_port.cpp:105-132 | in every reachable state one datum on a server stream makes exactly one output per session tied to it, with that session's device and client, and none for anybody else |
| FanOut.ReplyIs | libs/gateway/local_port.cpp:118-132 | a datum changes the time of last use of exactly the tied sessions and nothing else but the outputs |
| FanOut.LinkErrorIs | libs/gateway/local_port.cpp:134-144 | a link error erases exactly the sessions tied to the stream and leaves all others as they are |
| FanOut.LinkHealthyIs | libs/gateway/local_port.cpp:134-144 | any other link change touches no session |
| FanOut.StreamEventFrame | libs/gateway/local_port.cpp:118-144 | replies and link changes tie nobody, write nothing and open no session |
| Entries.StepEntry | libs/gateway/local_port.cpp:93-132 | after any event an entry is the same session, with exactly the new item and time of use the event gives it, or one the event opened |
| Isolation.EndpointsAreIsolated | libs/gateway/server_stream_manager.cpp:159-166 | a stream opened by endpoints has one session only, is never in the cache, received nothing from another session, and a datum on it makes exactly one output |
| CacheView.RefinesPlainMap | libs/gateway/server_stream_manager.cpp:144-215 | over any run each event changes the live view of the cache like a plain map: entries whose stream died leave, the stream of a completing request for an id without an entry enters, nothing else changes |
| CacheView.PurgeKeepsView | libs/gateway/server_stream_manager.cpp:205-215 | purging leaves exactly the entries whose streams are alive afterwards, does not change the live view, and is idempotent |
| CacheView.LookupIsPlain | libs/gateway/server_stream_manager.cpp:144-157 | in every reachable state a session opened for an id joins the stream the plain map of live streams has for it, and no stream is made; if the map has none it is not tied and a request for the id is under way |
| CacheView.StoreIsPlainUnlessExpired | libs/gateway/server_stream_manager.cpp:200-203 | storing a resolved stream is insert-if-absent on the live view if and only if no expired entry for the id is left; live entries are never replaced |
| CacheView.ExpiredEntryBlocks | libs/gateway/server_stream_manager.cpp:200-203 | a concrete run in which a request completes for an id without a live entry and its stream is not stored, because an expired entry is left |
| Liveness.DeadStays | libs/gateway/server_stream_manager.cpp:205-215 | a stream that has lost its last owner is never owned again, over any run |
| Sharing.SharedOnceResolved | libs/gateway/server_stream_manager.cpp:87-157 | if requests for an id do not overlap, then once one completes every later lookup of the id returns the same stream for as long as it is alive |
| Sharing.SharedExactlyWhen | libs/gateway/server_stream_manager.cpp:87-157 | in every run, every later lookup of a completed request's id returns its stream while that is alive if and only if the id was not cached when it completed |
| Sharing.CachedWhileAlive | libs/gateway/server_stream_manager.cpp:144-157 | a cached stream stays what lookups of its id return, over any run at whose end it is alive |
| Sharing.CompletionCachedWhen | libs/gateway/server_stream_manager.cpp:121-125 | in every reachable state a completing request becomes the cached one if and only if its id was not cached |
| Sharing.OverlapBreaksSharing | libs/gateway/server_stream_manager.cpp:87-157 | a concrete run with two overlapping requests in which the second stream is returned by no lookup |
| Teardown.LinkErrorTearsDown | libs/gateway/local_port.cpp:134-144 | after a link error no session holds the stream; it is alive, and lookups still return it, exactly if a pending action holds it |
| Teardown.BrokenButHeld | libs/gateway/local_port.cpp:134-144 | a concrete run after which lookups return a stream in link error |
| Teardown.TornDownForGood | libs/gateway/local_port.cpp:134-144 | if no action holds it, the stream is never again held or returned by a lookup, over any later run |
| Teardown.StreamUpdateErases | libs/gateway/local_port.cpp:134-144 | in every reachable state the stream update of a stored session erases it if and only if the link of its stream, read off the run, was last set to an error: then just its entry and its listener go, and if it was the last to hold the stream no lookup of a later run returns the stream; in all other cases nothing changes |
| Teardown.BrokenIsTied | libs/gateway/local_port.cpp:109-144 | a concrete run that ties a session to a stream that is broken already, and the stream update that ends it |
| Teardown.StrandedForever | libs/gateway/gw_stream.cpp:23-31 | a stored session that is not tied and has no get-action keeps its key and passes nothing on, over any later run |
| Teardown.StrandedExactly | libs/gateway/gw_stream.cpp:23-31 | over any run a stored session is stranded if and only if its get-action has reported an error |
| Teardown.RefusedRunStrands | libs/gateway/server_stream_manager.cpp:127-127 | a concrete run that strands its session |
| Agreement.CacheAgreesWithAether | libs/gateway/server_stream_manager.cpp:87-129 | for a nonzero id whose resolver answers carry it, also with overlapping requests, the cached stream was built on the server Aether holds for the id |
| Agreement.AgreementNeedsTheId | libs/gateway/server_stream_manager.cpp:108-126 | one answer makes cache and Aether agree on the id if and only if it carries that id |
| Agreement.OtherAnswerDisagrees | libs/gateway/server_stream_manager.cpp:108-126 | a concrete run after which a stream to one server is cached for the id of another |
| Cloud.OneServerPerId | libs/gateway/server_stream_manager.cpp:168-190 | over any run the cloud has at most one server per nonzero id, the one Aether holds |
| Cloud.CloudGrowth | libs/gateway/server_stream_manager.cpp:168-190 | over any calls the cloud grows by the number of new nonzero ids plus the number of calls with id 0 |
| ResolveAction.OneOutcome | libs/gateway/server_stream_manager.cpp:63-129 | over any run an action reports at most once, never both result and error, makes at most one call of CacheStream, and none if it fails |
| ResolveAction.AtReport | libs/gateway/server_stream_manager.cpp:63-129 | a request that reports a result has called CacheStream exactly once, with its own id and the very stream it reports; one that reports an error has not called it; it has not reported before |
| ResolveAction.CallsAreOfActions | libs/gateway/server_stream_manager.cpp:87-129 | every call in the log of CacheStream calls of a run is the one call of some action |
| ResolveAction.OnlyActionsStore | libs/gateway/server_stream_manager.cpp:200-203 | no event but an update or an answer of an action calls CacheStream |
| ResolveAction.RankDecreases | libs/gateway/server_stream_manager.cpp:63-129 | over any run every change to an action lowers a rank of at most four, which ends with its destruction |
| Resolution.AnsweredServer | libs/gateway/server_stream_manager.cpp:108-126 | in every reachable state an answer gives the waiting request a stream on the server Aether holds for the answered id, or on a new server whose endpoints are the pairs of the answered addresses, each at its place and no others; over any later run the stream stays on that server and the server stays as it is |
| Resolution.AnswerTies | libs/gateway/server_stream_manager.cpp:108-126 | the next update of the answered request ties its session, alone, to that stream |
| Resolution.KnownServerTies | libs/gateway/server_stream_manager.cpp:87-97 | a request for a server Aether holds never asks the resolver: two updates tie its session, alone, to a new stream on that server |
| Resolution.UnknownServerAsks | libs/gateway/server_stream_manager.cpp:87-109 | a request for any other server waits for the resolver after two updates, and nothing else is different |
| Resolution.UnaskedAnswers | libs/gateway/server_stream_manager.cpp:108-128 | an answer or refusal that no request waits for changes nothing |
| Progress.SettlesInTime | libs/gateway/gw_stream.cpp:23-50 | over any run a session that is stored at its end and whose action did not report an error is tied and has passed everything on, once it had as many effective events of its own as its action had steps and its buffer items before, plus one for each packet for it in between |
| Progress.CanSettle | libs/gateway/server_stream_manager.cpp:63-129 | in every reachable state a stored session whose request was not refused can be tied and drained by at most that many events of its own and no others, without losing or adding an item |
| RightServer.KeysRebuild | libs/gateway/local_port.cpp:52-68 | over any run and for any hash, rebuilding the key from an entry's device, client and stored server gives the entry's own key, whose number is the id or the low 32 bits of the hash of all endpoints |
| RightServer.TableIsKeyedByServer | libs/gateway/local_port.cpp:83-116 | with different identities for the servers in use, the entry under the key of a device, client and server was opened for that server |
| RightServer.ReachesTheRightServer | libs/gateway/local_port.cpp:83-116 | and if resolvers answer what they were asked, every item a stream received asked for the server the stream is built on |
| RightServer.IdsNeedNoHash | libs/gateway/local_port.cpp:52-63 | runs that name servers only by id meet the condition whatever the hash is |
| Collisions.PacketsShare | libs/gateway/local_port.cpp:52-116 | in every reachable state any two packets are each written to exactly one session, and to the same one if and only if device, client and the number of the server are equal |
| Collisions.CollisionShares | libs/gateway/local_port.cpp:52-116 | from any state, two packets of one client that find no session are buffered in one new session if and only if their servers have the same number: equal ids, equal low halves of the hashes of all endpoints, or an id equal to such a half |
| Collisions.CollisionMisroutes | libs/gateway/local_port.cpp:52-116 | in a whole run the server of the first request receives the second if and only if those numbers are equal |
| Collisions.EveryHashMisroutes | libs/gateway/local_port.cpp:52-63 | for every hash there is a run in which a stream receives an item whose server it is not built on |
| RightServer.KeyOrderIsTotal | libs/gateway/local_port.cpp:65-68 | the order of keys is a strict total order, so the table tells two keys apart exactly when they differ |
| Flatten.CollectEndpoints | libs/gateway/server_stream_manager.cpp:112-119 | the nested loops give the concatenation of the addresses' endpoints |
| Flatten.EndpointAt | libs/gateway/server_stream_manager.cpp:112-119 | the j-th pair of address i stands at the sum of the pair counts before i, plus j, and there is one endpoint per pair |
| BusModel.IdsNeverCollide | simulator/sim-gateway/gw-sim-data-bus.cpp:39-65 | ids handed out are strictly increasing within 1..254, the next is not in use, and a live id leads to the device it was given to |
| BusModel.RemoveFirstIs | simulator/sim-gateway/gw-sim-data-bus.cpp:53-59 | removing a gateway listener takes out its first occurrence and keeps the others in order |
| BusModel.RemoveAbsent | simulator/sim-gateway/gw-sim-data-bus.cpp:53-59 | removing a listener that is not there changes nothing |
| BusModel.PushesAre | simulator/sim-gateway/gw-sim-data-bus.cpp:24-29 | the calls of one publication are, index by index, the listeners with the packet |
| BusModel.ListenersAre | simulator/sim-gateway/gw-sim-data-bus.cpp:49-59 | over any run a new listener joins behind the others, a removal takes out the first occurrence, nothing else changes them, and each port listens as often as it was registered less the removals that found it |
| BusModel.RemovedForGood | simulator/sim-gateway/gw-sim-data-bus.cpp:39-47 | an id that was removed leads nowhere to the end of any run |
| Attachment.DevicesAre | simulator/sim-gateway/gw-sim-device.cpp:32-42 | over any run, told from its events, the n-th device constructed has the id n, and a device is registered exactly from its construction to its destruction |
| Attachment.PortsAre | simulator/sim-gateway/gw-sim-data-bus.cpp:49-59 | over any run a port is a listener as often as it was created less the destructions that found it |
| Attachment.PortsNumber | simulator/sim-gateway/gw-sim-data-bus.cpp:49-59 | and the bus has as many listeners as ports are attached |
| Attachment.PortsInOrder | simulator/sim-gateway/gw-sim-data-bus.cpp:49-51 | with no port destroyed the listeners are the ports created, in order |
| Attachment.SendJoins | simulator/sim-gateway/gw-sim-device.cpp:44-72 | over any run, told from its events, what the n-th device sends joins the session of id n, the client and the server's number once per attached port if the device is still there, and nothing happens if it is not |
| EndToEnd.NoMisdelivery | simulator/sim-gateway/gw-sim-data-bus.cpp:31-47 | over any run of devices, ports and gateway a device only receives calls of sessions it opened itself, under its own id, for the client it named |
| EndToEnd.ExactDelivery | simulator/sim-gateway/gw-sim-device-port.cpp:22-32 | one datum is delivered once by each port to the device of each tied session if that device is still there, is dropped if it is gone, and reaches nobody else; every delivery it makes carries that very datum |
| EndToEnd.SendReachesSession | simulator/sim-gateway/gw-sim-device.cpp:44-72 | what a registered device sends joins the session under its id, client and server once per port; a device that is gone sends nothing |
| EndToEnd.EachPortForwards | simulator/sim-gateway/gw-sim-device-port.cpp:38-42 | a published packet joins the session under its key once per gateway listener |
| EndToEnd.GatewayRuns | simulator/sim-gateway/gw-sim-device-port.cpp:22-42 | the gateway inside any run of the whole does exactly the run that the system's events are for it |
| Uplink.UplinkConserved | simulator/sim-gateway/gw-sim-device.cpp:44-72 | over any run of the whole, what the device that opened a stored session has sent under its key since, once per port, is what its stream received from it followed by what it buffers |
| Uplink.ReceivedWasSent | simulator/sim-gateway/gw-sim-device.cpp:44-72 | every item a server stream received was sent by the device that opened its session, under that session's key, while the device was registered |
| Downlink.DownlinkConserved | simulator/sim-gateway/gw-sim-device-port.cpp:22-32 | over any run of the whole, for each session: the calls delivered from it are, in order and once per port, what its stream replied while the session was stored and tied and its device registered, and all of them went to the device that opened the session |
| Downlink.DeliveriesInOrder | simulator/sim-gateway/gw-sim-device-port.cpp:22-32 | in every reachable state the deliveries of one datum come in the order in which their sessions were tied to the stream |
| Channel.OneOutcome | simulator/sim-gateway/gw-sim-channel.cpp:44-73 | a build reports at most once: a result only after the access point joined, an error only after it refused |
| Channel.ReportsWhenDue | simulator/sim-gateway/gw-sim-channel.cpp:44-87 | over any run, told from its events: a build reports a result with the second update after the access point joined, an error with the first after it refused, and nothing else; the transport names the server by id, or by endpoints if the id is 0, from the update after the joining until it is taken |
| Channel.ResultHasTransport | simulator/sim-gateway/gw-sim-channel.cpp:75-87 | when a result is reported the transport is there and names the server of the channel |
| Channel.RankDecreases | simulator/sim-gateway/gw-sim-channel.cpp:44-87 | every event that changes the state of a build lowers a rank of at most four |
| Channel.ThroughTheChannel | simulator/sim-gateway/gw-sim-channel.cpp:75-87 | over any run of the whole, if a device sends only through the transport a channel's build has reported, every item its sessions passed on reached a server with the channel's id, and without an id with its endpoints |
| LoraSessions.SessionDiscipline | src/lora_gateways/dx_smart_lr02_gw.cpp:633-655 | over any run with any failures the flag is the parity of the toggles handed out, and every AT command lies inside a session |
| LoraSessions.FlagTellsTheMode | src/lora_gateways/dx_smart_lr02_gw.cpp:633-655 | the flag tells the module's mode, and a command finds the module in AT mode, if and only if an even number of toggles failed before |
| LoraSessions.FlagMisleads | src/lora_gateways/dx_smart_lr02_gw.cpp:633-655 | a concrete run in which a command is sent to a module outside AT mode while the flag is set |
| LoraSessions.InitNeverSucceeds | src/lora_gateways/dx_smart_lr02_gw.cpp:503-530 | over any run Init never completes and never counts as successful |
| LoraSessions.BlockedForever | src/lora_gateways/dx_smart_lr02_gw.cpp:513-514 | once a job waits for one queued behind it nothing is sent or finished any more |
| LoraQueue.QueueFollows | src/lora_gateways/dx_smart_lr02_gw.cpp:503-530 | over any run with any answers the queue is Init followed by the operations pushed, in order, without those for a channel out of range, and the power-save operation of the settings where Init queued it |
| LoraQueue.InitSends | src/lora_gateways/dx_smart_lr02_gw.cpp:503-530 | until Init is over what was sent is a beginning of the toggle, the attention command and the commands of the serial settings that have one, and all of it once Init waits |
| LoraQueue.InitGetsToWait | src/lora_gateways/dx_smart_lr02_gw.cpp:503-530 | without failures twelve events bring Init there |
| LoraQueue.FailuresMatch | src/lora_gateways/dx_smart_lr02_gw.cpp:148-500 | over any run, if empty stages count as done, as many jobs failed as requests |
| LoraRuns.CompleteSessions | src/lora_gateways/dx_smart_lr02_gw.cpp:148-500 | without failures the trace is always a beginning of the complete sessions of the pushed operations in order, all of them once the driver is idle, however pushes and progress interleave |
| LoraRuns.HeadOfTheQueue | src/lora_gateways/dx_smart_lr02_gw.cpp:148-500 | an operation none of whose requests fails sends exactly its session, ends well and leaves the AT mode off, whatever is queued behind it or pushed meanwhile |
| LoraRuns.Recovery | src/lora_gateways/dx_smart_lr02_gw.cpp:633-655 | after any run with any failures, whatever is still queued, the next operation that succeeds sends no second entry if the AT mode was left on, and leaves it off |
| LoraRuns.RecoveryWhenIdle | src/lora_gateways/dx_smart_lr02_gw.cpp:633-655 | the same from idle to idle |
| LoraRuns.MutedForever | src/lora_gateways/dx_smart_lr02_gw.cpp:633-655 | if an empty stage counts as failed, an operation that failed in AT mode silences the driver for good |
| LoraRuns.NothingEverSucceeds | src/lora_gateways/dx_smart_lr02_gw.cpp:503-530 | and then no operation of a constructed driver ever succeeds |
| LoraRuns.Drains | src/lora_gateways/dx_smart_lr02_gw.cpp:148-500 | whatever the module answers, a queue of operations drains within a number of events bounded by a measure on it |
| LoraRuns.ServedOnlyIfInitFailed | src/lora_gateways/dx_smart_lr02_gw.cpp:503-530 | operations behind Init get their turn if and only if a request of Init has failed or, where empty stages count as failed, Init came to a setting that has no command |
| LoraRuns.NoUnknownSetting | src/lora_gateways/dx_smart_lr02_gw.cpp:716-785 | with serial settings that have commands Init comes to no setting without one |
| GatewayObjects.ServerStreamManager.OpenCache | libs/gateway/server_stream_manager.cpp:205-215 | the erase-while-walking loop ends and leaves exactly the live entries |
| GatewayObjects.Gateway.Reply | libs/gateway/local_port.cpp:105-108 | hands a datum to every listener in order |
| GatewayObjects.Gateway.SetLink | libs/gateway/local_port.cpp:109-111 | hands a link change to every listener in order |
| GatewayObjects.Gateway.HandleAll | libs/gateway/local_port.cpp:73-144 | a list of events on the objects is a run of the state machine |
| SimObjects.GwSimDataBus.RemoveGatewayListener | simulator/sim-gateway/gw-sim-data-bus.cpp:53-59 | the search loop takes out the first occurrence |
| SimObjects.GwSimDataBus.PublishDeviceData | simulator/sim-gateway/gw-sim-data-bus.cpp:24-29 | every gateway listener is called with the packet, every occurrence once and in order; each local port gets it once for each of its listeners, whichever gateways they belong to |
| SimulationObjects.Simulation.CreateDevice | simulator/sim-gateway/gw-sim-device.cpp:32-38 | constructing a device is the system's event of that name, and keeps every device in step with what was delivered to it |
| SimulationObjects.Simulation.DestroyDevice | simulator/sim-gateway/gw-sim-device.cpp:40-42 | so is destroying one |
| SimulationObjects.Simulation.CreatePort | simulator/tests/sim-alice-bob/sim-alice-bob.cpp:49-49 | so is constructing a port on the gateway's local port |
| SimulationObjects.Simulation.DestroyPort | simulator/sim-gateway/gw-sim-device-port.cpp:34-36 | so is destroying one |
| SimulationObjects.Simulation.Send | simulator/sim-gateway/gw-sim-device.cpp:44-72 | so is a call of a registered device, which reaches the gateway through every port |
| SimulationObjects.Simulation.Handle | simulator/sim-gateway/gw-sim-device-port.cpp:26-31 | so is an event at the gateway: what it puts out is received by the listening devices through every port |
| SimulationObjects.Simulation.Emit | simulator/sim-gateway/gw-sim-device-port.cpp:26-31 | an output is handed to the handlers of all ports, each once and in order, and the devices receive the publications |
| SimulationObjects.Simulation.EmitAll | simulator/sim-gateway/gw-sim-device-port.cpp:26-31 | the same for all outputs of an event, one after the other |
| OwnCalls.OwnCallsOnly | simulator/sim-gateway/gw-sim-data-bus.cpp:31-47 | at any time every call a device object has received answers a session this very device opened, under its own id, for that session's client |
| ChannelObjects.GwSimTransportBuildAction.HandleAll | simulator/sim-gateway/gw-sim-channel.cpp:44-87 | a list of events on the object is a run of the build, with the reports of that run |
| LoraObjects.DxSmartLr02LoraGateway.HandleAll | src/lora_gateways/dx_smart_lr02_gw.cpp:131-530 | a list of events on the object is a run of the driver |

## Left out

- Byte-level serialisation: the API calls are values, and parsing always succeeds.
- GwStream, ServerStream and the get-actions are not heap objects: a GwStream is a value in the one table entry that owns
  it, an action a value in the registry of pending actions, and server streams and servers are records in tables
  addressed by handles. Sharing is sharing of handles; aliasing of these objects in memory is not modelled.
- Destroying an event while it is emitted, re-entrant calls from a handler, and threads: each event is one atomic step.
- The output event of a local port is the list of its outputs; a port's subscription to it is identified with the port's
  registration on the bus, which begins and ends with it.
- Channel selection, transports, access points, the poller and serial port: only success, failure and link states remain.
- `GetStream` with the cache switched off, which nothing in the repository uses.
- Unused entries are never removed from the session table by age; the source has no such step either.
- `ServerId` is taken to fit the 32 bits it is cast to when a key is built.
- SimObjects.GwSimDataBus.RegDeviceListener: requires that fewer than 254 ids were handed out, which the source asserts.
- Systems with several gateways on one bus: `PublishDeviceData` is proved for any, but `SystemModel` and `Simulation` have
  one gateway, as the simulator wires them.
- The other parts of a device's lifetime on the wire: adapters, factories, `main`, configuration, telemetry.
- `OpenNetwork`, `CloseNetwork`, `WritePacket`, `ReadPacket`, `PowerOff` and polling of the LR02 driver: they are stubs, or
  never reached because no connection is ever added.
- LoraRuns.CompleteSessions: stated for empty stages that count as done; MutedForever and NothingEverSucceeds cover the
  other case.
- Hexadecimal formatting and the text of AT commands: commands are values with their argument.
- Timeouts and matching of AT responses: a request is answered as expected or not.
