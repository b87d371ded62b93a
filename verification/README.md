# Verification of the relay, gateway, hub and control services

A Dafny 4.11 model of five parts of the repository, with proofs. `dafny verify dfyconfig.toml` checks all of it.

**The Pi tunnel relay** is a rendezvous protocol between long-lived node sockets and client sockets. `TunnelModel` is
the transition system: one step is one synchronous turn of the relay (a message, the resumption after the device
lookup, a timer, a close event, a revocation poll), and any interleaving of steps is a run. `TunnelServer` has the same
operations on mutable connection records and maps, each proved equal to its step and proved to keep maps and records
consistent. `TunnelPairing`, `TunnelOutput`, `TunnelIsolation`/`TunnelSafety` and `TunnelOrder` prove safety over all
runs: the maps and cross-references agree, every node reads well-formed blocks, no late frame crosses from one client
to the next, and every client gets its frames in order. `TunnelDecisions` says what each turn decides,
`TunnelHistory` traces every pairing back to the four events that allow it, and `TunnelTimers` says whom timers and
revocation polls can hit. `ForwardQueue`, `QueueRuns` and `Backpressure` treat the
bounded forward queue, `RateLimiter` the activation limiter.

**Gateway body admission** is a weighted allocator: memory samples set the units, leases take and return them, and the
body reader stays inside what was leased. `BodyCapacity` has the ledger and its conservation laws, `BodyLeases` the
objects, `BodyFraming` and `BodyReader` the header check and the read loop, `GatewayAdmission` the request life cycle
with the end-to-end memory bound, the count of failures, and its agreement with the reader.

**Hub routing**: `ObjectGraph` and `HubConversion` treat the key search over possibly cyclic payloads, `StableSort`,
`HubConfig` and `HubRouting` the choice of a route and its fallbacks, `HubModels` the model listing and its agreement
with the router, `HubExecutor` one candidate and the fallback loop.

**CLIProxy control**: `PromiseLock` and `ServiceLocks` treat the promise-chain locks, `OAuthSessions`, `OAuthRuns`,
`OAuthHistory` and `OAuthService` the OAuth session state machine, `CredentialStore`, `CredentialHistory`,
`CredentialRepair` and `CredentialService` the credential list with its rollbacks.

**The operation registry**: `DeepFreeze` is the in-place traversal that marks an object before its children,
`Registry` the constructor that freezes what it accepts.

Conventions: what the program cannot control (whether a `send` throws, a write fails, a management call succeeds, how
much a socket has buffered, what time it is) is a parameter of the step. Where a file holds both a function and a
method, the method is the imperative code and the function its specification; what the function means is then said
by lemmas that do not name it (`…Decides`, `…ExactlyWhen`, the theorems over runs). Numbers are unbounded; safe-integer
checks are written out where the code makes them. The code is followed where its comments or names promise more: see
`DeepFreeze.FreezesEverythingExactlyWhen`, `BodyCapacity.RefaultsConservedExactlyWhen`,
`QueueRuns.IdleQueueAcceptsEveryFrameExactlyWhen` and `OAuthRuns.SuccessIsLateExactlyWhen`.

## Model

| member | source | states |
|---|---|---|
| `TunnelPairing.PairingHoldsOnEveryRun` | apps/pi-tunnel/src/server.ts:196-442 | after any events in any order: each registered id names one live node that carries it; a live node is authorizing iff it has a pending request and paired iff it has a client and a queue; a pending client is live, authorizing and points back; a paired client's live node has it as client |
| `TunnelPairing.StepKeepsPairing` | apps/pi-tunnel/src/server.ts:241-424 | every single step, from any state with the pairing invariant, keeps it |
| `TunnelPairing.TextKeeps` | apps/pi-tunnel/src/server.ts:261-361 | control messages, including a refused or concurrent one, keep the pairing invariant |
| `TunnelPairing.LookupKeeps` | apps/pi-tunnel/src/server.ts:290-306 | so does resuming after the device lookup, however the state changed meanwhile |
| `TunnelPairing.TimerKeeps` | apps/pi-tunnel/src/server.ts:346-353 | so does a handshake or authorization timer; of all pending requests it withdraws exactly the one for its own client, and it changes no record but its own and that request's node |
| `TunnelPairing.ClientCloseKeeps` | apps/pi-tunnel/src/server.ts:398-416 | so does the close of a client, paired, pending or neither |
| `TunnelPairing.NodeCloseKeeps` | apps/pi-tunnel/src/server.ts:398-424 | so does the close of a node |
| `TunnelHistory.EveryPairingWasAllowed` | apps/pi-tunnel/src/server.ts:286-396 | over every run, a paired client's node proved its id, was found to be that id's device, was registered under it when this client asked for it, and then allowed that very request while it was pending, in this order |
| `TunnelHistory.NothingUngranted` | apps/pi-tunnel/src/server.ts:196-424 | no step gives anybody a lookup, a pending request or a partner except the event that grants it: the node's own proof, a client's request for the node registered under the id it names, the node's allowing answer |
| `TunnelHistory.RegisteredOnlyByLookup` | apps/pi-tunnel/src/server.ts:290-306 | only the resumption after a matching lookup of that very id registers a node |
| `TunnelDecisions.AnswerDecides` | apps/pi-tunnel/src/server.ts:310-396 | in every state with the pairing invariant, an allowing answer with both sockets open pairs the two and tells both; any other leaves the node ready and told nothing, and the client unpaired, told nothing and not open; nobody else is touched |
| `TunnelDecisions.StaleAnswerDecidesNothing` | apps/pi-tunnel/src/server.ts:309-313 | an answer to a request that is not pending changes nothing but that the message is under way |
| `TunnelDecisions.RequestDecides` | apps/pi-tunnel/src/server.ts:329-361 | a client's request goes to the node registered under the id it names, if idle, and to nobody else; otherwise nobody is asked and the client is closed |
| `TunnelDecisions.LookupDecides` | apps/pi-tunnel/src/server.ts:290-306 | a node is registered iff its device matches, its handshake is still on, its socket open and its id free; otherwise an open socket in its handshake is closed |
| `TunnelDecisions.TextRefusedExactlyWhen` | apps/pi-tunnel/src/server.ts:261-361 | a text message closes its sender iff the protocol does not foresee it from that role and phase, or another is under way; then nothing else changes |
| `TunnelDecisions.UnpairedFrameDecides` | apps/pi-tunnel/src/server.ts:261-265 | before pairing, a binary frame is ignored from a registered node and closes any other sender |
| `TunnelDecisions.ClientFrameDecides` | apps/pi-tunnel/src/server.ts:242-260 | a paired client's frame closes the client iff it is too large or the queue does not take it, and closes nobody else |
| `TunnelDecisions.NodeFrameDecides` | apps/pi-tunnel/src/server.ts:242-260 | a paired node's frame closes the node iff it is too large; one the queue does not take closes the client and never the node |
| `TunnelDecisions.FrameIsForwarded` | apps/pi-tunnel/src/server.ts:242-260 | a frame that is taken is written to the partner or waits for it, behind all that waited |
| `TunnelDecisions.DrainIsForwarded` | apps/pi-tunnel/src/backpressure.ts:69-83 | a drain writes waiting frames to the partner in order and keeps the rest, but for one whose send throws |
| `TunnelDecisions.TimerDecides` | apps/pi-tunnel/src/server.ts:346-353 | an armed timer closes its own socket and no other |
| `TunnelDecisions.NodeCloseDecides` | apps/pi-tunnel/src/server.ts:417-421 | a node's close frees its id and closes its client or the client it was asked about, and nobody else |
| `TunnelDecisions.ClientCloseDecides` | apps/pi-tunnel/src/server.ts:401-415 | a client's close makes its node ready again, tells it if they were paired, and leaves every other record alone |
| `TunnelTimers.TimerArmedExactlyWhileUnsettled` | apps/pi-tunnel/src/server.ts:196-394 | over every run, an open socket has a timer iff it is in its handshake or, as a client, waits to be let in: nobody lingers, and no timer hits a registered node or a paired client |
| `TunnelTimers.PollClosesExactly` | apps/pi-tunnel/src/server.ts:426-442 | over every run, the end of a poll closes exactly the open sockets registered when it began, still registered under the same id, and not active, or all of them when the query failed |
| `TunnelOutput.OutputParsesOnEveryRun` | apps/pi-tunnel/src/server.ts:355-416 | on every run the output to a registered node reads as authorization requests and blocks of frames, the last one possibly cut off, and matches the node's phase |
| `TunnelOutput.EveryPrefixIsWellFormed` | apps/pi-tunnel/src/server.ts:363-416 | at every point of a node's output the frames of the current block are a subsequence of what the block's own client sent; no frame stands outside a block |
| `TunnelOutput.ForwardOrder` | apps/pi-tunnel/src/backpressure.ts:22-38 | forwarding appends the accepted frame behind all waiting ones, or changes nothing |
| `TunnelOutput.DrainLoopOrder` | apps/pi-tunnel/src/backpressure.ts:69-83 | draining sends waiting frames in order from the front and keeps the rest; exactly one frame is lost when a send throws, the one it threw on, and none otherwise |
| `TunnelSafety.NoFrameReachesAnotherClient` | apps/pi-tunnel/src/server.ts:241-262 | with FIFO links and a protocol-following node, over every run, what a client is handed or has waiting is what the node sent for that very client |
| `TunnelOrder.ClientFramesArriveInOrder` | apps/pi-tunnel/src/server.ts:241-262 | under the same conditions, what a client has been handed followed by what waits for it is a subsequence of the frames the node sent for that client, in the order sent |
| `TunnelOrder.OrderOnEveryRun` | apps/pi-tunnel/src/server.ts:241-265 | the invariants behind it: what was handed over and what waits is a subsequence of what the relay read from the node, and that, with the frames still under way, of what the node sent |
| `TunnelSafety.IsolationOnEveryRun` | apps/pi-tunnel/src/server.ts:308-416 | the invariant behind it: once a node has a request it is outside every block until it is paired, and after its answer it has no frame under way |
| `TunnelSafety.OwnAnswerNode` | apps/pi-tunnel/src/server.ts:310-324 | an answer that pairs a client leaves nothing on the way from the node for anybody else |
| `TunnelServer.Server.AcceptSocket` | apps/pi-tunnel/src/server.ts:196-239 | the mutable records and maps after accepting a socket are those of the transition system; consistency of maps and records is kept, here and in each handler below |
| `TunnelServer.Server.ConsistentFields` | apps/pi-tunnel/src/server.ts:58-90 | what consistency says of the objects' own fields: a registered id names a node record that carries it, a paired node's client and a pending request's client are records that point back |
| `TunnelServer.Server.HandleText` | apps/pi-tunnel/src/server.ts:261-284 | the same for a text message |
| `TunnelServer.Server.HandleLookupDone` | apps/pi-tunnel/src/server.ts:290-306 | the same for the resumption after the lookup |
| `TunnelServer.Server.HandleAuthorizationResult` | apps/pi-tunnel/src/server.ts:308-325 | the same for a node's answer; that an allowing answer pairs and any other refuses is `TunnelDecisions.AnswerDecides` |
| `TunnelServer.Server.HandleClientAuth` | apps/pi-tunnel/src/server.ts:329-361 | the same for a client's request for a node |
| `TunnelServer.Server.PairSockets` | apps/pi-tunnel/src/server.ts:363-396 | the same for pairing, which happens only while both sockets are open |
| `TunnelServer.Server.HandleBinary` | apps/pi-tunnel/src/server.ts:242-265 | the same for a binary message: forwarded, dropped or refused |
| `TunnelServer.Server.HandleTimer` | apps/pi-tunnel/src/server.ts:346-353 | the same for the handshake and authorization timers |
| `TunnelServer.Server.Cleanup` | apps/pi-tunnel/src/server.ts:398-424 | the same for a close event |
| `TunnelServer.Server.StartPoll` | apps/pi-tunnel/src/server.ts:426-431 | a poll takes its snapshot only when none is under way |
| `TunnelServer.Server.FinishPoll` | apps/pi-tunnel/src/server.ts:430-442 | exactly the nodes still registered under a snapshot id that is no longer active are closed, all of them when the query fails |
| `Backpressure.OpaqueForwardQueue.Forward` | apps/pi-tunnel/src/backpressure.ts:22-38 | the queue object accepts, queues, sends or refuses a frame as specified, and tells overflow from a closed target; which of them is `QueueRuns.ForwardDecides` |
| `QueueRuns.ForwardDecides` | apps/pi-tunnel/src/backpressure.ts:22-38 | on an open target a frame overflows iff the queue is full or the frame, with buffer, waiting bytes and 64 a frame, passes the absolute bound; with room it waits last behind a backlog or a full socket, and goes straight to an idle one |
| `QueueRuns.RefusedExactlyWhen` | apps/pi-tunnel/src/backpressure.ts:22-38 | the same after every run: a frame is turned away iff the target is closed or there is no room |
| `QueueRuns.BytesAreConserved` | apps/pi-tunnel/src/backpressure.ts:22-83 | over every run, bytes buffered plus bytes flushed are the bytes of all frames sent, with headers, plus what others wrote |
| `QueueRuns.DrainDecides` | apps/pi-tunnel/src/backpressure.ts:60-83 | a drain on a closed target empties the queue; on an open one it re-arms the timer iff frames still wait, and stops early only for a full socket or a throw |
| `Backpressure.OpaqueForwardQueue.Drain` | apps/pi-tunnel/src/backpressure.ts:69-83 | the drain callback with its loop leaves object and socket as specified |
| `Backpressure.OpaqueForwardQueue.Clear` | apps/pi-tunnel/src/backpressure.ts:40-45 | clearing empties the queue and disarms the timer |
| `QueueRuns.RunKeepsInv` | apps/pi-tunnel/src/backpressure.ts:22-83 | over every run: sent plus queued frames are the accepted frames in order (while the target is open and no send threw), the byte count is exact, waiting frames have a timer, and both memory bounds hold |
| `QueueRuns.OwnTrafficIsBounded` | apps/pi-tunnel/src/backpressure.ts:22-38 | one direction's own traffic keeps buffer plus accounted queue within `absoluteBytes`, the buffer below high water plus one maximal frame with its header (section 5.2 of RFC 6455), and the queue within `maxQueuedFrames` |
| `QueueRuns.DrainStopsForAReason` | apps/pi-tunnel/src/backpressure.ts:74-81 | a drain stops on an empty queue, a full socket, or exactly at the send that throws |
| `QueueRuns.IdleQueueAcceptsEveryFrameExactlyWhen` | apps/pi-tunnel/src/server.ts:600-621 | valid options let an idle queue accept every frame iff the largest one and its 64 accounting bytes fit |
| `QueueRuns.ValidOptionsMayRejectAFrame` | apps/pi-tunnel/src/server.ts:618-620 | options that pass the start-up check under which an idle queue overflows on one frame |
| `RateLimiter.FixedWindowRateLimiter.TakePermit` | apps/pi-tunnel/src/server.ts:629-636 | one call of the limiter: the window it leaves and whether it grants |
| `RateLimiter.WindowGrantsUpToLimit` | apps/pi-tunnel/src/server.ts:623-637 | a window grants its first `limit` calls and no other, for any call times |
| `RateLimiter.AnyIntervalGrantsAtMostTwiceTheLimit` | apps/pi-tunnel/src/server.ts:623-637 | for non-decreasing times, no half-open interval as long as a window sees more than twice the limit |
| `RateLimiter.TwiceTheLimitIsReached` | apps/pi-tunnel/src/server.ts:623-637 | the factor two is exact: for every limit and every window of at least 2 ms there are non-decreasing calls that get twice the limit within one window's length |
| `BodyFraming.InspectRequestBodyFraming` | apps/gateway/src/request-body.ts:93-105 | the header loop finds exactly the declared framing |
| `BodyFraming.DeclaredExactlyWhen` | apps/gateway/src/request-body.ts:93-105 | a length is declared iff there is one Content-Length field, no Transfer-Encoding, and the value is, up to spaces, the decimal numeral of a safe integer (section 6.3 of RFC 9112) |
| `BodyFraming.UndeclaredExactlyWhen` | apps/gateway/src/request-body.ts:93-105 | the length is undeclared iff no header pair names Content-Length; a request that names it together with Transfer-Encoding is refused, and every refusal is for an invalid length |
| `BodyFraming.DecimalIsCanonical` | apps/gateway/src/request-body.ts:459-465 | the numeral of a number is canonical and reads back as it |
| `BodyFraming.CanonicalIsDecimal` | apps/gateway/src/request-body.ts:459-465 | a canonical numeral is the only one of its value |
| `BodyFraming.DecimalIsRead` | apps/gateway/src/request-body.ts:459-465 | the numeral of a length is read back as that length, unless it is no safe integer, which is refused |
| `BodyReader.ReadBoundedJsonBody` | apps/gateway/src/request-body.ts:395-449 | the body comes back whole iff its total length is the declared one, or undeclared, within the maximum, however it is chunked; each of the three errors holds in exactly its own case; the bytes kept never exceed what the request was admitted for |
| `BodyCapacity.LedgerHoldsOnEveryRun` | apps/gateway/src/request-body.ts:141-186 | used units are always the sum of the unreleased leases' units |
| `BodyCapacity.AdmissionFitsMemory` | apps/gateway/src/request-body.ts:166-186 | at every admission nine times the admitted bytes of all unreleased leases plus the reserve fit the memory last sampled |
| `BodyCapacity.AdmittedExactlyWhen` | apps/gateway/src/request-body.ts:166-186 | on every run a request is let in, with the least MiB count that holds it, iff memory was sampled and the available bytes less 9 MiB for every unit, its own included, leave at least 512 MiB and a fifth of the limit |
| `BodyCapacity.AdmissionLeavesReserve` | apps/gateway/src/request-body.ts:166-186 | so after every admission at least 512 MiB and a fifth of the limit are left of the available bytes once nine times all admitted bytes are set aside |
| `BodyCapacity.SampleIsLastValid` | apps/gateway/src/request-body.ts:166-174 | what admission goes by is the last valid sample |
| `BodyCapacity.LengthsAreConserved` | apps/gateway/src/request-body.ts:188-230 | reported plus pending counts of requests with and without a length are those recorded |
| `BodyCapacity.SnapshotTellsTheState` | apps/gateway/src/request-body.ts:200-230 | a snapshot tells the last valid sample, the units of all unreleased leases, and the reserve and total that admission goes by |
| `BodyCapacity.DoubleReleaseIsIdle` | apps/gateway/src/request-body.ts:134-138 | releasing a lease twice is releasing it once |
| `BodyCapacity.GrowthStaysWithinTotal` | apps/gateway/src/request-body.ts:166-186 | used units grow only within the total, and never while they exceed a shrunken one |
| `BodyCapacity.EventsAreConserved` | apps/gateway/src/request-body.ts:200-252 | reported plus pending event deltas are the sum of the positive increments between consecutive present samples |
| `BodyCapacity.IncrementsTelescope` | apps/gateway/src/request-body.ts:244-252 | which is last minus first when the counters never decrease |
| `BodyCapacity.OutcomesAreConserved` | apps/gateway/src/request-body.ts:176-230 | every outcome is reported once or still pending; a capacity refusal counts once although it is recorded twice |
| `BodyCapacity.RefaultsAccountedFor` | apps/gateway/src/request-body.ts:200-242 | every refault increment is reported, pending, or dropped by a sample without a memory part |
| `BodyCapacity.RefaultsConservedExactlyWhen` | apps/gateway/src/request-body.ts:232-242 | refaults are reported in full iff no sample without a memory part arrives while some are pending |
| `BodyCapacity.RefaultsCanBeLost` | apps/gateway/src/request-body.ts:232-237 | a run that loses three refaults |
| `BodyLeases.BodyRequestLease.Release` | apps/gateway/src/request-body.ts:126-139 | the lease object gives its units back the first time only |
| `BodyLeases.WeightedBodyRequestCapacity.UpdateMemory` | apps/gateway/src/request-body.ts:166-174 | the allocator object after a sample is the ledger's, and an invalid sample changes nothing; the numbers are pinned by `BodyCapacity.AdmittedExactlyWhen` |
| `BodyLeases.WeightedBodyRequestCapacity.TryAcquire` | apps/gateway/src/request-body.ts:176-186 | the allocator object hands out a lease or counts a refusal as the ledger does |
| `BodyLeases.WeightedBodyRequestCapacity.RecordOutcome` | apps/gateway/src/request-body.ts:192-198 | recording an outcome |
| `BodyLeases.WeightedBodyRequestCapacity.TakeRuntimeSnapshot` | apps/gateway/src/request-body.ts:200-230 | a snapshot reports and resets the counters, and leaves units and leases alone |
| `GatewayAdmission.HeldBodiesFitMemory` | apps/gateway/src/server.ts:115-121 | end to end over every run of requests: at every admission, nine times what all requests hold or may still read leave at least 512 MiB and a fifth of the limit of the memory last sampled |
| `GatewayAdmission.ReadsLikeTheReader` | apps/gateway/src/server.ts:246-256 | chunk by chunk, the request life cycle comes to what the reader makes of the whole body: kept whole, or the reader's error recorded and the lease given back |
| `GatewayAdmission.ArrivalDecides` | apps/gateway/src/server.ts:246-252 | malformed or oversized framing is recorded and asks for nothing; any other request asks for its declared length or the maximum |
| `GatewayAdmission.HeldStaysWithinAdmitted` | apps/gateway/src/server.ts:246-256 | what the active requests hold never exceeds what they were admitted for |
| `GatewayAdmission.NothingLeaks` | apps/gateway/src/server.ts:161-163 | once every request has finished no unit is in use |
| `GatewayAdmission.GatewayHoldsOnEveryRun` | apps/gateway/src/server.ts:80-172 | each admitted request has one lease, unreleased exactly while the request is active |
| `GatewayAdmission.FailuresAreReportedOnce` | apps/gateway/src/server.ts:140-163 | over every run, reported plus pending outcomes of each kind equal the number of requests that failed that way: refused, malformed, oversized, short and aborted ones each once, a refused arrival once although its code is recorded twice |
| `ObjectGraph.AvoidingClosedHidesOnlyMembers` | packages/application-operations/src/registry.ts:19-24 | stopping at objects of a set closed under children leaves out only members of that set |
| `HubConversion.ContainsKey` | apps/hub/src/protocol.ts:111-118 | terminates on every finite graph and is true iff some reachable non-array object owns the key, with cycles and sharing |
| `HubConversion.Search` | apps/hub/src/protocol.ts:111-118 | one recursive call: a negative answer leaves everything it visited explored and without the key |
| `HubConversion.AssertConvertible` | apps/hub/src/protocol.ts:93-109 | a payload passes to another format iff no reachable object carries a breakpoint and, leaving the responses format, it has function tools and messages only |
| `HubConversion.ResponsesRefusedExactlyWhen` | apps/hub/src/protocol.ts:93-109 | leaving the responses format, a request is refused iff some reachable object owns a breakpoint, some listed tool is not typed as a function, or some listed input item has a string type other than a message |
| `HubConversion.TranslateHubRequest` | apps/hub/src/protocol.ts:12-21 | a request goes out in the target format iff the formats are equal, or the payload passes the check and the library copes; equal formats never refuse |
| `StableSort.FilterOfSort` | apps/hub/src/routing.ts:12-14 | selecting commutes with stable sorting |
| `StableSort.SortIsStable` | apps/hub/src/routing.ts:12-14 | sorting keeps the order within every tie |
| `StableSort.StableSortsAgree` | apps/hub/src/routing.ts:12-14 | being sorted and stable determines the result, so the model's sort is the runtime's |
| `StableSort.HeadIsFirstLeast` | apps/hub/src/routing.ts:12-14 | the head of a sorted selection is the first of its least elements in the original order |
| `HubConfig.CheckConfig` | apps/hub/src/config.ts:103-123 | loading accepts a configuration iff ids are unique, remote base URLs are acceptable, and every route has a fitting upstream and known fallbacks |
| `HubConfig.AssertUniqueIds` | apps/hub/src/config.ts:142-148 | the loop with its seen set finds a duplicate iff there is one |
| `HubConfig.CheckRoute` | apps/hub/src/config.ts:105-122 | a route is accepted iff an upstream of its id speaks its protocol and has a model, and its fallbacks are known |
| `HubRouting.PrimaryIsBest` | apps/hub/src/routing.ts:11-15 | the chosen route accepts the request and no accepting route beats it; there is none iff no route accepts |
| `HubRouting.PrimaryDecides` | apps/hub/src/routing.ts:11-17 | a request takes the configured route of highest priority, then least upstream, then first in order, among those of its model and its protocol or any; none iff there is none |
| `HubRouting.FallbackDecides` | apps/hub/src/routing.ts:20-25 | a fallback upstream is reached by the first route of highest priority that leads to it, or else by the primary one without its target settings |
| `HubRouting.EveryCandidateIsAskedFor` | apps/hub/src/routing.ts:39-48 | each candidate is asked for its route's model, its kind's own, or the one requested; with a valid configuration a configured route never leaves it to the request |
| `HubRouting.EveryCandidateResolves` | apps/hub/src/routing.ts:11-48 | with a valid configuration resolution fails only for want of a route, and every candidate is its upstream's native one, in the listed order |
| `HubModels.ListModels` | apps/hub/src/models.ts:30-55 | the listing holds exactly the shown models, each once, in collation order |
| `HubModels.VisibleModels` | apps/hub/src/models.ts:45-50 | the loop over the preferred routes shows each model once, with the target of its first route that has an advertised one |
| `HubModels.AvailableTargetForRoute` | apps/hub/src/models.ts:103-116 | the target of a route is its primary's, or the first fallback's that is advertised |
| `HubModels.ListingAgreesWithRouter` | apps/hub/src/models.ts:30-55 | whenever some candidate of the router is advertised, the model is listed with what the first such candidate advertises |
| `HubModels.ListedModelsAreRoutable` | apps/hub/src/models.ts:103-126 | a model is listed iff some accepting route for it has an advertised target, and then a valid configuration routes it |
| `HubModels.ListedExactlyWhen` | apps/hub/src/models.ts:30-55 | a model is listed iff some route for it has an advertised target, among all routes, or among those of the protocol asked for or of any |
| `HubModels.TargetIsFirstAdvertised` | apps/hub/src/models.ts:103-126 | the listing and the router pick the same upstreams and models for a route |
| `HubExecutor.InvokeCandidates` | apps/hub/src/executor.ts:50-81 | each candidate fares as its conversion check, the library and the upstream make it; the result is the outcome of the first one that answers finally, throws for good, or is last; the code after the loop is unreachable |
| `HubExecutor.InvokeCandidate` | apps/hub/src/executor.ts:83-174 | one candidate: a mock answers by itself, any other gets the request in its own format or refuses to convert it |
| `HubExecutor.AttemptDecides` | apps/hub/src/executor.ts:83-174 | a mock or a candidate of the client's format always replies for itself; a foreign one refuses iff the check, the library or the stream translation would lose something |
| `HubExecutor.AnswerDecides` | apps/hub/src/executor.ts:55-81 | the answer is that of the first candidate not passed over; passed over is a status from 400 on but 401, 402 and 403, unless last, or a refusal before a candidate of the client's format; the summary names it and its predecessor |
| `HubExecutor.Invoke` | apps/hub/src/executor.ts:47-81 | a whole invocation, including a missing model, a missing route and an unresolvable candidate |
| `HubExecutor.UnconvertibleOnlyWithoutNativeFallback` | apps/hub/src/executor.ts:60-64 | a request ends as unconvertible only when the settling candidate is no mock and speaks another format, and no later one speaks the client's |
| `HubExecutor.UnconvertibleWithoutNativeFallback` | apps/hub/src/executor.ts:60-64 | when the payload fails the check for the first, foreign candidate, the request ends there as unconvertible iff no candidate speaks the client's format |
| `DeepFreeze.Heap.DeepFreeze` | packages/application-operations/src/registry.ts:19-24 | terminates on every finite graph; the frozen set afterwards is exactly the old one plus what is reached without passing an old one, which is everything reachable when the old one is closed under children |
| `DeepFreeze.Heap.Visit` | packages/application-operations/src/registry.ts:19-24 | one recursive call, marking before descending: what is newly frozen is reachable and has its children frozen |
| `DeepFreeze.FreezesEverythingExactlyWhen` | packages/application-operations/src/registry.ts:20 | everything reachable is frozen iff no reached object that was frozen before has an unfrozen child which no other path reaches without passing a frozen object |
| `DeepFreeze.DeeplyFrozenSuffices` | packages/application-operations/src/registry.ts:20 | it is enough that every reached object frozen before has frozen children only |
| `DeepFreeze.ShallowFreezeStops` | packages/application-operations/src/registry.ts:20 | an already frozen array hides its unfrozen element |
| `Registry.CreateRegistry` | packages/application-operations/src/registry.ts:105-124 | succeeds iff every descriptor is valid and no id, inventory id or schema id clashes; otherwise stops at the first offender; exactly the accepted operations and what they reach are frozen |
| `Registry.CheckOffer` | packages/application-operations/src/registry.ts:109-116 | one descriptor passes iff it is valid and all its identities are unused |
| `Registry.RegistrableExactlyWhen` | packages/application-operations/src/registry.ts:105-124 | offers can be registered together iff all are valid and no operation id, inventory id or schema id occurs twice among them |
| `Registry.ApplicationOperationRegistry.Require` | packages/application-operations/src/registry.ts:130-138 | finds the one operation with the id, and throws iff there is none |
| `PromiseLock.LockHoldsOnEveryRun` | apps/cliproxy-control/src/service.ts:515-566 | the chain invariant, for the per-provider and the global form, under any arrivals and completions |
| `PromiseLock.MutualExclusion` | apps/cliproxy-control/src/service.ts:554-566 | no two tasks hold one key's lock |
| `PromiseLock.FirstComeFirstServed` | apps/cliproxy-control/src/service.ts:554-566 | tasks get the lock in the order they arrived, each after the one before is done; no newcomer overtakes |
| `PromiseLock.EntryPresentExactlyWhileBusy` | apps/cliproxy-control/src/service.ts:554-566 | a provider has a map entry iff somebody holds or awaits its lock |
| `PromiseLock.NeverStuck` | apps/cliproxy-control/src/service.ts:515-566 | while a key is busy one of its tasks gives the lock back or gets it as soon as it goes on |
| `ServiceLocks.ProviderLocks.Arrive` | apps/cliproxy-control/src/service.ts:555-558 | the map and promises up to the await |
| `ServiceLocks.ProviderLocks.Finish` | apps/cliproxy-control/src/service.ts:562-565 | the finally block: release, and remove the entry iff it is still this task's |
| `ServiceLocks.MutationLock.Arrive` | apps/cliproxy-control/src/service.ts:516-518 | the global chain up to the await |
| `ServiceLocks.MutationLock.Finish` | apps/cliproxy-control/src/service.ts:522-524 | the global chain's release |
| `OAuthRuns.ActiveEntryIsTheLiveSession` | apps/cliproxy-control/src/service.ts:327-411 | whenever a provider's lock is free, its live sessions are exactly the one its active entry names |
| `OAuthRuns.ReadyAndFailedAreFinal` | apps/cliproxy-control/src/service.ts:375-411 | ready and failed sessions never change again until they are dropped |
| `OAuthRuns.CallbackForwardedAtMostOnce` | apps/cliproxy-control/src/service.ts:357-373 | no session's callback is forwarded twice |
| `OAuthRuns.ExpiredSessionsStayDead` | apps/cliproxy-control/src/service.ts:527-546 | once a session has expired or is gone it stays so and no operation begins to work on it; the only operation that can still act on it was waiting on it at that moment and has waited ever since |
| `OAuthRuns.SuccessIsLateExactlyWhen` | apps/cliproxy-control/src/service.ts:357-411 | over every run, each success on a session belongs to an operation that found it unexpired and waited ever since; the session has expired by then iff the clock passed its expiry between the two |
| `OAuthRuns.AcceptedHoweverLate` | apps/cliproxy-control/src/service.ts:357-405 | reachable runs, for every life time and every delay, in which a callback is accepted and a credential bound that long after the session has expired |
| `OAuthHistory.SessionWasBorn` | apps/cliproxy-control/src/service.ts:327-411 | over every run, a stored session goes back to the actor it names, who started it with its provider, expires `ttl` after the management API answered, and is in its phase by an operation of its own: an accepted callback, a bound login, or a failure of either |
| `OAuthHistory.WaitWasBegun` | apps/cliproxy-control/src/service.ts:327-382 | over every run, an operation that waits on a session was begun by the actor who started that session, before it expired |
| `OAuthHistory.EndDecides` | apps/cliproxy-control/src/service.ts:364-410 | an accepted callback moves the session on, a bound login makes it ready, a refused callback or broken login fails it, a pending one changes nothing; ready and failed free the provider, and nobody else is touched |
| `OAuthHistory.SubmitDecides` | apps/cliproxy-control/src/service.ts:360-365 | a callback is forwarded iff the session is stored, the caller's, unexpired and awaiting one, and the URL is valid; a session its own actor finds expired is dropped |
| `OAuthHistory.StatusDecides` | apps/cliproxy-control/src/service.ts:377-382 | a login is asked about iff the session is stored, the caller's, unexpired and neither ready nor failed |
| `OAuthHistory.StartDecides` | apps/cliproxy-control/src/service.ts:331-335 | in every reachable state a start goes ahead iff the provider has no live session that is unexpired |
| `OAuthHistory.StartEndDecides` | apps/cliproxy-control/src/service.ts:336-353 | an answer stores the session for its starter with its expiry; a failure frees the provider |
| `OAuthSessions.StepKeepsInv` | apps/cliproxy-control/src/service.ts:327-411 | every operation part, interleaved with those of other providers and with time, keeps the session invariant |
| `OAuthService.CliProxyControlService.RequiredOAuthSession` | apps/cliproxy-control/src/service.ts:527-536 | finds a session iff it is stored, owned and unexpired; drops an expired one |
| `OAuthService.CliProxyControlService.ReleaseExpiredOAuthProvider` | apps/cliproxy-control/src/service.ts:538-546 | frees a provider whose session is gone or expired |
| `OAuthService.CliProxyControlService.FailOAuthSession` | apps/cliproxy-control/src/service.ts:548-552 | fails a session and frees its provider, leaving the other sessions alone |
| `OAuthService.CliProxyControlService.StartBegins` | apps/cliproxy-control/src/service.ts:331-335 | starting a session up to the management call |
| `OAuthService.CliProxyControlService.StartEnds` | apps/cliproxy-control/src/service.ts:336-353 | and after it, whether it answered or threw |
| `OAuthService.CliProxyControlService.SubmitBegins` | apps/cliproxy-control/src/service.ts:360-365 | forwarding a callback up to the management call |
| `OAuthService.CliProxyControlService.SubmitEnds` | apps/cliproxy-control/src/service.ts:366-371 | and after it |
| `OAuthService.CliProxyControlService.StatusBegins` | apps/cliproxy-control/src/service.ts:377-382 | asking for a status up to the first management call |
| `OAuthService.CliProxyControlService.StatusEnds` | apps/cliproxy-control/src/service.ts:383-410 | and after the last one; which verdict leads where is `OAuthHistory.EndDecides` |
| `CredentialStore.PutIsMapUpdate` | apps/cliproxy-control/src/store.ts:96-111 | an upsert changes what is found for its provider and nothing else |
| `CredentialStore.WithoutIsMapRemoval` | apps/cliproxy-control/src/store.ts:113-118 | a delete removes its provider and nothing else |
| `CredentialStore.SortedIsStrict` | apps/cliproxy-control/src/store.ts:106-109 | upsert and restore keep the list strictly sorted and unique by provider |
| `CredentialStore.WithoutKeepsOrder` | apps/cliproxy-control/src/store.ts:116 | so does delete |
| `CredentialStore.RollbackUndoesPut` | apps/cliproxy-control/src/service.ts:183-184 | restoring the previous credential, or deleting a new one, gives back the identical list |
| `CredentialStore.RestoreUndoesDelete` | apps/cliproxy-control/src/service.ts:237-245 | restoring a deleted credential gives back the identical list |
| `CredentialHistory.FoundIsLeftByUpserts` | apps/cliproxy-control/src/store.ts:96-118 | after any upserts and deletes a provider has a credential iff it was upserted since its last delete, created with the first of those upserts, with the last ref given or else the first drawn, and otherwise as the last one says |
| `CredentialRepair.StripModels` | apps/cliproxy-control/src/store.ts:73-81 | a credential's models are stripped iff the result is clean with distinct aliases |
| `CredentialRepair.StripTakesThePrefixOff` | apps/cliproxy-control/src/store.ts:74-75 | exactly the provider's prefix is taken off, once, and only from a name that begins with it |
| `CredentialRepair.RepairList` | apps/cliproxy-control/src/store.ts:67-84 | the whole list is stripped or rejected; the count is zero iff nothing changed |
| `CredentialRepair.RepairIsIdempotent` | apps/cliproxy-control/src/store.ts:67-85 | a repaired list needs no further repair |
| `CredentialService.Store.Upsert` | apps/cliproxy-control/src/store.ts:96-111 | the new list and the stored credential (ref and creation time kept), or no change when the write fails |
| `CredentialService.Store.Delete` | apps/cliproxy-control/src/store.ts:113-118 | the list without the provider and what was removed, or no change |
| `CredentialService.Store.Restore` | apps/cliproxy-control/src/store.ts:120-125 | the list with the credential put back, or no change |
| `CredentialService.Store.RepairOAuthModelPrefixes` | apps/cliproxy-control/src/store.ts:67-85 | all or nothing, and a write only when something changed |
| `CredentialService.CliProxyControl.PutCredential` | apps/cliproxy-control/src/service.ts:172-196 | a failed put leaves the list identical in order and in every field, unless the rollback's own write fails |
| `CredentialService.CliProxyControl.DeleteCredential` | apps/cliproxy-control/src/service.ts:232-249 | a failed delete leaves the list identical, unless the restore's own write fails; a credential with a file is deleted only once the file is, one with an API key without asking |
| `CredentialService.CliProxyControl.ImportCredential` | apps/cliproxy-control/src/service.ts:205-230 | a failed import leaves the list identical, unless the rollback's own write fails |

## Left out

- Relay input and output: WebSocket, HTTP, TLS and timers are events with a ready state, a buffered amount and an output trace; no message follows a close event.
- Activation requests, hard lifetime, idle timeout and heartbeat: the lifecycle timer only closes sockets, which any run may do at any time (`BeginClose`).
- Proof verification, random ids and encryption: a verified message is a parsed value, request and session ids are fresh.
- Relay shutdown, the upgrade handshake and the connection limit: they add no state that the pairing depends on.
- TunnelServer.Server: the fields of a connection state are one record per shared object, replaced as a whole, and the forward queue inside it is a value; `Backpressure` proves the queue object equal to that value's functions.
- TunnelServer.Server.HandleBinary: the callback of `send`, which only re-arms a drain timer that is armed anyway while frames wait, is a step of `QueueRuns` and not of the relay.
- BodyReader.ReadBoundedJsonBody: does not model aborted requests, transport errors and JSON parsing of the accepted bytes; `requestBodyFramingFromHeaders` is replaced by its result.
- BodyFraming.InspectRequestBodyFraming: case folding is that of ASCII letters, and trimming knows the ASCII spaces, U+00A0 and U+FEFF only.
- GatewayAdmission.GatewayHoldsOnEveryRun: one request acquires at most one lease, as the handler's guard enforces; what the provider does after the body has been read is one event that ends the request with or without an error code.
- Memory samples: reading and parsing the cgroup files.
- HubConversion.ContainsKey: payload objects have enumerable own properties only, as parsed JSON has.
- HubConfig.CheckConfig: the check of remote base URLs is a given truth value, and the schema's and the inline-secret checks come before.
- HubRouting.PrimaryIsBest: `localeCompare` is a fixed ranking of ids in which ids may tie.
- HubModels.ListModels: the discovery cache, its expiry and the retry are one snapshot per upstream.
- HubExecutor.InvokeCandidates: whether the translation library copes with a request or a streamed answer, and what an upstream replies, are given; the payload stands for itself with model and stream flag replaced, neither of which the conversion check reads; the other summary fields are not modelled.
- Registry.CheckOffer: the checks of a descriptor's own fields are given as one verdict, because they read nothing but that descriptor.
- Registry.CreateRegistry: the field checks of a descriptor are given as their verdict; exclusions and Owner metadata follow the same pattern and are not modelled.
- DeepFreeze.Heap.DeepFreeze: objects are identities in a graph that freezing does not change; functions and getters are not modelled.
- OAuthSessions.StepKeepsInv: the management calls of one status request are one wait, as none of them touches the sessions; the credential the request binds is stored without a rollback and is not part of the session state.
- CredentialService.CliProxyControl.PutCredential: runs without interleaved store writes, although a status request of another lock could write in between; provider ids have a strict total order.
- Parsing of the stored file and of request bodies, catalog observations, reconciliation reports, audit metadata, billing and identity modules: branch-level checks only.
