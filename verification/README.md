# retry-endpoint, verified

A Dafny model of the retry endpoint: the process that caches the frames of a multicast
fabric and repairs the gaps its listeners report (BRC-126). The model follows four parts of
the program that depend on one another, and proves what they promise.

**The sliding-window limiter** (`WindowSpec`, `EventLog`, `SlidingWindow`, `Amortised`,
`Limits`, `TierRuns`, `Charges`). The reference is one line, "rescan every admitted event of the key and count".
The limiter itself is the program's: per-key logs that expire by prefix, compact and shrink
in an array, keys dropped by sweeps that a size or a time triggers, and a map that is
sometimes rebuilt. For every run on a clock that does not go back it answers call by call as
the reference does, within the cost and memory it claims. On top of it, whole server runs
with any interleaving of workers stay within the sequence and chain limits, and `Charges`
says of a series of request datagrams exactly which are refused, and by which tier.

**The receive pipeline** (`Shard`, `Slots`, `Pipeline`, `PipelineOrder`, `PipelineRuns`,
`PipelineEnds`, `Sockets`, `CrossSockets`, `CacheOrder`). A transition system of one receiver and any number of processors
that share a fixed set of slots. Every interleaving is covered: slots are neither lost nor
shared, nothing deadlocks, datagrams of one flow key are handled in arrival order with the
bytes read, each datagram has exactly one fate, and shutdown ends; so the cache is left with
the last datagram of each key. Several sockets together keep that order exactly for
datagrams of one socket.

**The NACK protocol** (`TtlStore`, `Cache`, `Frames`, `Ingress`, `Keeping`, `Wire`, `Retransmit`,
`Server`, `Answers`, `Requests`, `Claims`, `Cluster`, `Suppression`, `Solo`). Serving one request is a
method over the limiter state, the cache, the claim store and the sockets; `Cluster`
interleaves the requests and re-injections of any number of endpoints over one claim store,
one backend operation or socket write at a time; `Solo` shows the method, and the proxy's
delivery of a frame, to be runs of the cluster. The heart of it is that an ACK is true.
`Keeping` and `Requests` say the same from outside, in the bytes of the datagrams: what is
kept and for how long, what a request gets, sends and starts.

**Cross-domain recovery** (`Proxy`, `Recovery`, `Network`). The claim on a recovery, the
proxied request, the wait for the frame through whatever else arrives, the re-cache and the
delivery; then the way from a downstream miss to a downstream hit, and the bound on what one
request can cause in any network of endpoints, cycles included.

`dafny verify dfyconfig.toml` checks everything.

## What is taken as given

- A frame decoder accepts only frames of at least 92 bytes that start with the magic and have
  no ACK's or MISS's type byte as their version; it reads HashKey at bytes 40..48 and SeqNum at
  48..56, and a fragment's TxID and SubtreeID at 8..40 and 56..88. The class predicates look at
  the version byte. A tee envelope is a fixed 24-byte header.
- The backend is a map with expiry times, read on one clock, with an atomic set-if-absent;
  it copies values and evicts nothing early. A link to it may lose a request or its answer.
- The token buckets of the IP and group tiers, the group index functions, the clock, the
  sockets and the address resolver are parameters: whatever they answer, the results hold.
- `append` grows an array at most eightfold. Clock readings are unbounded integers.
- The retransmitter and the server use the same plane engines, as `main.go` wires them.

Four comments in the program promise more than its code does; the model follows the code.

- ingress/pipeline.go:23 speaks of order across the multicast and the tee socket, but each call
  of `receive` has queues of its own. `CrossSockets.OvertakenRun` is a run that breaks the
  order, and `CrossSockets.OrderedIffOneSocket` the exact condition.
- proxy/proxy.go:355 says re-cache times mirror ingress, which is not so for fragments:
  `Recovery.BlockPartIsKeptOtherwise` is the input, `Recovery.RecacheTtlAgreesIff` the condition.
- retransmit/retransmit.go:229 says a suppressed frame was already retransmitted, which a lost
  answer, an unroutable frame or a failed write belies: `Suppression.LostAnswerSuppressesAll` is
  the run, `Suppression.SuppressedIsSentIff` the condition.
- ratelimit/ratelimit.go:276 calls sweeping O(1) amortised per new key. That is so of the sweeps
  the size trigger makes, but one new key a window over keys that stay active scans them all:
  `Amortised.NewKeysDoNotPay` is the run for any constant, and
  `SlidingWindow.SlidingWindowLimiter.Allow` the bound with and without such sweeps.

## Model

| member | source | states |
|---|---|---|
| WindowSpec.RateBound | ratelimit/ratelimit.go:206-213 | over any run of the reference limiter no interval of one window's length holds more than `max` admitted events of a key |
| WindowSpec.QuietWindowReadmits | ratelimit/ratelimit.go:206-213 | a key all of whose events are a window old is admitted again if and only if the limit is at least one, however many events it ever had |
| WindowSpec.GrantedIff | ratelimit/ratelimit.go:206-213 | in any run of calls one is granted if and only if fewer than `max` earlier calls for its key were granted within the window before it |
| EventLogs.EventLog.constructor | ratelimit/ratelimit.go:300-305 | a new log holds nothing live and has done no work |
| EventLogs.EventLog.Idle | ratelimit/ratelimit.go:356-359 | a log is idle exactly when none of its admitted events is later than the cutoff |
| EventLogs.EventLog.Reset | ratelimit/ratelimit.go:331-340 | dropping a wholly expired log leaves the live events what the reference filter says, and lets a large array go |
| EventLogs.EventLog.StepHead | ratelimit/ratelimit.go:341-343 | stepping over the expired prefix leaves exactly the events later than the cutoff, one step for each dropped |
| EventLogs.EventLog.Compact | ratelimit/ratelimit.go:344-354 | moving the live events to the front, in place or to a smaller array, keeps them and their order, and counts each one it moves as it moves it |
| EventLogs.EventLog.Expire | ratelimit/ratelimit.go:322-354 | the live events become those the reference filter keeps, at a cost paid by events recorded before |
| EventLogs.EventLog.Append | ratelimit/ratelimit.go:315-319 | recording an event adds it as the last live one and keeps the length and capacity bounds |
| EventLogs.EventLog.Allow | ratelimit/ratelimit.go:307-354 | the answer is the reference's; head steps plus moved entries never exceed twice the recorded events; length stays below twice the live events and capacity at most max(256, 16 x live) |
| SlidingWindow.SlidingWindowLimiter.constructor | ratelimit/ratelimit.go:226-234 | a new limiter remembers nothing |
| SlidingWindow.SlidingWindowLimiter.DeleteIdle | ratelimit/ratelimit.go:279-285 | the scan drops exactly the keys with no event after the cutoff, and counts a visit for each key of the map |
| SlidingWindow.SlidingWindowLimiter.EvictExpired | ratelimit/ratelimit.go:273-298 | a sweep drops only keys with no event in the window, visits each key once, and its visits are paid by keys created and events admitted since the last |
| SlidingWindow.SweepSound | ratelimit/ratelimit.go:263-298 | a sweep that either trigger makes due keeps the amortised account and what the map remembers |
| SlidingWindow.SlidingWindowLimiter.AllowLocked | ratelimit/ratelimit.go:245-271 | the answer and the remembered history are the reference's whether or not the call creates a key, sweeps or rebuilds the map; it sweeps exactly when the key is new and either trigger fires, visits every key then, and drops exactly those with no event in the window |
| SlidingWindow.SlidingWindowLimiter.Allow | ratelimit/ratelimit.go:236-271 | as the reference; the visits its sweeps' scans make, counted in the scan, are at most 3 x keys created + events admitted, and at most 2 x keys created + the visits of sweeps the time trigger alone makes; the map holds at most max(maxKeys, 2 x kept) keys, each kept key with an event in the window before the sweep; after a new key at time t every key has an event later than t - 2 x window |
| SlidingWindow.SlidingWindowLimiter.Run | ratelimit/ratelimit_test.go:355-397 | every run of calls is answered call by call as by the limiter that never forgets and rescans |
| SlidingWindow.RunFresh | ratelimit/ratelimit_test.go:355-397 | the same from a new limiter, for any limit, window and key bound; so each call is granted if and only if fewer than `max` earlier ones for its key were in the window before it |
| Amortised.BusyLimiter | ratelimit/ratelimit.go:254-268 | with n keys kept active and one new key a window, m new keys make the sweeps visit at least n x m keys, for any limit, window and key bound |
| Amortised.NewKeysDoNotPay | ratelimit/ratelimit.go:273-278 | for every constant there is a run whose sweeps visit more keys than that constant times the keys created |
| SlidingWindow.KeysAreRecent | ratelimit/ratelimit.go:273-298 | each key the last sweep kept has an event in the window before it, and while that sweep is less than a window old every key in the map has an event later than the clock less two windows |
| SlidingWindow.SweptBalanced | ratelimit/ratelimit.go:273-298 | the amortised account of scanned keys survives a sweep |
| Limits.Settle | ratelimit/ratelimit.go:53-86 | which limits and windows a configuration with its aliases and defaults means |
| Limits.IpKeysApart | ratelimit/ratelimit.go:153-159 | two valid addresses share a key if and only if they are one address, in its 4-byte or mapped form |
| Limits.IpKeyBytes | ratelimit/ratelimit.go:153-159 | the 16 bytes of an IPv4 address, of an IPv6 address, and of what is neither |
| Limits.Judged | server/server.go:298-334 | a request refused by a tier leaves every later tier's state unchanged |
| Limits.OthersAreNotCharged | ratelimit/ratelimit.go:92-123 | a request changes the sequence verdict only of requests for its own HashKey and StartSeq, the chain tier only of its own source and HashKey, and an unstamped one no chain at all |
| Limits.Limiter.constructor | ratelimit/ratelimit.go:53-86 | the limiters are built with the settled limits and remember nothing |
| Limits.Limiter.Allow | ratelimit/ratelimit.go:88-111 | the IP tier first, then the sequence tier per (HashKey, StartSeq), with the reference's answer and state, and the clock it leaves |
| Limits.Limiter.AllowChain | ratelimit/ratelimit.go:113-123 | HashKey 0 passes uncharged; otherwise the reference's answer and state for (source, HashKey), and the clock it leaves |
| Limits.Limiter.Pass | server/server.go:291-326 | the real limiters, asked in the server's order, give the verdict and reach the state the reference tiers do, on a limiter that can be asked again |
| TierRuns.RefusedLeavesLaterTiers | ratelimit/ratelimit.go:103-123 | an arriving request never touches the chain tier, and goes on to it if and only if the first two admit it |
| TierRuns.StepSeqOk | ratelimit/ratelimit.go:103-111 | every step keeps: the sequence tier's admissions of a key are exactly its requests, within the rate |
| TierRuns.StepChainOk | ratelimit/ratelimit.go:118-123 | every step keeps: the chain tier's admissions of a flow are exactly its lookups, within the rate |
| TierRuns.LookupsAreBounded | server/server.go:291-334 | in every run of any number of workers on the reference tiers, the lookups of one (HashKey, StartSeq) that the sequence tier admitted in any sequence window are at most SequenceMax, and those of one (source, nonzero HashKey) that the chain tier admitted in any chain window at most the chain maximum |
| TierRuns.StepOn | ratelimit/ratelimit.go:103-123 | one tier check on the real limiter has the reference's verdict and state |
| TierRuns.RunOn | server/server.go:291-334 | any interleaving of checks on a real limiter ends in the reference's state with the reference's lookups |
| TierRuns.RunFrom | ratelimit/ratelimit.go:53-86 | the same from a limiter as configured |
| TierRuns.LimiterBoundsLookups | server/server.go:291-334 | the bounds on lookups hold of a configured limiter that sweeps, compacts and rebuilds, in any interleaving |
| TierRuns.AskedInOneGo | server/server.go:291-334 | a request that goes straight through both tiers gets the verdict and leaves the state of one judgement |
| Charges.SequenceRefusalIff | ratelimit/ratelimit.go:92-111 | over any series of served datagrams, one is refused at the sequence tier if and only if it is a request, its IP bucket let it by, and `sequenceMax` requests with its bytes 8..24 were let through in the window before it |
| Charges.ChainRefusalIff | ratelimit/ratelimit.go:113-123 | and at the chain tier if and only if it got that far, its bytes 8..16 are not zero, and `chainMax` requests of its source with those bytes were let through in the window before it |
| Shard.SameKeySameShard | ingress/pipeline.go:183-198 | the shard depends on the inner frame's flow key alone, raw or enveloped |
| Shard.EnvelopeKeepsShard | ingress/pipeline.go:186-198 | a frame shards alike with and without its envelope, on either socket |
| Shard.UnmixMix | ingress/pipeline.go:195-197 | for a fixed HashKey the mixing has an explicit inverse |
| Shard.MixInjective | ingress/pipeline.go:195-197 | for a fixed HashKey different sequence numbers mix differently, before the modulo |
| Shard.SeqNumsShardApart | ingress/pipeline.go:183-198 | two frames with the same bytes 40..48 and different bytes 48..56 have different shards, bare or enveloped |
| Shard.FlowReachesShard | ingress/pipeline.go:183-198 | every flow reaches every shard: the sequence number that does it |
| PipelineEnds.RouteByShard | ingress/pipeline.go:157-160 | two datagrams go to one processor if and only if their shards agree modulo the processors |
| PipelineEnds.FlowReachesProcessor | ingress/pipeline.go:183-198 | every flow reaches every processor that any datagram reaches |
| Slots.HeldCount | ingress/pipeline.go:95-103 | the free list has at least the slots the batch, the queues' capacity and the processors leave over, and is never full while a processor has one |
| Slots.HeldOnce | ingress/pipeline.go:95-98 | a batch slot occurs once in the batch, in no queue and with no processor |
| Pipeline.Configure | ingress/pipeline.go:72-102 | any depth and processor count, 1024 and 4 where below 1, gives queues that together hold the depth and less than one round more, and slots for every place |
| Pipeline.StepPartitioned | ingress/pipeline.go:93-181 | every step moves slots between places without losing or sharing one |
| PipelineOrder.StepIntact | ingress/pipeline.go:133-180 | every step leaves the bytes of each queued or held datagram as they were read |
| PipelineOrder.StepInOrder | ingress/pipeline.go:133-180 | every step keeps each processor's lane (handled, in hand, queued) equal to what was sent to it, in order |
| PipelineRuns.EverySlotOnce | ingress/pipeline.go:95-98 | in every reachable state each slot is in exactly one of free list, batch, queue or processor |
| PipelineRuns.NeverBlocked | ingress/pipeline.go:95-98 | in every reachable state the receiver finds a free slot and a processor can return its own |
| PipelineRuns.NoDeadlock | ingress/pipeline.go:93-181 | for every depth and processor count, no reachable state before the return is stuck |
| PipelineEnds.EndsOnlyWhenTold | ingress/pipeline.go:132-150 | in every run the queues close and `receive` returns only after a cancellation or a read error that is fatal |
| PipelineEnds.PassingErrorReadsAgain | ingress/pipeline.go:139-149 | after a timeout or any passing read error the receiver is back where it was, ready to read any batch |
| PipelineEnds.FatalErrorEnds | ingress/pipeline.go:144-146 | a fatal read error closes the queues |
| PipelineEnds.ArrivalsAreReads | ingress/pipeline.go:139-151 | the arrivals all results speak of are every datagram that every read of the run returned, in order |
| PipelineEnds.DroppedOnlyWhenFull | ingress/pipeline.go:161-176 | in every run a datagram is dropped for a full queue only if its queue was full when its turn came |
| PipelineEnds.RoomIsTaken | ingress/pipeline.go:161-170 | a datagram whose queue has room can be sent on, at once or while it waits |
| PipelineEnds.ProcessorsGoOn | ingress/pipeline.go:104-118 | in every reachable state a processor can take what is queued, handle what it holds and return its slot |
| PipelineRuns.HandledInOrder | ingress/pipeline.go:105-117 | a processor's handled datagrams are routed to it, unchanged, in arrival order |
| PipelineRuns.KeyOrder | ingress/pipeline_test.go:105-176 | in every interleaving, datagrams of one socket with one flow key are handled by one processor in arrival order with the bytes read |
| PipelineRuns.AllAccountedFor | ingress/pipeline.go:133-181 | when receive returns, each datagram read has exactly one fate: truncated, empty, queue full, handled once, or abandoned, the last for at most one batch |
| PipelineRuns.StepRank | ingress/pipeline.go:118-123 | after cancellation every step of the program lowers a nonnegative measure |
| PipelineRuns.ShutdownCompletes | ingress/pipeline.go:118-123 | after cancellation no run is longer than that measure, and one that cannot go on has returned with every queue empty and every processor gone |
| Sockets.OneSocketInOrder | ingress/pipeline.go:23-29 | among any number of sockets, datagrams of one socket and flow key are handled in the order they were read |
| CrossSockets.OvertakenRun | ingress/pipeline.go:23-26 | for any two sockets and any two datagrams their receivers do not skip there is a run in which the one read second is handled first |
| CrossSockets.OrderedIffOneSocket | ingress/pipeline.go:23-29 | two datagrams of one flow key are handled in arrival order in every run if and only if they come in on one socket |
| CacheOrder.HandleLatest | ingress/pipeline.go:217-258 | when a datagram ingress keeps is handled, no datagram of its key that arrived later has been, and its frame becomes the entry of that key alone |
| CacheOrder.StampedIsKept | ingress/ingress.go:256-345 | what the next result calls kept: any frame its class's decoder accepts with a nonzero sequence number, for its class's time |
| CacheOrder.LastSentIsCached | ingress/pipeline.go:23-29 | in every interleaving, once `receive` has returned the cache holds under each flow key the last datagram of that key that was read, sent on and kept, with its class's time from when it was handled, and elsewhere what it held before |
| TtlStore.ClaimTaken | cache/cache.go:88-94 | a set-if-absent that reports success took the key itself and holds it for its whole time |
| TtlStore.GetAfter | cache/cache.go:58-94 | what a later read of any key finds after a set, a delete and a set-if-absent, and when the last one wins |
| TtlStore.FullInjective | cache/cache.go:50-56 | keys of different views never meet, and a full key determines the short one |
| TtlStore.ViewsAreIndependent | main.go:308-319 | however the three views' requests interleave on one backend, for keys of any length, each answers as if it had a store of its own |
| Cache.Store.Put | cache/cache.go:67-72 | the value is kept under the prefixed key for its time, and nothing else changes |
| Cache.Store.Retrieve | cache/cache.go:74-79 | a value exactly when the key is live and the link works |
| Cache.Store.Delete | cache/cache.go:81-86 | the prefixed key is gone, and nothing else changes |
| Cache.Store.SetIfAbsent | cache/cache.go:88-94 | won means the key was not live and now is the caller's; refused without error means it was live |
| Frames.ReadBundleKey | ingress/ingress.go:481-499 | a bundle is read only when its header, magic, version and announced payload are all there, and then its key is bytes 40..56 |
| Ingress.KeptIsStamped | ingress/ingress.go:256-345 | what ingress keeps has the magic, no control type, and a nonzero sequence number |
| Ingress.FrameWriteSelfKeyed | ingress/ingress.go:325-345 | storing a frame under its own key keeps every entry keyed by itself |
| Ingress.OtherSpaceSameFrames | cache/cache.go:50-56 | what the claim views do leaves the cached frames alone |
| Ingress.Worker.Decode | ingress/ingress.go:256-639 | every class yields the flow key in bytes 40..56 and the time of its class (a fragment's of its original's), and an unstamped or undecodable frame nothing |
| Ingress.Worker.ProcessFrame | ingress/ingress.go:256-639 | a stamped frame is stored under its own key for its class's time, anything else is dropped, and all entries stay keyed by themselves |
| Ingress.Worker.Handle | ingress/pipeline.go:217-258 | a datagram stores its inner frame, raw or enveloped; a malformed envelope stores nothing |
| Keeping.StampedIsKept | ingress/ingress.go:256-345 | a frame the decoder of its version byte accepts, with nonzero bytes 48..56, is entered under its bytes 40..56 for the time of its version, a fragment's for that of its original's, bare or enveloped |
| Keeping.BundleIsKept | ingress/ingress.go:434-499 | a bundle with its magic, version, announced bytes and a nonzero number is entered for a transaction's time |
| Keeping.OtherIsDropped | ingress/ingress.go:256-345 | every other datagram leaves the cache as it was |
| Wire.NackReadsBack | proxy/proxy.go:307-315 | a request datagram is accepted and reads back field for field |
| Wire.BuildNack | proxy/proxy.go:307-315 | filling the 64-byte buffer in place gives that datagram |
| Wire.ResponseReadsBack | server/server.go:460-507 | a response reads back as meant, a throttle hint with its low nibble |
| Wire.BuildResponse | server/server.go:463-490 | filling the 16-byte buffer in place gives that datagram |
| Wire.FlagsTellSends | server/server.go:405-431 | the two ACK bits tell exactly which sends went out |
| Retransmit.FragmentFollowsOriginal | retransmit/retransmit.go:164-216 | a fragment with its original's version and id slots goes to the original's group, except that of a bundle, which does if and only if the bundle's header names the group of its id slot |
| Retransmit.ChargedIsSent | server/server.go:376-391 | exactly when the group the fourth tier charges is the group sent to, for every frame class |
| Retransmit.GroupsInBytes | retransmit/retransmit.go:164-216 | the group of a frame by its version byte, with the two fixed groups as numbers |
| Retransmit.FreeFrameIsSent | retransmit/retransmit.go:218-268 | a frame with a group, whose key nobody holds, over a backend and sockets that work, is on every socket once, in order, and its claim runs for the window |
| Retransmit.HeldFrameIsNotSent | retransmit/retransmit.go:224-238 | while the key is held nothing is put on the wire and the claim stays |
| Retransmit.HitIsClaimedAsAsked | retransmit/retransmit.go:303-328 | the claim key computed from a cached frame is the HashKey and SeqNum the request asked for |
| Retransmit.Retransmitter.Claim | retransmit/retransmit.go:219-242 | a send goes on exactly when the claim is reported won, or none is needed; an error suppresses it |
| Retransmit.Retransmitter.Send | retransmit/retransmit.go:218-268 | sent is reported exactly when the claim was won, the frame could be routed and every socket took it; the wire grows by exactly the copies before the first write that fails, by none when suppressed; the claim store by exactly what asking did |
| Retransmit.Retransmitter.SendTo | retransmit/retransmit.go:131-150 | one verbatim copy to the requester, or none on error, and no claim |
| Claims.StepInv | retransmit/retransmit.go:219-242 | every operation of every endpoint keeps: claims of a key do not overlap, each is still entered, and each entry is some claim's |
| Claims.ClaimsNeverOverlap | retransmit/retransmit.go:219-242 | over any run with lost requests and lost answers, two claims of one key are at least the earlier one's window apart |
| Claims.RefusedIffRunning | proxy/proxy.go:230-239 | over a working link a claim is refused if and only if an earlier one of the same key has not run out |
| Claims.ToldIsGranted | retransmit/retransmit.go:224-241 | a claimant told it won was granted the claim, whatever the link did |
| Cluster.StepCachesOk | ingress/ingress.go:256-639 | every step of every endpoint leaves each cached frame under bytes 40..56 of itself |
| Cluster.StepInv | retransmit/retransmit.go:218-268 | every step keeps: who writes or has multicast owns the claim, copies on the wire belong to claims, flagged ACKs to completed sends |
| Cluster.SendsRestOnSeparateClaims | retransmit/retransmit.go:218-268 | for any number of endpoints and any interleaving, two multicast sends of one flow key by different jobs rest on claims at least the earlier one's window apart |
| Cluster.FlaggedAckIsTrue | server/server.go:405-453 | every multicast-flagged ACK comes from the job that took the claim on the key it was asked for and put that frame on every socket of its endpoint, in whatever order it went through them |
| Suppression.OnWireIffAllWritten | retransmit/retransmit.go:244-262 | a claimant's frame is on every socket of its endpoint if and only if it learnt of its claim and its loop has nothing left to write |
| Suppression.SuppressedByHolder | retransmit/retransmit.go:224-238 | in every run a refused job is refused by a running claim of its own key, whose frame is on every socket exactly when that claimant learnt of it and finished writing |
| Suppression.SuppressedIsSentIff | retransmit/retransmit.go:224-238 | for a send suppressed over any link, by a refusal or by an error, in every run: the frame of some running claim of its key is on every socket of that claim's endpoint if and only if some running claimant of the key learnt that it won and has finished writing |
| Suppression.LostAnswerSuppressesAll | retransmit/retransmit.go:228-237 | a run in which a job is suppressed though no copy of its frame ever left, for any endpoint and frame |
| Solo.JobRun | server/server.go:405-453 | a request left to itself goes from its claim through its sockets, as far as the writes succeed, to its answer or its failure |
| Solo.ServedAloneIsARun | server/server.go:405-453 | a hit past the server's tiers, served or failed, with a cache of its own or a shared one, is a run of the cluster from the state it found: the same claim store and cache after, the same bytes to the same groups on the same sockets in the same order, and an ACK exactly when, and with the flags and number, the server sends one |
| Solo.DeliveredAloneIsARun | proxy/proxy.go:250-273 | the delivery of a recovered frame is a run of the cluster: the same cache and claim store after, the same bytes to the same groups on the same sockets in the same order, its unicast and no ACK |
| Server.AnswersAreHonest | server/server.go:433-453 | which answers each outcome may earn: flags are the sends that succeeded, none only where none was to be tried, the flood tier is silent |
| Server.Server.SendThrottled | server/server.go:460-481 | one 16-byte THROTTLED with the bucket and the sequence number |
| Server.Server.SendMiss | server/server.go:483-507 | one 16-byte MISS |
| Server.Server.SendAck | server/server.go:483-507 | one 16-byte ACK with the flags and the sequence number |
| Server.Server.Admit | server/server.go:291-326 | the verdict and new state of the three pre-lookup tiers, and the throttle answer of the one that refused |
| Server.Server.RefuseGroup | server/server.go:396-402 | a group refusal is answered with its bucket, or not at all |
| Server.Server.AllowGroup | server/server.go:371-403 | the bucket of the source and the frame's charged group is asked |
| Server.Server.Multicast | server/server.go:405-426 | suppressed exactly when the claim on the frame's key is not won, completed exactly when routed and written everywhere; what every outcome leaves in the claims, the cache and on the wire |
| Server.Server.SendBack | server/server.go:427-439 | the frame goes back in unicast mode or when a proxy asked, if the source is known |
| Server.Server.Dispatch | server/server.go:405-439 | the flags built up are exactly the sends that completed; a failed multicast ends the request with the copies before the failure |
| Server.Server.Acknowledge | server/server.go:441-453 | an ACK unless every send that was tried came to nothing |
| Server.Server.ServeHit | server/server.go:364-453 | a hit charges its group, is throttled or is repaired and answered |
| Server.Server.ServeMiss | server/server.go:343-360 | a miss is answered once, and queued for recovery only if no proxy sent it and there is room |
| Server.Server.LookUp | server/server.go:328-453 | the cache decides between error, miss and hit under the 16-byte key of the request; nothing is sent upstream from here |
| Server.Server.ProcessNACK | server/server.go:263-458 | the whole request takes the books from before to after as `Processed` says, for every configuration, limiter state and outcome of the world, the requests sent upstream included |
| Answers.RepairedIffHit | server/server.go:263-439 | a frame is sent if and only if the request was well formed, passed every tier and found it |
| Answers.UnrepairedIsQuiet | server/server.go:263-403 | any other request changes neither wire nor cache nor claims |
| Answers.ClaimsAfterRequest | server/server.go:405-426 | for every request: a hit in multicast mode asks for the claim on the key it wants, whatever comes of the send, and no other request touches the claims |
| Answers.RunningClaimsStay | retransmit/retransmit.go:219-242 | no request removes or shortens a running claim, nor enters one under a key it did not ask for |
| Answers.FramesStay | server/server.go:328-453 | no request changes a cached frame, whether or not claims share the backend |
| Answers.OneAnswerAtMost | server/server.go:263-507 | at most one response, to the source alone; a malformed, range or flood request changes nothing at all |
| Answers.AckIff | server/server.go:441-453 | exactly when an ACK goes out, and with which flags |
| Answers.AckIsTrue | server/server.go:405-453 | an ACK answers a hit past every tier; its multicast flag means this request took the claim and every socket took the frame of the key asked for; its unicast flag that the frame went to the source; no flag that nothing was to be tried |
| Answers.OnlyOpenMissEnqueues | server/server.go:354-358 | only a miss of an unflagged request starts a recovery, of exactly its own gap |
| Requests.RequestReads | server/server.go:274-283 | which datagrams are requests, and the offsets of their fields |
| Requests.StageIff | server/server.go:263-403 | past the tiers a request is a hit if and only if the entry under its bytes 8..24 is live and the lookup works; when it is refused by the IP tier, by the group tier, failed or missed |
| Requests.MissStartsRecovery | server/server.go:343-360 | a job for the gap in the request's own bytes is queued if and only if it passed the tiers, missed, is not flagged in bit 0 of byte 7, and there is a proxy with room |
| Requests.AnswerInBytes | server/server.go:310-458 | the response byte for byte: MISS, THROTTLED with bucket 2, 3 or 4, ACK with its two bits, each if and only if the modes and the outcome call for it, to the source alone |
| Requests.FreeHitIsMulticast | server/server.go:405-412 | a hit in multicast mode whose key no sibling holds puts its frame on every socket and claims the key |
| Requests.HeldHitIsNotMulticast | server/server.go:413-422 | in another mode, or while a sibling holds the key, it puts nothing there and claims nothing |
| Requests.FailedHitEnds | server/server.go:423-426 | a multicast that cannot be routed or that a socket refuses ends the request, with the copies before it and no unicast and no answer |
| Requests.HitIsUnicast | server/server.go:428-439 | a served hit is unicast if and only if unicast mode is on or a proxy asked, the source is known and the write works |
| Requests.ProxiedBytes | proxy/proxy.go:307-316 | the 64 bytes of a recovery's request |
| Answers.AsksNobody | server/server.go:354-358 | serving a request sends nothing upstream, whatever its outcome |
| Proxy.AddrBytesInjective | proxy/proxy.go:224-229 | address bytes and port tell requesters apart, for addresses of any length |
| Proxy.SameClaimIff | proxy/proxy.go:200-229 | two jobs contend for one claim if and only if they want the same gap for the same requester; a gap-only claim never meets a requester's |
| Proxy.ClaimsByRequester | proxy/proxy.go:203-229 | without unicast delivery one claim serves all who want a gap; with it each requester has its own |
| Proxy.SkippedIffInFlight | proxy/proxy.go:193-239 | in any run of sibling endpoints a job whose claim is answered is skipped if and only if an earlier claim of the same gap and requester is running |
| Proxy.ClaimIsTake | proxy/proxy.go:230-239 | the client's claim, its effect and its decision to go on are those of the claims that result is about |
| Proxy.ResponsesArePassedOver | proxy/proxy.go:321-341 | of the responses an upstream sends, only a MISS ends the wait |
| Proxy.NextArrival | proxy/proxy.go:321-341 | what any one datagram does to the wait: end it with the frame, end it with nothing, or nothing |
| Proxy.CachedFrameComesBack | proxy/proxy.go:321-341 | after any datagrams that are passed over, a cached frame of at least a header's length is returned verbatim, and a shorter one is passed over |
| Proxy.Client.constructor | proxy/proxy.go:131-152 | the defaults: all upstreams unless fewer are asked for, a positive window and queue |
| Proxy.Client.Enqueue | proxy/proxy.go:154-166 | a job is queued if and only if there is room, and never blocks |
| Proxy.Client.Fetch | proxy/proxy.go:287-342 | reading into one buffer with earlier bytes left in it yields what the arrivals amount to, and one flagged request is sent to the upstream named |
| Proxy.FoundIsFirst | proxy/proxy.go:241-251 | the frame of a recovery is what the `i`th exchange brings when it is the first to bring one and nothing stopped the recovery before |
| Proxy.NothingSought | proxy/proxy.go:241-285 | when no upstream returns a frame the recovery was stopped if it was cancelled in time and is exhausted otherwise |
| Proxy.AskedInTurn | proxy/proxy.go:241-249 | the `i`th exchange's request goes to the `i`th upstream, right after those of the turns before it, exactly if no earlier one brought a frame and nothing stopped the recovery; past the last turn nothing is sent |
| Proxy.InquiryAsked | proxy/proxy.go:241-249 | a recovery asks at most as many upstreams as it may, those first in the list, and only what it is for |
| Proxy.Client.Keep | proxy/proxy.go:344-369 | a recovered frame is stored under bytes 40..56 of itself for its version's time, whatever else shares the backend |
| Proxy.Client.TakeClaim | proxy/proxy.go:198-239 | the claim is asked for under the job's key, and the job given up only when it is answered and lost |
| Proxy.Client.AskAround | proxy/proxy.go:241-279 | the requests sent are exactly those of the turns taken, each the job's own and to its upstream; what comes back, or that it was stopped, is what the arrivals determine |
| Proxy.Client.Reinject | proxy/proxy.go:253-267 | the claim, the copies and the outcome of multicasting a recovered frame, which leave the cached frames alone |
| Proxy.Client.Deliver | proxy/proxy.go:250-273 | what keeping, multicasting and unicasting as the modes say leave in every store, on the wire and with the requester |
| Proxy.Client.Recover | proxy/proxy.go:189-285 | which of skip, stop, exhaustion and recovery it is, and exactly what it leaves in the claims, the cache and on the wire and sends to which upstream |
| Recovery.ProxiedRequestReadsBack | proxy/proxy.go:307-315 | the proxied request is accepted upstream as the gap that was missed, flagged |
| Recovery.FlaggedNeverEnqueues | server/server.go:354-358 | a flagged request never starts a recovery, whatever becomes of it |
| Recovery.UpstreamReturnsFrame | server/server.go:427-439 | an upstream that serves a flagged request returns the frame cached under the gap's key, in every mode |
| Recovery.FrameStays | proxy/proxy.go:344-353 | a cached frame stays through any requests that do not replace its key |
| Recovery.DeliveredHas | proxy/proxy.go:250-273 | a frame whose re-cache works is in the cache under its own key after the whole delivery |
| Recovery.GapIsRepairedAcrossDomains | proxy/proxy.go:241-353 | from upstream hit to downstream hit: the recovery returns the upstream's bytes past any passed-over datagrams, and in the state it leaves every later request for the gap that the tiers admit is a hit on them until they expire and not after |
| Recovery.MissIsRepaired | server/server.go:343-360 | the same from the downstream miss on: the miss queues exactly its gap, and the recovery of that job makes every later request with the same bytes 8..24 that the tiers admit a hit until the frame expires and not after |
| Recovery.RecoveredIsMulticast | proxy/proxy.go:253-267 | a recovered frame whose key no sibling holds is put on every socket of an endpoint that multicasts |
| Recovery.FillsGapIff | proxy/proxy.go:326-353 | a recovery that kept its frame has filled its gap if and only if the first datagram shaped like a frame carried the gap's key |
| Recovery.StrayFrameEndsRecovery | proxy/proxy.go:326-334 | a 92-byte bundle of another flow, arriving first, ends the recovery and leaves the gap open |
| Recovery.RecacheTtlAgreesIff | proxy/proxy.go:355-369 | the re-cache time is ingress's if and only if the frame is no fragment, or is one of a class with the transaction time |
| Recovery.BlockPartIsKeptOtherwise | proxy/proxy.go:355-369 | a fragment of a block is received for the block's time and re-cached for a transaction's, wherever the two differ |
| Recovery.ShortBundleIsNotRecovered | proxy/proxy.go:326-334 | a 66-byte bundle that ingress caches is not recovered; with `Proxy.CachedFrameComesBack`, recovery works if and only if the frame is at least 92 bytes |
| Network.RecoverMessages | proxy/proxy.go:241-249 | the requests a recovery sends, as `Proxy.Client.Recover` leaves them, are its own, to its node's upstreams, and as many as it counts |
| Network.StepInv | server/server.go:354-358 | every step of every network keeps: recoveries come from deliveries of unflagged requests, one each, and whatever is sent upstream, in serving requests too, from recoveries |
| Network.MissAddsRecovery | server/server.go:354-358 | every delivery of an unflagged request that misses where a proxy has room starts the recovery of its gap |
| Network.OneHopPerRequest | proxy/proxy.go:241-249 | in any upstream graph, with loss, duplication and reordering, one delivery of an unflagged request causes at most one recovery and MaxEndpoints proxied requests, each to an upstream of its node, reading back as flagged and for the same gap, none causing another recovery; nothing else is sent upstream |

## Left out

- Sockets, joins, socket options and batched reads: system calls; a read is modelled as writing batch slots alone.
- Metrics, logging, tracing, flag parsing and the rest of main.go: no algorithm, apart from the three cache prefixes.
- Control-group prefix selection, Partition, excludeOwnSource, hashInstanceID and the beacon: would only add easy members.
- The inside of the token buckets, the frame codecs, the shard engines, the cache backends and the resolvers: not part of this model, see "What is taken as given".
- The cached source labels of the processors: they serve log lines.
- SlidingWindow.SlidingWindowLimiter.Allow: the copies into a rebuilt map are not counted with the visits of the scans.
- EventLogs.EventLog.Allow: the entries that growing an array copies are not in its cost, since the language runtime does the copying.
- Server.Server.ProcessNACK: holds the tiers as their reference state; `Limits.Limiter.Pass` proves that the limiters that sweep and compact give the same verdicts and reach the same state.
- Server.Server.ProcessNACK: serves one request at a time; the interleaving of requests of one or many endpoints is in `Cluster`, of which `Solo` shows a served request to be a run, and, for the tiers, in `TierRuns`.
- Cluster.FlaggedAckIsTrue: the tiers are not part of that state machine, which lets every request through; refusing some only removes runs.
- Network.OneHopPerRequest: a recovery is one step there, which sends what `Proxy.Client.Recover` ensures it sends; a request delivered twice may start two.
- CacheOrder.LastSentIsCached: of one socket with a cache nobody else writes and links that work; across sockets the order is not kept, see `CrossSockets.OrderedIffOneSocket`.
- Range requests: the endpoint ignores them, and so does the model.
