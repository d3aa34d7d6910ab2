# Oumi'Go fleet protocols, verified

A Dafny model of the stateful protocols that carry requests and telemetry through an
Oumi'Go fleet, and of the parsers and folds they depend on:

- **Admission** (`Pool`, `PoolRuns`, `WorkerPools`, `Forward`): the router's FIFO slots over
  the serving workers, with per-request eligibility, negotiated capacities, timeouts that race
  with grants, and the life of one slot in a forwarded request.
- **Tunnels** (`Tunnels`, `TunnelRuns`, `TunnelStranding`, `TunnelConns`): lending parked
  connections to waiting requests, and the byte stream one connection carries.
- **Telemetry** (`MetricsBuffers`, `MetricStores`, `Pipeline`, `Mirror`, `MirrorRuns`, `Fleet`):
  sample, buffer, report, upsert, mirror, and all of it end to end.
- **Agent loop** (`GuardChains`, `Streams`, `Chat`, `ChatProtocol`, `ChatOutcomes`,
  `ChatBuffering`, `ChatRequests`, `Responses`): one chat request with tools, guards,
  streaming and buffering.
- **Audio shaping** (`Base64`, `Wav`, `Trimming`, `AudioCap`): measuring audio from a partly
  decoded header, and trimming a request to a budget.
- **Worker lifecycle** (`Coordinators`), **sliding windows** (`Windows`), **quantiles**
  (`Quantiles`), **tool schemas** (`Tools`).

Code that changes state is a class or an in-place method here too; each such method is proved
equal to a function of the old state, and the lemmas about whole runs are about those
functions. Concurrency is a step machine: one event per critical section between two `await`s,
in any order the code allows. Random choices, send outcomes, clocks, model replies, tool
bodies and registry contents are parameters of the events, so every behaviour of theirs is
covered. `dafny verify dfyconfig.toml` checks the whole project.

Where the code does not meet a promise, the model keeps the code, states exactly when the
promise holds, and exhibits an input for which it does not:

- `_relay` releases the slot only after `await upstream.aclose()`: a streamed slot leaks exactly
  when that close raises or the body is never iterated (`Forward.Serve`, `Forward.LeakingScript`).
- A tunnel connection is stranded exactly when its request was granted it, interrupted after
  that and then resumed: `TunnelRegistry.acquire` has no hand-back
  (`TunnelStranding.StrandedIffInterrupted`, `TunnelStranding.StrandingRun`).
- A row reported later than the watermark minus the overlap is missed by the mirror unless it
  was there already (`MirrorRuns.LateRowsAreMissed`, `MirrorRuns.LateRowIsMissed`); reports
  delivered within the overlap of their sampling are never late (`Fleet.PromptIsOnTime`).
- Buffered and live answers differ exactly when the last streamed reply broke off or timed out
  after some text (`ChatBuffering.BufferingPreservesMeaning`, `ChatBuffering.TimedOutStreamDiffers`).
- Eviction drops something exactly when the span is at capacity and the chunk positive
  (`MetricsBuffers.EvictsExactlyOnOverflow`); the newest slot is safe for all rows exactly when
  the chunk is not wider than the capacity (`MetricsBuffers.NewestSafeIff`,
  `MetricsBuffers.WideChunkDropsAll`).
- A WAV file is measured exactly when no chunk before the data chunk is empty, the data header
  lies within the first 576 bytes and the rate is positive (`Wav.WellFormedMeasures`,
  `Wav.EmptyChunkIsBilledAtCeiling`).
- Validating an override raises a `TypeError` exactly when some property's `type` is a list or a
  dict (`Tools.OverrideRaisesIff`, `Tools.NullableTypeRaises`).

## Model

| member | source | states |
|---|---|---|
| PoolRuns.SlotsConserved | src/oumigo/service/manager/router/server.py:190-245 | conservation: in every interleaving of acquire, promote, resume, interrupt and release, under any registry changes, the in-flight count of a worker is the number of requests holding a slot on it, unresumed grants included |
| PoolRuns.FairInEveryRun | src/oumigo/service/manager/router/server.py:179-245 | at every step of every run: whoever gains a slot got a routable worker it accepts within its capacity and no older live waiter accepts that worker; after each promotion no live waiter accepts a worker with a free slot; nobody else loses a slot |
| PoolRuns.ReleaseGuardHolds | src/oumigo/service/manager/router/server.py:226-230 | in every run, whoever gives a slot back is counted, so the `> 0` guard never fails |
| PoolRuns.InterruptedKeepsNoSlot | src/oumigo/service/manager/router/server.py:209-220 | a timed-out or cancelled waiter holds no slot once its coroutine has resumed, even if one was granted in the race window, and never again later |
| PoolRuns.PassOutcome | src/oumigo/service/manager/router/server.py:232-245 | one promotion pass keeps the invariant, overtakes nobody, takes no slot away and leaves no servable waiter |
| PoolRuns.AcquireKeeps | src/oumigo/service/manager/router/server.py:198-210 | an arriving request, whatever becomes of it, breaks neither conservation nor order nor work conservation |
| PoolRuns.ArrivalOutcome | src/oumigo/service/manager/router/server.py:190-210 | in every run, against the pool its promotion pass leaves: an arriving request holds a slot iff a listed, SERVING, reachable worker it accepts is below its cap; it is refused iff no such worker is listed at all; otherwise it waits last in the queue on a pending future |
| Pool.PassConservesWork | src/oumigo/service/manager/router/server.py:232-245 | for any queue and any random draws, no waiter kept by a pass can use a free slot, so a saturated model never blocks another |
| Pool.Available | src/oumigo/service/manager/router/server.py:179-185 | exactly the listed, routable, accepted workers below their capacity |
| Pool.AnyMayBeChosen | src/oumigo/service/manager/router/server.py:204 | every usable worker may be the one drawn |
| WorkerPools.WorkerPool.constructor | src/oumigo/service/manager/router/server.py:148-162 | an empty pool whose default capacity is at least one |
| WorkerPools.WorkerPool.TakeSlot | src/oumigo/service/manager/router/server.py:222-224 | one more in flight on that worker, nothing else changed |
| WorkerPools.WorkerPool.Promote | src/oumigo/service/manager/router/server.py:232-245 | the in-place loop is the promotion function over the whole queue, for some random draws |
| WorkerPools.WorkerPool.Release | src/oumigo/service/manager/router/server.py:226-230 | gives one slot back and promotes |
| WorkerPools.WorkerPool.Acquire | src/oumigo/service/manager/router/server.py:190-210 | promotes, then admits iff a wanted worker has room, refuses iff none is listed, and queues last otherwise |
| WorkerPools.WorkerPool.Abandon | src/oumigo/service/manager/router/server.py:211-220 | leaves the queue, or hands a slot granted in the race window back |
| Forward.SendWithRetry | src/oumigo/service/manager/router/server.py:296-308 | at most one send, two through a tunnel; a resend only after failures before any response; success exactly when some allowed attempt succeeds, else the failure of the last |
| Forward.Relay | src/oumigo/service/manager/router/server.py:279-290 | what comes through is the body up to where it was cut; however it ends, the slot goes back once, unless closing upstream fails |
| Forward.LeakingScript | src/oumigo/service/manager/router/server.py:285-290 | a streamed request that leaks its slot: everything succeeds but the close |
| Forward.Attempted | src/oumigo/service/manager/router/server.py:465-560 | which exits of the try block hold, hand over or have returned the slot |
| Forward.Serve | src/oumigo/service/manager/router/server.py:465-560 | the slot goes back exactly once on every exit, zero times exactly in the two leak cases, never twice; a response exactly when every stage succeeded, else the first failure, an upstream one as an HTTP error |
| MetricsBuffers.EvictionKeepsRecent | src/oumigo/service/worker/metrics.py:689-704 | for 0 < chunk <= capacity the loop ends with the span below capacity, having dropped an oldest prefix of whole slots that never contains the newest, nor anything within capacity minus chunk of it |
| MetricsBuffers.EvictsExactlyOnOverflow | src/oumigo/service/worker/metrics.py:689-704 | for any rows, capacity and chunk: something is dropped exactly when the span is at capacity and the chunk is positive |
| MetricsBuffers.EvictionMakesRoom | src/oumigo/service/worker/metrics.py:689-704 | with any positive chunk the result is empty or spans below capacity |
| MetricsBuffers.EvictsWholeChunks | src/oumigo/service/worker/metrics.py:689-704 | the last chunk to go began while the span was still at capacity, and went entirely: no chunk too many |
| MetricsBuffers.OldestChunkGoes | src/oumigo/service/worker/metrics.py:697-703 | what lies within a chunk of the oldest row goes when anything does |
| MetricsBuffers.NewestSafeIff | src/oumigo/service/worker/metrics.py:689-704 | the newest slot survives for all rows exactly when the chunk is not wider than the capacity (or disables eviction) |
| MetricsBuffers.WideChunkDropsAll | src/oumigo/service/worker/metrics.py:691-698 | rows that a wider chunk drops altogether, for every such capacity and chunk |
| MetricsBuffers.MetricsBuffer.EvictLocked | src/oumigo/service/worker/metrics.py:689-704 | the nested loops terminate and compute the eviction function |
| MetricsBuffers.MetricsBuffer.Append | src/oumigo/service/worker/metrics.py:663-667 | new rows go last, then eviction |
| MetricsBuffers.MetricsBuffer.Restore | src/oumigo/service/worker/metrics.py:669-673 | a failed batch goes first, then eviction |
| MetricsBuffers.MetricsBuffer.Drain | src/oumigo/service/worker/metrics.py:675-679 | takes everything, leaves nothing |
| MetricsBuffers.MetricsBuffer.FlushOnce | src/oumigo/service/worker/metrics.py:821-835 | a failed report leaves the batch in front of what any number of appends left meanwhile; a successful one leaves only the latter |
| MetricStores.UpsertAt | src/oumigo/service/manager/control/store.py:61-78 | a batch gives a key the value of its last point for that key and leaves other keys alone |
| MetricStores.RedeliveryChangesNothing | src/oumigo/service/manager/control/store.py:61-82 | ingesting a batch again leaves what one delivery and the later pruning leave |
| MetricStores.MetricStore.Ingest | src/oumigo/service/manager/control/store.py:61-89 | upserts the batch, prunes by the window, returns the number of rows |
| Pipeline.EveryRowInOnePlace | src/oumigo/service/worker/metrics.py:663-704 | in every run every sampled row is in exactly one of buffered, in flight, acknowledged and evicted, once |
| Pipeline.StoreHoldsDelivered | src/oumigo/service/manager/control/store.py:61-87 | exactly-once effect: whatever was lost, delivered or redelivered, the table holds exactly the delivered rows not yet pruned, with their sampled values |
| Pipeline.NothingVanishes | src/oumigo/service/worker/metrics.py:821-835 | a sampled row neither waiting nor evicted nor outdated is in the store with its value |
| Pipeline.BufferBounded | src/oumigo/service/worker/metrics.py:649-704 | in every run the in-flight batch followed by the buffer is in slot order and the buffer's span is below capacity |
| Pipeline.FlushLeaves | src/oumigo/service/worker/metrics.py:821-835 | a report attempt with any samples meanwhile and any outcome leaves in the runs what `FlushOnce` leaves in the buffer and `Ingest` in the store |
| Mirror.MetricMirror.Refresh | src/oumigo/service/manager/dashboard/source.py:58-99 | asks for what is newer than the watermark minus the overlap, or than the window start without a watermark; a successful pull merges its rows, advances the watermark, prunes, takes the names if they came and clears the error; a failed one changes nothing but the error shown |
| Mirror.LikeIgnoresCase | src/oumigo/service/manager/control/store.py:127-132 | a prefix matches letters of either case and all other characters as they are |
| MirrorRuns.RefreshIsAStep | src/oumigo/service/manager/dashboard/source.py:51-82 | one refresh of the mirror object against a store, with reports arriving in between, is the answer and merge steps of the runs, or fails and changes nothing they see |
| MirrorRuns.MirrorAgrees | src/oumigo/service/manager/dashboard/source.py:51-82 | in every run with on-time reports and a store that retains longer, reports arriving at any moment of a refresh, after every merge the mirror holds exactly the pulled rows newer than its cutoff that the store held when it answered |
| MirrorRuns.QuietRefreshAgrees | src/oumigo/service/manager/dashboard/source.py:58-82 | with no report between answer and merge that is the store as it is |
| MirrorRuns.LateRowsAreMissed | src/oumigo/service/manager/dashboard/source.py:51-56 | for a report of any age: the next refresh agrees if and only if every late row was already mirrored with the value the report left |
| MirrorRuns.LateRowIsMissed | src/oumigo/service/manager/dashboard/source.py:51-56 | a run whose last refresh misses a row 100 seconds late with an overlap of 60 |
| MirrorRuns.PullAt | src/oumigo/service/manager/control/store.py:116-136 | which rows a pull brings into agreement |
| Fleet.PromptIsOnTime | src/oumigo/service/manager/dashboard/source.py:51-56 | a batch delivered within the overlap of the sampling of each of its rows, restored backlog included, is on time for the mirror whatever it has seen |
| Fleet.DashboardShowsDelivered | src/oumigo/service/manager/dashboard/source.py:58-82 | end to end: in every run of workers, network, store and dashboard with prompt reports, after every merge the mirror shows exactly the pulled rows newer than its cutoff delivered at least once when the store answered, with their sampled values |
| GuardChains.ConcatIsThen | src/oumigo/guard/chain.py:98-115 | a concatenation evaluates as the first chain and, unless it halted, the second on its transformed content, flags in order |
| GuardChains.FirstHaltDecides | src/oumigo/guard/chain.py:98-124 | a chain halts exactly when some applicable guard, shown what those before it left, answers a halting verdict or raises, while none before it did; that verdict, or a BLOCK with the error, is the chain's |
| GuardChains.ChainMeaning | src/oumigo/guard/chain.py:98-124 | guard by guard, without reference to the evaluation: each guard is shown the content as transforms before it left it, the flags are those raised on the way, and the first denial or ALLOW is the verdict |
| GuardChains.OutcomeShape | src/oumigo/guard/chain.py:98-115 | only ALLOW or a halting verdict comes out; only FLAGs are collected |
| GuardChains.InactiveIsIdentity | src/oumigo/guard/chain.py:70-96 | at a point outside the active points the chain is the identity with ALLOW |
| GuardChains.ActivePoints | src/oumigo/guard/chain.py:88-96 | exactly the points some guard is consulted at |
| GuardChains.EvaluateChain | src/oumigo/guard/chain.py:98-115 | the loop computes the chain's meaning |
| Streams.StreamRebuilds | src/oumigo/api/agent/chat.py:277-313 | for any split into deltas and any interleaving across indices, folding rebuilds the text, the reasoning, the last finish reason and every tool call at its index |
| Streams.SlotsFoldSeparately | src/oumigo/api/agent/chat.py:591-603 | each index is folded from its own deltas only, in their order |
| Streams.SortedCalls | src/oumigo/api/agent/chat.py:311-312 | the calls in increasing index order |
| Chat.StreamedMatchesWhole | src/oumigo/api/agent/chat.py:241-313 | the streamed assistant message and answer match the non-streamed ones, up to empty versus absent content |
| ChatProtocol.TextMatchesYields | src/oumigo/api/agent/chat.py:145-239 | in every request, at every yield, the response text is the concatenation of the answer pieces yielded so far |
| ChatProtocol.CallsAnsweredAndBounded | src/oumigo/api/agent/chat.py:145-239 | without a prompt-rewriting guard, model call i is sent the opening messages, the user's as the guards left it, and exactly the i rounds before it, in which every tool call is answered in order by what it came to, case by case on the tool, the arguments and the guards; at most `max_iterations` calls are made |
| ChatProtocol.ToolLoopAnswers | src/oumigo/api/agent/chat.py:217-232 | the loop adds for each tool run, in order, its record and the tool message telling its result; it ends after the first tool over which a guard ends the request or the deadline passes, with that reason, and runs all otherwise |
| ChatProtocol.RecordsAreTold | src/oumigo/api/agent/chat.py:315-345 | however a request ends, its tool messages in order tell exactly the results recorded on the response |
| ChatProtocol.HistoryIsRecent | src/oumigo/api/agent/chat.py:473-487 | trimming after every request keeps exactly the last `2 * max_history_turns` messages of the whole conversation |
| ChatOutcomes.TurnOutcome | src/oumigo/api/agent/chat.py:241-313 | the model is asked exactly when the prompt guards do not deny, with exactly the messages they left; what it replies, whole or streamed, is said, thought aloud, kept as reasoning and returned as it was; a denial is said instead |
| ChatOutcomes.OutputOutcome | src/oumigo/api/agent/chat.py:417-453 | a buffered answer is screened at the point that fits it; denied, the reason is said and kept in its place and the request ends; else what the guards left of it is said and kept |
| ChatOutcomes.RoundOutcome | src/oumigo/api/agent/chat.py:182-234 | another round follows exactly when a call is left, the deadline has not passed, and a complete reply asked for tools that all ran; otherwise the finish reason names what was missing |
| ChatOutcomes.RequestOutcome | src/oumigo/api/agent/chat.py:145-239 | a denied user message is answered with the reason and the model never asked; otherwise the rounds start from it as the guards left it, which is also what is remembered, and a timeout is marked in the text |
| ChatBuffering.BufferingPreservesMeaning | src/oumigo/api/agent/chat.py:417-444 | when output guards allow content unchanged, buffered and live requests have the same messages, model calls, tools and finish reason; the same text exactly when the streamed reply to the last model call did not break off or time out after some text, and shorter by just that text otherwise |
| ChatBuffering.PartialIsBrokenText | src/oumigo/api/agent/chat.py:182-234 | what a broken request had shown is the text of the streamed reply to its last model call |
| ChatBuffering.TimedOutStreamDiffers | src/oumigo/api/agent/chat.py:277-313 | a world whose one reply times out after some text: live shows it, buffered does not |
| ChatBuffering.OutputWatchersChangeNothing | src/oumigo/api/agent/chat.py:97-101 | appending guards that only allow, and only look at output points, meets that condition |
| ChatRequests.Exchange.Guard | src/oumigo/api/agent/chat.py:384-403 | evaluates the chain and records its flags |
| ChatRequests.Exchange.RunStream | src/oumigo/api/agent/chat.py:277-313 | the in-place fold of a stream is the specified turn |
| ChatRequests.Exchange.RunTurn | src/oumigo/api/agent/chat.py:241-275 | prompt guard, then a streamed or whole turn |
| ChatRequests.Exchange.ReleaseOutput | src/oumigo/api/agent/chat.py:417-444 | screens a buffered turn, then releases, rewrites or halts it |
| ChatRequests.Exchange.RunTool | src/oumigo/api/agent/chat.py:315-345 | every failure becomes a result for the model |
| ChatRequests.Exchange.RunGuarded | src/oumigo/api/agent/chat.py:347-382 | guards before and after the tool body |
| ChatRequests.Exchange.RunTools | src/oumigo/api/agent/chat.py:216-234 | the tool loop with its early exits |
| ChatRequests.Exchange.RunRounds | src/oumigo/api/agent/chat.py:182-234 | the rounds with every way out |
| ChatRequests.Exchange.RunRequest | src/oumigo/api/agent/chat.py:145-239 | the whole in-place request equals the specified one, for every world and guard chain |
| ChatRequests.OumiGoChat.Request | src/oumigo/api/agent/chat.py:114-143 | in any world of its own, on the system prompt, the history and the new message: buffers exactly when an output point is active, and unless it raised remembers the exchange, keeping the last turns |
| Responses.OumiGoResponse.Iterate | src/oumigo/api/agent/response.py:79-90 | iterating, stopped early or not, yields exactly what the text gains; once consumed it yields the whole text once |
| Tunnels.TunnelRegistry.Add | src/oumigo/service/manager/tunnel.py:110-119 | a new connection goes to the oldest live waiter, else it is parked |
| Tunnels.TunnelRegistry.Remove | src/oumigo/service/manager/tunnel.py:121-129 | forgets a connection, and an emptied node |
| Tunnels.TunnelRegistry.Acquire | src/oumigo/service/manager/tunnel.py:131-141 | lends the first open parked connection, dropping closed ones, else queues |
| Tunnels.TunnelRegistry.Leave | src/oumigo/service/manager/tunnel.py:146-148 | the waiter leaves the queue, nobody else does |
| Tunnels.TunnelRegistry.Stats | src/oumigo/service/manager/tunnel.py:153-158 | counts open connections and those of them not lent |
| TunnelRuns.LentOnce | src/oumigo/service/manager/tunnel.py:110-148 | in every run no connection is handed out twice, and each belongs to exactly one request |
| TunnelRuns.ParkedAreSpare | src/oumigo/service/manager/tunnel.py:110-148 | in every run parked connections are distinct, un-borrowed and the node's own, and none is parked while a live request waits for that node |
| TunnelRuns.ServedInOrder | src/oumigo/service/manager/tunnel.py:110-148 | at every step the oldest live waiter is served, and a request keeps what it was given |
| TunnelRuns.BorrowerGets | src/oumigo/service/manager/tunnel.py:131-141 | in every run a borrower gets the first parked connection still open, those before it being dropped, and waits last in the queue iff there is none |
| TunnelRuns.DialIsUsed | src/oumigo/service/manager/tunnel.py:110-119 | in every run a new connection goes to a request waiting for its node iff there is one, and is parked last otherwise |
| TunnelRuns.GoneIsGone | src/oumigo/service/manager/tunnel.py:121-129 | in every run a removed connection is neither known nor parked, and the node's others stay as they were |
| TunnelRuns.IdleCountsParked | src/oumigo/service/manager/tunnel.py:153-158 | what `tunnel_idle` counts are exactly the open parked connections |
| TunnelStranding.StrandedIffInterrupted | src/oumigo/service/manager/tunnel.py:140-148 | in every run a request has lost a connection if and only if it was granted it, interrupted after the grant and resumed after that; a lost connection is never parked again |
| TunnelStranding.LentIsSomewhere | src/oumigo/service/manager/tunnel.py:110-148 | in every run a connection handed out is with exactly one request, in use, granted but not yet seen, or lost |
| TunnelStranding.StrandingRun | src/oumigo/service/manager/tunnel.py:131-148 | a concrete run that strands a connection |
| TunnelConns.NothingLostOrReordered | src/oumigo/service/manager/tunnel.py:55-85 | in every run, bytes read, then pending, then queued are the bytes pumped |
| TunnelConns.NoReadExceedsItsLimit | src/oumigo/service/manager/tunnel.py:78-85 | a read returns the rest of the current message, or the next one, cut to its limit, so nothing only at the end of the stream |
| TunnelConns.EofIsFinalAndSticky | src/oumigo/service/manager/tunnel.py:55-85 | an empty read means the pump ended and all bytes were delivered, and every later read is empty |
| TunnelConns.ReadAfterEnd | src/oumigo/service/manager/tunnel.py:73-85 | after the pump ended a read never waits, and is EOF exactly when every byte has been read |
| TunnelConns.TunnelConn.Pump | src/oumigo/service/manager/tunnel.py:55-71 | queues the non-empty messages in order, then closes with one EOF mark |
| TunnelConns.PumpDelivers | src/oumigo/service/manager/tunnel.py:55-71 | what a pump queues joins to the bytes received, in non-empty messages, and then one EOF mark |
| TunnelConns.TunnelConn.ReadSome | src/oumigo/service/manager/tunnel.py:78-85 | one in-place read is the specified one |
| Base64.DecodeInvertsEncode | src/oumigo/service/manager/router/shaping.py:76-82 | the lenient decoder inverts the encoding of section 4 of RFC 4648 on all byte strings |
| Base64.ForeignIsSkipped | src/oumigo/service/manager/router/shaping.py:76-82 | characters outside the alphabet make no difference to the decoder, wherever they stand |
| Base64.TestVectors | src/oumigo/service/manager/router/shaping.py:76-82 | test vectors of section 10 of RFC 4648 and the last symbols of its table |
| Base64.ByteLenIsExact | src/oumigo/service/manager/router/shaping.py:68-73 | on every encoding the length shortcut is the decoded length |
| Base64.HeadIsPrefix | src/oumigo/service/manager/router/shaping.py:76-82 | on every encoding the head shortcut is the first 576 decoded bytes, or all of fewer |
| Wav.WavSeconds | src/oumigo/service/manager/router/shaping.py:85-111 | the chunk walk terminates on any bytes and computes the specified duration |
| Wav.WellFormedMeasures | src/oumigo/service/manager/router/shaping.py:85-111 | for any list of chunks, the first h bytes measure as min(declared, actual) data over the byte rate exactly when no earlier chunk is empty, the data header is among them and the rate is positive; otherwise as nothing |
| Wav.WalksChunks | src/oumigo/service/manager/router/shaping.py:95-110 | the walk passes any laid-out chunks, carrying the last format chunk's rate, exactly when none is empty |
| Wav.PartSeconds | src/oumigo/service/manager/router/shaping.py:138-151 | every part is billed more than zero and at most 30 seconds |
| Wav.PartBilledTruly | src/oumigo/service/manager/router/shaping.py:138-151 | a part carrying an encoded file, line breaks or not, is billed that file's true duration up to 30 seconds, and 30 seconds when it cannot be measured |
| Wav.SpellingsBilledAlike | src/oumigo/service/manager/router/shaping.py:114-151 | inline data and the same data behind the first comma of a `data:` URL, plain or in an object, are audio and billed alike; any other URL is billed 30 seconds |
| Wav.EmptyChunkIsBilledAtCeiling | src/oumigo/service/manager/router/shaping.py:107-111 | two seconds of audio behind an empty chunk are billed 30 seconds, without that chunk two |
| Trimming.LongestFitIsLongest | src/oumigo/service/manager/router/shaping.py:202-208 | every non-empty prefix up to the kept count fits the limit and none beyond it does |
| Trimming.TrimContent | src/oumigo/service/manager/router/shaping.py:193-208 | the inner loop keeps exactly the message's share and the running totals are exact |
| AudioCap.KeepsLongestPrefix | src/oumigo/service/manager/router/shaping.py:166-226 | the kept audio is exactly the longest prefix, across all messages, whose total fits |
| AudioCap.OthersSurvive | src/oumigo/service/manager/router/shaping.py:193-220 | every other part survives in order; one note, on the final totals, stands at the head of the first message that lost audio; no other field changes |
| AudioCap.PartsKeepPlaces | src/oumigo/service/manager/router/shaping.py:193-220 | what a message keeps stays in its order, the note aside |
| AudioCap.ShapingIsExact | src/oumigo/service/manager/router/shaping.py:166-226 | the totals reported are those of the request's audio and of what is left of it, and what is left fits the limit |
| AudioCap.NoteIffDropped | src/oumigo/service/manager/router/shaping.py:210-220 | a note is added exactly when something was dropped |
| AudioCap.CappingIsIdempotent | src/oumigo/service/manager/router/shaping.py:166-226 | a second application changes nothing and drops nothing |
| AudioCap.CapAudio | src/oumigo/service/manager/router/shaping.py:166-226 | the in-place trimmer leaves exactly the specified messages and reports exact totals, dropped being all minus kept |
| Quantiles.QuantileInterp | src/oumigo/service/worker/metrics.py:422-437 | the loop interpolates in the first bucket whose count reaches the rank |
| Quantiles.QuantileInCrossedBucket | src/oumigo/service/worker/metrics.py:422-437 | on cumulative buckets the rank always crosses a bucket with a positive count of its own, so the empty-bucket branch is unreachable; the result divides that bucket as the rank divides its count, or is the largest finite edge, or nothing when no sample has one |
| Quantiles.QuantilesAreOrdered | src/oumigo/service/worker/metrics.py:422-437 | two quantiles are present together and in order |
| Coordinators.EveryRunIsLawful | src/oumigo/service/worker/coordinator.py:131-213 | over every run: at most 1 + max_restarts starts, FAILED is absorbing, SERVING is entered only from INITIALIZING with a running healthy child, run states are set and reported only in SERVING or DRAINING, DRAINING and STOPPED only follow a stop, and a returned run ends STOPPED or FAILED with no child alive |
| Coordinators.WhenARoundFails | src/oumigo/service/worker/coordinator.py:169-213 | a round fails the worker exactly when the child is dead and the restarts are used up or an uninterrupted backoff finds no port |
| Coordinators.RoundLeaves | src/oumigo/service/worker/coordinator.py:150-213 | a round ends SERVING, showing the child's activity, iff the child runs and is healthy or was served already; INITIALIZING iff it runs unhealthy for the first time, or is dead and its restart found a port or was cut short; and reports just that |
| Coordinators.RoundCounts | src/oumigo/service/worker/coordinator.py:150-213 | what a round does to the restarts, the starts, the port, the child and the pending stop, each exactly |
| Coordinators.WhenARoundReturns | src/oumigo/service/worker/coordinator.py:150-167 | the loop returns exactly at a pending stop or signal, having done nothing else; once failed, which it reports; or when told to stop |
| Coordinators.LoopTakesRounds | src/oumigo/service/worker/coordinator.py:150-167 | one more tick is one more round exactly while the loop has not returned |
| Coordinators.DrainLeaves | src/oumigo/service/worker/coordinator.py:363-388 | a drain with a running child is DRAINING, and reports that it executes, for exactly as long as the child executes unforced, then STOPPED; without one STOPPED at once |
| Coordinators.StartLeaves | src/oumigo/service/worker/coordinator.py:297-310 | one start, or failure without a port |
| Coordinators.WorkerCoordinator.StartBackend | src/oumigo/service/worker/coordinator.py:297-310 | the first start, state by state |
| Coordinators.WorkerCoordinator.HandleCrash | src/oumigo/service/worker/coordinator.py:187-213 | a crash, in every outcome, state by state |
| Coordinators.WorkerCoordinator.Reconcile | src/oumigo/service/worker/coordinator.py:169-185 | folding in the child's status, state by state |
| Coordinators.WorkerCoordinator.Heartbeat | src/oumigo/service/worker/coordinator.py:152-167 | what is reported, and what each answer makes of the state |
| Coordinators.WorkerCoordinator.Loop | src/oumigo/service/worker/coordinator.py:150-167 | the loop over any script goes through exactly the specified states and returns when specified |
| Coordinators.WorkerCoordinator.DrainAndStop | src/oumigo/service/worker/coordinator.py:363-388 | the drain over any script goes through exactly the specified states, heartbeats included |
| Coordinators.WorkerCoordinator.Run | src/oumigo/service/worker/coordinator.py:131-146 | the whole run in place goes through exactly the states of the trace `EveryRunIsLawful` speaks of |
| Windows.PrunedIsWindow | src/oumigo/service/manager/access.py:52-57 | pruning an already pruned deque at a later cutoff gives exactly the window of the whole past |
| Windows.WithinCounts | src/oumigo/service/manager/access.py:52-57 | the window holds every entry at or after the cutoff as often as the past does, and no other |
| Windows.FailureLimiter.Blocked | src/oumigo/service/manager/access.py:59-60 | a host is blocked exactly when enough of all its failures ever recorded lie in the window |
| Windows.FailureLimiter.Record | src/oumigo/service/manager/access.py:62-69 | one more failure of that host, nobody else's changed |
| Windows.RateIsOverItsWindow | src/oumigo/service/worker/metrics.py:617-632 | an emitted rate is non-negative and measured from the oldest sample of the last 180 seconds, which is at least 60 seconds old |
| Windows.RateIffOldEnough | src/oumigo/service/worker/metrics.py:617-632 | a rate is emitted exactly when the oldest sample of the last 180 seconds is at least 60 seconds old and the counter has not gone back since |
| Windows.RequestRateTracker.Update | src/oumigo/service/worker/metrics.py:617-632 | the pruned trail gives the rate the whole past gives |
| Tools.NoSchemaIffProblem | src/oumigo/api/agent/tool.py:318-384 | an annotation yields a schema exactly when its type is of the documented kinds, and a problem exactly when it yields none |
| Tools.OneFault | src/oumigo/api/agent/tool.py:318-384 | an unsupported annotation records one problem, of the kind of its innermost unsupported part |
| Tools.SchemaMeansType | src/oumigo/api/agent/tool.py:318-384 | the schema inferred for an annotation accepts, under JSON Schema validation, exactly the values that can be passed for it |
| Tools.SchemaIsTheSignature | src/oumigo/api/agent/tool.py:273-315 | a schema inferred without problems accepts exactly the argument objects that fit the function: each argument of its type, and only defaulted or optional ones left out |
| Tools.DefaultsChecked | src/oumigo/api/agent/tool.py:387-398 | a default is reported exactly when it is not of its scalar type |
| Tools.DocsChecked | src/oumigo/api/agent/tool.py:273-315 | documentation problems are exactly inferable parameters without a description and descriptions without a parameter |
| Tools.InferParameters | src/oumigo/api/agent/tool.py:273-315 | the loop builds the specified schema and problems |
| Tools.OverrideRaisesIff | src/oumigo/api/agent/tool.py:435-442 | for any schema and signature, validation raises exactly when a property names a list or a dict as its type |
| Tools.OverrideAcceptedIff | src/oumigo/api/agent/tool.py:421-468 | an override passes exactly if it is an object schema whose properties are the parameters, all with a JSON type and a description, and whose `required` lists some of them |
| Tools.NullableTypeRaises | src/oumigo/api/agent/tool.py:435-442 | the override whose one property has type string or null raises |
| Tools.InferredPasses | src/oumigo/api/agent/tool.py:421-468 | a schema inferred without structural problems validates against its own signature, and validation objects exactly to blank documentation |
| Tools.StrictDeclarationPasses | src/oumigo/api/agent/tool.py:421-468 | whatever a strict declaration infers passes as its override |

## Left out

- HTTP, WebSocket and FastAPI plumbing, header filtering, model-id routing, mDNS, CLI, console and dashboard pages: I/O and lookups; a request is a ticket and an upstream call an outcome.
- asyncio: `wait_for` is a result, a timeout or a cancellation; a future resolves once; the code between two `await`s is one step.
- The registry (src/oumigo/service/manager/control/registry.py): each of its operations rewrites or drops one record of a map keyed by node id. The pool relies on nothing else about it, so its listing is an arbitrary parameter of every step.
- `WorkerPool` stays within capacity after a worker shrinks its reported capacity: the code does not promise it; a grant is made below the capacity of that moment.
- SQLite: the fact table is a map keyed by node, metric and timestamp; timestamps are integer seconds, which the fixed-width UTC strings render in order. `latest_per_node` is not modelled.
- `LIKE` wildcards in mirror prefixes; the store answers a pull in one step, some time after the mirror read its clock; two refreshes at once.
- Capacity and chunk of the metrics buffer are integers: epochs are, so a real bound acts as its ceiling.
- One reporter per collector, and sampler slots stamped in increasing order, one row per metric and slot: as the collector's two threads run it.
- Floating-point rounding of rates, quantiles and notes; `_bucket_points`, which parses and sorts bucket labels; the min and max estimates of a histogram.
- `cap_audio` on a payload whose messages are not a list (it does nothing), one dict object appearing twice in the list, and the number formatting of the note, which is a parameter. `clamp_output_tokens` bounds two numbers of the payload and `shaping_headers` renders the totals: neither keeps or relates any state.
- TunnelConns.NothingLostOrReordered: read limits are positive; a limit of zero returns an empty chunk that looks like EOF.
- ChatProtocol.CallsAnsweredAndBounded: assumes no guard rewrites the assembled prompt, because a rewriting guard may drop any message.
- Guards are deterministic functions of the point, the content and the moment; `GuardContext` fields other than those of `Setting` are not modelled, nor is the payload sent beside the messages.
- `_normalize_history`: rejecting stored turns that are not plain user or assistant text; a chat starts from such turns.
- Response reasoning streams (`stream(get_reasoning=True)`): the pieces are in the event log, the pairing of text and reasoning is not modelled.
- Coordinators: registration, tunnel start-up, metrics threads, a backend that cannot be spawned at all, and token renewal are not modelled.
- Tools.InferParameters: problems are a set of kind and name, because the wording is formatting; so their order is not stated either.
- Docstring parsing, return annotations and signature filtering of tools are not modelled.
- Credentials, posture checks, subprocess handling, GPU and host probing, the HF engine, pod rental and configuration loading: foreign code or thin wrappers.
