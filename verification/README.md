# Verified model of the ant client engine

This project models the transport-neutral client engine of the ant client: how a
record is read, shared, admitted, retried and reassembled, how quotes are selected
and paid, how a record is delivered to a quorum, and how the release script decides
which licence terms apply. `dafny verify dfyconfig.toml` checks all of it.

How the parts are modelled:

- Concurrent protocols are step machines. A `Label` names each atomic step, `Enabled`
  and `Apply` say when it may happen and what it does, and a run is any sequence of
  enabled labels. `ProgressiveRead` (with `ReadTrace`, `ReadSafety` and `ReadVerdict`) is
  the progressive read, `KadRead` (with `KadTrace`, `KadSafety` and `KadProgress`) the
  Kademlia read, `SingleFlight` (with `FlightTrace` and `FlightProgress`) the shared
  operation, `ReadBudget` (with `BudgetTrace`) the admission queue. Theorems hold in every
  reachable state.
- What a run shows from outside is a function of its labels alone, `Watch` or `AskedBy`:
  the clock, answers, discoveries, dispatches, drops, samples. `BudgetTrace.WindowOf` also
  looks at how many permits are out. The main results about outcomes are stated over these.
- Objects whose methods update fields are classes: `StallTimers.Stalls`,
  `SingleFlight.Table`, `HolderGate.Gate`, `ReadBudget.Shared`, `QuoteSelection.Search`,
  `FailureCache.EndpointFailureCache`, `Spdx.Parser`. The machines of `SingleFlight`
  and `ReadBudget` take the same functions as their tables' critical sections; the stall
  timers and the holder gate are proved to do to their vectors what the steps of
  `ProgressiveRead` and `KadRead` do to their part of the state.
- Event loops over in-flight work are methods that pick any completion:
  `Pipeline`, `DeferredFetch`, `RangeRead`, `Resolve`, `Quorum`.
- Pure policy is functions and lemmas: `XorMetric`, `ReadOrder`, `MedianPayment`,
  `QuoteSelection`, `LicenceElection`. `Shuffle` is the in-place shuffle of an array;
  `Sorting` and `Lexicographic` are the orders everything is sorted by, `Sums` what the
  measures add up with, `Prelude` the constants and wrappers they share.

What comes from outside is a parameter: answers, hints, refusals and completion order,
the chooser, the clock, the caps, the hash, the cipher, the resolver. Three results
differ from what the source says of itself or of the standard it follows, and the model
follows the code:

- Speculative reads do not always stay within half of the read cap. They do exactly until
  an observation lowers the cap under permits already out (`ReadBudget.ShareKeptIff`,
  `ReadBudget.RunInShareIff`), which some run does exactly when the budget admits two
  reads at once (`ReadBudget.ShareCanBeLeftIff`); `ReadBudget.SpeculationMayFillTheCap`
  is that run.
- The pipeline's saturating counter is exact, and never goes below zero, exactly under
  a condition on budget and costs (`Pipeline.CounterExactIff`, `Pipeline.UnderflowIff`);
  `Pipeline.TwoItemsUnderflow` is a run that takes it below zero.
- The licence parser takes any token for the exception after WITH. It agrees with the SPDX
  grammar exactly on the expressions it rejects and those in which a name follows every
  WITH (`Spdx.AgreesWithStandardIff`).

Assumptions stated as preconditions: an XOR metric is injective (proved for the
real one); a chunk index has contiguous chunks in order, and a record at a chunk's
address decrypts to that chunk if at all (`RangeRead.Faithful`); the record hash has no
collisions (`Resolve.IsStore`); the resolver is deterministic and ends (`Resolve.Ends`);
the clock never goes back. One is built into the model: a resolver whose request for a
batch is refused gives up at once and asks for nothing else in that pass, as
`Resolve.Replay` stops there.

## Model

| member | source | states |
|---|---|---|
| XorMetric.DistanceInjective | ant-core/src/quote_policy.rs:33-35 | Two peers at the same XOR distance from a target are the same peer. |
| XorMetric.Nearer | ant-core/src/quote_policy.rs:33-35 | Comparing numeric distances is comparing the distance bytes from the first on, as the source's array comparison does. |
| ReadOrder.XorIsInjective | ant-core/src/quote_policy.rs:33-35 | The XOR metric meets the one assumption the protocol modules make of a metric. |
| ReadOrder.MayHoldAntitone | ant-core/src/client_engine/read.rs:162-173 | A candidate ruled out by the known peers stays ruled out when more peers are known. |
| Shuffle.SpreadInPlace | ant-core/src/client_engine/read.rs:222-228 | The in-place swap loop computes the recursive shuffle, for any chooser. |
| Shuffle.SpreadPermutes | ant-core/src/client_engine/read.rs:222-228 | The shuffle is a permutation. |
| Shuffle.SpreadFrame | ant-core/src/client_engine/read.rs:222-228 | It moves nothing outside the close group, nor any place already settled. |
| Shuffle.SpreadZero | ant-core/src/client_engine/read.rs:222-228 | A chooser that answers zero leaves XOR order alone. |
| Shuffle.SpreadInjective | ant-core/src/client_engine/read.rs:211-228 | Different in-range answers of the chooser give different orders. |
| Shuffle.SpreadSurjective | ant-core/src/client_engine/read.rs:211-228 | Every order of the close group is given by in-range answers; with injectivity, uniform answers give every order the same share. |
| ReadOrder.RankedPrefixIsCloseGroup | ant-core/src/client_engine/read.rs:234-258 | The first seven of the ranked hints are exactly those with fewer than seven nearer hints. |
| ReadOrder.NextEarlyContract | ant-core/src/client_engine/read.rs:234-258 | The hint read next is unattempted and eligible; it is from the hints' close group while that has one, else the nearest eligible; none only if there is none. |
| ReadOrder.NextEarlyReachesAll | ant-core/src/client_engine/read.rs:234-258 | Every eligible close-group hint is the answer for some choice. |
| ReadOrder.RetainUnseen | ant-core/src/client_engine/read.rs:263-283 | The retain pass keeps exactly the peers not seen before, each once, and records all it saw. |
| ReadOrder.ReadTargets | ant-core/src/client_engine/read.rs:263-283 | Sort, deduplicate, shuffle and extend computes the specification of the target list. |
| ReadOrder.TargetsSound | ant-core/src/client_engine/read.rs:263-283 | For any chooser the target list is duplicate-free, holds every discovered peer first, permutes only the nearest seven, and adds at most twenty other known peers, the nearest, in XOR order. |
| ReadOrder.TargetsComplete | ant-core/src/client_engine/read.rs:263-283 | Every list of that description is the result for some chooser. |
| ReadOrder.TargetsAreFinal | ant-core/src/client_engine/read.rs:418-419 | Whatever the chooser, the targets are the discovered peers and the other known ones with fewer than twenty of those nearer. |
| StallTimers.Stalls.constructor | ant-core/src/client_engine/read.rs:97-100 | A new list of stall timers is the empty timer map. |
| StallTimers.Stalls.Start | ant-core/src/client_engine/read.rs:102-104 | Starting a GET adds its running timer and nothing else. |
| StallTimers.Stalls.Retire | ant-core/src/client_engine/read.rs:106-108 | Retiring a GET removes its timer and nothing else. |
| StallTimers.Stalls.Admits | ant-core/src/client_engine/read.rs:110-114 | The list admits another GET exactly when fewer than two timers are kept and all have fired. |
| StallTimers.Stalls.PollNext | ant-core/src/client_engine/read.rs:116-130 | One poll clears one ready timer, or leaves all alone when none is ready. |
| ProgressiveRead.StepKeeps | ant-core/src/client_engine/read.rs:326-509 | Every step of the protocol (hint, dispatch, timer, answer, discovery, handover, round end) keeps the invariant that ties the engine's books to the wire. |
| ProgressiveRead.ReachableInv | ant-core/src/client_engine/read.rs:326-509 | The invariant holds after every run. |
| ReadTrace.RunAgrees | ant-core/src/client_engine/read.rs:326-483 | After every run the engine's clock, refused peers, hints, dispatch times and answers are those the run's labels show, each answer counted once, and its final set is that of what discovery found. |
| ReadSafety.AtMostTwoGets | ant-core/src/client_engine/read.rs:338-474 | In every reachable state at most two GETs of the read are on the wire, across the handover to the ordinary sweep. |
| ReadSafety.HedgeOnlyAfterStall | ant-core/src/client_engine/read.rs:338-474 | A GET starts beside another only if that is the only one and was dispatched at least the hedge delay ago, by the run's clock. |
| ReadSafety.NoPeerAskedTwice | ant-core/src/client_engine/read.rs:321-367 | In a round no peer is asked twice, early GETs number at most twice the allowance, and before discovery ends all GETs are early ones. |
| ReadSafety.EarlyGetExact | ant-core/src/client_engine/read.rs:338-367 | A pass of the early loop starts a GET exactly when fewer than twice the allowance were asked, at most one GET is out and has stalled, and a published hint is unasked and either the allowance lasts or fewer than seven peers asked are nearer; the GET goes to such a hint. |
| ReadSafety.EveryHintTried | ant-core/src/client_engine/read.rs:337-416 | Whenever the early loop waits, no GET it may start is left among the hints it has read. |
| ReadSafety.SweepsInOrder | ant-core/src/client_engine/read.rs:418-470 | The ordinary path goes, in order, through a target list of what discovery found and skips only peers asked early. |
| ReadSafety.OrdinaryStarts | ant-core/src/client_engine/read.rs:425-426 | When discovery ends the ordinary path may ask at once exactly if a GET may join those in flight. |
| ReadSafety.OrdinaryJoins | ant-core/src/client_engine/read.rs:427-461 | The ordinary path never waits while a GET may join: it can go on or is about to be told. |
| ReadSafety.SweepStepProgress | ant-core/src/client_engine/read.rs:420-474 | Every event of the sweep leaves less work, so a round ends after finitely many events. |
| ReadSafety.SweepNeverStuck | ant-core/src/client_engine/read.rs:420-474 | A sweeping round can step, can end, or has a GET on the wire whose answer will be heard; the wait for the slot never deadlocks. |
| ReadVerdict.VerdictExact | ant-core/src/client_engine/read.rs:477-508 | A read ends absent or busy exactly when its finished rounds, read off the run's labels (what discovery found, who answered what, who was refused), decide so, and at the first round that does; in each of them every final peer answered, once, and nobody with the record or a fatal error. |
| ReadVerdict.AbsentJustified | ant-core/src/client_engine/read.rs:477-508 | Absent: in every round every discovered or nearest known peer answered without the record, no refused peer may still hold it, and the last round's final set had four or more peers, all of which answered that they lack it, or an inconclusive quiet round came before. |
| ReadVerdict.BusyJustified | ant-core/src/client_engine/read.rs:497-502 | Busy is reported only after three refusal waits, when the round again leaves a refused peer that may hold the record. |
| ReadVerdict.EndsAsSent | ant-core/src/client_engine/read.rs:139-157 | A record is returned exactly when a peer sent it, and an error exactly when a peer's answer was fatal. |
| ReadVerdict.AnswererWasAsked | ant-core/src/client_engine/read.rs:139-157 | Whoever answers was asked in this round. |
| ReadVerdict.RoundEndsAnswered | ant-core/src/client_engine/read.rs:420-474 | When a round ends every GET of it has been answered, each once, and every final peer was asked. |
| ReadVerdict.RoundBeginsAfterRest | ant-core/src/client_engine/read.rs:326-328 | The next round begins exactly once a second has passed since the last one ended, or, if a refused peer may hold the record, once the first such peer returns if that is later. |
| ReadVerdict.UndecidedBound | ant-core/src/client_engine/read.rs:497-508 | Rounds that decide nothing number at most four. |
| ReadVerdict.AtMostFiveRounds | ant-core/src/client_engine/read.rs:326-509 | A read takes at most five rounds. |
| SingleFlight.Table.constructor | ant-core/src/client_engine/single_flight.rs:35-41 | A new table is empty. |
| SingleFlight.Table.Enter | ant-core/src/client_engine/single_flight.rs:60-77 | Entering joins the key's flight, or inserts one the caller leads; the observe flag only ever rises. |
| SingleFlight.Table.RemoveFlight | ant-core/src/client_engine/single_flight.rs:115-119 | Removal takes out the key's flight and returns its flag. |
| SingleFlight.StepKeeps | ant-core/src/client_engine/single_flight.rs:59-143 | Every critical section, cancellation, send and wake-up keeps the invariant, with steps of other callers in between. |
| SingleFlight.ReachableInv | ant-core/src/client_engine/single_flight.rs:59-143 | The invariant holds after every run of any number of callers. |
| SingleFlight.OneOperationPerKey | ant-core/src/client_engine/single_flight.rs:59-93 | A key has at most one running operation. |
| SingleFlight.InTableIffLed | ant-core/src/client_engine/single_flight.rs:105-143 | A key is in the table exactly while it has a live leader. |
| SingleFlight.RemovalIsOwn | ant-core/src/client_engine/single_flight.rs:113-143 | A leader, finishing or dropped, removes its own flight and no other. |
| SingleFlight.SendLeavesTable | ant-core/src/client_engine/single_flight.rs:121-143 | After removal the leader never touches the table, so a new flight for the key survives its send. |
| SingleFlight.NoWaiterStranded | ant-core/src/client_engine/single_flight.rs:78-84 | A waiting caller can wake, to a result or to enter again, or its flight's sender is held by a caller that has a step to take. |
| SingleFlight.JoinedIsCopy | ant-core/src/client_engine/single_flight.rs:81-92 | A joined result is a copy of the copy its leader sent of its value, and a completed caller's wish to observe reached the leader. |
| SingleFlight.ObserveIsOr | ant-core/src/client_engine/single_flight.rs:60-66 | A leader's observe is the OR over all callers that shared its flight. |
| SingleFlight.NothingLeftInFlight | ant-core/src/client_engine/single_flight.rs:113-143 | Once every caller is done or dropped the table is empty. |
| FlightTrace.ResultsAsReturned | ant-core/src/client_engine/single_flight.rs:59-143 | A caller goes without a result only if the run dropped it; a leader's result is what its own operation returned, and a joined one a copy of a copy of what an operation for the same key returned. |
| FlightProgress.StepWork | ant-core/src/client_engine/single_flight.rs:59-143 | Every step but the start of a call leaves less work: a waiter's return to enter again is paid for by the one leader that went. |
| FlightProgress.RunBound | ant-core/src/client_engine/single_flight.rs:59-85 | A run of any number n of callers, with any drops, has at most 6n(n + 1) steps, so no caller retries for ever. |
| FlightProgress.CanMove | ant-core/src/client_engine/single_flight.rs:78-84 | While a caller has neither a result nor been dropped, some caller can move without a drop. |
| FlightProgress.Completes | ant-core/src/client_engine/single_flight.rs:59-143 | From the end of every run, with no further drop, all calls but those dropped before can be brought to their results, leaving nothing in flight; so a waiter of a dropped leader leads or joins again. |
| KadRead.LikelyHolderAntitone | ant-core/src/client_engine/kad_read.rs:158-172 | Learning peers can only turn a likely holder into an unlikely one. |
| KadRead.StepKeeps | ant-core/src/client_engine/kad_read.rs:232-279 | Every event of the loop keeps the invariant over steps, gate and lookup. |
| KadRead.ReachableInv | ant-core/src/client_engine/kad_read.rs:192-284 | The invariant holds after every run. |
| KadTrace.RunAgrees | ant-core/src/client_engine/kad_read.rs:192-490 | After every run the read's clock, the peers it knows, when it released each step, whom it asked for the chunk and what it told the lookup are as the labels show: closer peers exactly if the peer sent some, answered only if it sent the chunk, failed only if it could not be reached or failed. |
| KadTrace.OutcomeExact | ant-core/src/client_engine/kad_read.rs:258-268 | The read returns the chunk exactly when a fetch ends whose peer, asked for it, sent it; it fails exactly when a fetch ends that failed for good; it ends with nothing only if no peer sent the chunk and no fetch failed for good. |
| KadSafety.NotFoundIsThorough | ant-core/src/client_engine/kad_read.rs:232-284 | At NotFound no peer had sent the chunk, every step was answered, and every peer that sent closer peers was asked for the chunk or has at least seven peers heard of nearer it. |
| KadSafety.UnlikelyStaysUnlikely | ant-core/src/client_engine/kad_read.rs:154-172 | No step makes an unlikely holder likely. |
| KadSafety.UnlikelyForever | ant-core/src/client_engine/kad_read.rs:154-172 | So a peer found unlikely at any point of a run is unlikely at every later point. |
| KadSafety.UnlikelyNeverAsked | ant-core/src/client_engine/kad_read.rs:158-172 | Only a peer is asked for the chunk that, when its step was sent, had fewer than fourteen known peers or fewer than seven nearer the chunk. |
| KadSafety.OneReplyOneRequest | ant-core/src/client_engine/kad_read.rs:400-490 | No step is answered twice or asked for the chunk twice. |
| KadSafety.FetchRepliesOnce | ant-core/src/client_engine/kad_read.rs:400-490 | Whatever its peer does and in whatever order, the fetch of an unanswered step ends within three events, having replied to the lookup exactly once and asked for the chunk exactly once unless the peer failed before that. |
| KadSafety.RouteRepliesOnce | ant-core/src/client_engine/kad_read.rs:415-430 | A route ends within two events, having replied exactly once and never asked for the chunk. |
| KadSafety.GateCounts | ant-core/src/client_engine/kad_read.rs:243-270 | The gate's count is the number of running fetches and at most two. |
| KadSafety.HedgeAfterDelay | ant-core/src/client_engine/kad_read.rs:332-363 | A second fetch starts only beside one that was released at least the hedge delay ago, by the run's clock. |
| KadSafety.PassLeavesNoneWaiting | ant-core/src/client_engine/kad_read.rs:243-257 | After each pass no unanswered step is queued, and a non-empty queue waits on a running fetch. |
| KadSafety.NeverStuck | ant-core/src/client_engine/kad_read.rs:232-279 | While the loop selects, lookup walking or not, every step without a reply is in the inbox or has a request under way that takes an event; and a loop whose lookup has ended, in any phase, has an enabled step. |
| KadProgress.StepProgress | ant-core/src/client_engine/kad_read.rs:232-279 | Once the lookup has ended every event leaves less work and time adds none, so the loop ends after finitely many events. |
| HolderGate.Gate.constructor | ant-core/src/client_engine/kad_read.rs:314-322 | A new gate has nothing queued, running or started. |
| HolderGate.Gate.Queue | ant-core/src/client_engine/kad_read.rs:324-326 | Queueing appends the holder, and for a route that ended with its peer still to be asked is the step of the Kademlia machine. |
| HolderGate.DrainArrived | ant-core/src/client_engine/kad_read.rs:233-242 | Of the steps received the likely holders queue in order and the others are handed over to be routed; to the machine this is the drain of its inbox. |
| HolderGate.Gate.NextReady | ant-core/src/client_engine/kad_read.rs:332-363 | Nothing changes while held back; otherwise answered holders no longer likely go and the one at the chosen place in XOR order is released; none only if none is left. In every state of the Kademlia machine that the gate shows, that release, or the end of releasing, is enabled and leads to a state the gate shows. |
| HolderGate.Gate.TakeUnanswered | ant-core/src/client_engine/kad_read.rs:365-378 | Splits the queue, in order, into unanswered steps, taken, and answered holders, kept; they are exactly the steps the machine routes and the queue it keeps. |
| HolderGate.Gate.Finished | ant-core/src/client_engine/kad_read.rs:380-383 | A finished holder frees its place, never below zero, as the end of a fetch does in the machine. |
| HolderGate.Gate.NextHedge | ant-core/src/client_engine/kad_read.rs:385-392 | The deadline is the machine's, and exactly the time from which a hedge is due, when a holder waits beside one running. |
| Pipeline.LaunchItems | ant-core/src/client_engine/files.rs:302-310 | Items launch in order while fewer than the cap, read anew each time, are in flight and the budget admits them; one can always run; launching stops for no other reason. |
| Pipeline.AwaitEvent | ant-core/src/client_engine/files.rs:318-345 | Waiting handles one event, the write or any fetch, and leaves less work; an error comes from a fetch or from the write under way. |
| Pipeline.Pass | ant-core/src/client_engine/files.rs:301-346 | One pass launches, begins the next write if its item is ready, and handles one event. |
| Pipeline.OrderedPipeline | ant-core/src/client_engine/files.rs:280-348 | For every completion order items are written in order, each once; success takes two events an item; no launch puts more items in flight than the cap said then, or one; the counter is exact and over budget only when the last launched item carries all of it. |
| Pipeline.NextIsLaunched | ant-core/src/client_engine/files.rs:302-317 | The next item to write has always been launched after the launch loop. |
| Pipeline.SomethingInFlight | ant-core/src/client_engine/files.rs:316-334 | With nothing being written something is in flight, so neither `expect` fails. |
| Pipeline.LaunchKeepsBudget | ant-core/src/client_engine/files.rs:302-310 | A launch keeps the counter exact and within the budget rule. |
| Pipeline.WriteKeepsBudget | ant-core/src/client_engine/files.rs:336-341 | A write never takes the counter below zero and keeps the rule. |
| Pipeline.CounterExactIff | ant-core/src/client_engine/files.rs:302-341 | In every state of every run of the loop the saturating counter is exact and never taken below zero, if and only if the budget is below u64::MAX or all costs together fit in a u64. |
| Pipeline.UnderflowIff | ant-core/src/client_engine/files.rs:336-341 | When nothing fails, some run takes the counter below zero if and only if that condition is not met. |
| Pipeline.TwoItemsUnderflow | ant-core/src/client_engine/files.rs:336-341 | Such a run: two items that cost u64::MAX and one under a budget of u64::MAX end with the counter wrapped to u64::MAX. |
| DeferredFetch.Fates | ant-core/src/client_engine/files.rs:370-391 | A request is obtained, aborts or is exhausted in four rounds, and exactly one of these. |
| DeferredFetch.Fill | ant-core/src/client_engine.rs:140-149 | The rolling window starts items in order until as many run as the cap read for this poll, and one at least, or none is left. |
| DeferredFetch.RunRound | ant-core/src/client_engine.rs:122-153 | A round attempts every item unless an attempt aborts the read, and files each once by its outcome, in any completion order; at each wait exactly as many run as the caps read so far make it. |
| DeferredFetch.KeepErrors | ant-core/src/client_engine/files.rs:427-434 | Each request still missing has an error kept for its address, from the latest round. |
| DeferredFetch.FileResults | ant-core/src/client_engine/files.rs:381-387 | Obtained records are appended under their index. |
| DeferredFetch.DeferredBatch | ant-core/src/client_engine/files.rs:353-451 | Succeeds exactly when every request is obtained within four attempts; then returns every record once in index order and has delivered each once; otherwise the error is that of an aborting attempt or the last miss for the address of an exhausted request, whose lookup is always present; no request is fetched twice in a round or again once obtained. |
| DeferredFetch.FiledPermutes | ant-core/src/client_engine/files.rs:381-393 | Another delivery order files the same records. |
| DeferredFetch.ExpectedInOrder | ant-core/src/client_engine/files.rs:392-393 | Requests in ascending index order come back in request order. |
| RangeRead.ChunksOverlapping | ant-core/src/client_engine/files.rs:247-247 | The chunk range handed to the fetch is exactly the chunks that overlap the byte range. |
| RangeRead.CopyChunk | ant-core/src/client_engine/files.rs:252-261 | Copying a chunk puts its part of the range right and spoils no other chunk's part. |
| RangeRead.AllCopied | ant-core/src/client_engine/files.rs:243-264 | When every overlapping chunk is in place the output is the plaintext range. |
| RangeRead.ReadIndexedRange | ant-core/src/client_engine/files.rs:217-265 | Returns exactly the plaintext from `start` to the lesser of `start + length` and the size, in any delivery order; nothing is fetched for an empty range. Succeeds exactly when the buffer can be had and each overlapping chunk has one of four attempts whose reply hashes to its address and decrypts, after replies that were all errors to retry. Otherwise the error is that of a reply that breaks this, or the last of a chunk whose four replies were errors to retry. |
| Resolve.CachedAnswer | ant-core/src/client_engine/files.rs:101-106 | A batch answered from the verified cache is answered as the record store answers it. |
| Resolve.PlanCovers | ant-core/src/client_engine/files.rs:78-111 | The passes to come list exactly the addresses the direct run asks for that are not cached. |
| Resolve.PlanApart | ant-core/src/client_engine/files.rs:88-120 | No pass fetches nothing, and none fetches an address an earlier pass fetched. |
| Resolve.PlanGoesOn | ant-core/src/client_engine/files.rs:115-120 | Fetching the first list of a plan leaves the rest of it as the plan, so each pass brings the end nearer. |
| Resolve.Replay | ant-core/src/client_engine/files.rs:88-111 | A pass over the cache ends as the direct run ends, exactly when nothing is left to fetch, or stops with the next list of the plan, of which nothing is cached and all is asked for by the direct run. |
| Resolve.FetchRecords | ant-core/src/client_engine/files.rs:44-70 | All records by position exactly when every reply hashes to its address; otherwise the error of a reply that was an error or did not. |
| Resolve.ResolveMap | ant-core/src/client_engine/files.rs:76-121 | Succeeds exactly when the direct run against the full store gives a map and every record of its plan is fetched and verified, and then with that map. If all records are had and the direct run rejects, the error is the rejection; otherwise it is the error of a record of the first pass that misses one. What it fetched is the plan up to there: never the same address in two passes, only what the direct run asks for, and on success all of it. |
| ReadBudget.Shared.constructor | ant-core/src/client_engine/read_budget.rs:42-60 | A new budget is empty, with its cap at capacity. |
| ReadBudget.Shared.Evaluate | ant-core/src/client_engine/read_budget.rs:93-113 | One evaluation admits, refuses because closed, or leaves the state alone because nothing admits the read. |
| ReadBudget.Shared.Observe | ant-core/src/client_engine/read_budget.rs:140-172 | One observation adds a sample and, at the eighth, moves the cap as `BudgetTrace.CapExact` says and asks for a wake-up. |
| ReadBudget.Shared.Release | ant-core/src/client_engine/read_budget.rs:184-192 | Dropping a permit gives back its counts. |
| ReadBudget.ReservedWithinBudget | ant-core/src/client_engine/read_budget.rs:42-60 | In every reachable state the reservations of the live permits stay within the byte budget, or there is one permit. |
| ReadBudget.AdmittedBounded | ant-core/src/client_engine/read_budget.rs:96-106 | An admission keeps active within the limit it saw and speculation within half of it. |
| ReadBudget.ObservedBounded | ant-core/src/client_engine/read_budget.rs:140-172 | An observation keeps the cap between one and capacity and raises it by at most one. |
| ReadBudget.CapHoldsWithinWindow | ant-core/src/client_engine/read_budget.rs:154-156 | No run of observations that does not fill the window of eight moves the cap. |
| BudgetTrace.CapExact | ant-core/src/client_engine/read_budget.rs:150-171 | In every run the cap moves only at the eighth sample of a window: to half the lesser of it and what is desired, one at least, exactly if the eight samples' processing adds up to more than half the time since the window began and two or more of them were slow; otherwise to one more, up to the capacity. |
| BudgetTrace.CapRecovers | ant-core/src/client_engine/read_budget.rs:161-165 | However the cap was lowered, n windows without overload bring it to the lesser of it plus n and the capacity. |
| BudgetTrace.WindowsAreSamples | ant-core/src/client_engine/read_budget.rs:150-170 | The windows are the run's samples, eight at a time. |
| BudgetTrace.AdmissionExact | ant-core/src/client_engine/read_budget.rs:86-113 | A read is given a permit exactly when the budget was not closed, fewer permits are out than it last desired (or none is), than the byte budget admits and than the cap, and, if nobody awaited it when it asked, speculative permits with its own stay within half of each; it goes on waiting exactly if it gets none and the budget is open. |
| BudgetTrace.LeavesOnlyServed | ant-core/src/client_engine/read_budget.rs:86-113 | A read leaves the queue by itself only with a permit or after the close. |
| BudgetTrace.AnnouncementWakes | ant-core/src/client_engine/read_budget.rs:113-132 | Every notification lets every waiting read wake and ask again. |
| ReadBudget.StepKeeps | ant-core/src/client_engine/read_budget.rs:86-215 | Every step (queue, evaluate, wake, cancel, release, observe, close, promote, demote, notify, send) keeps the invariant. |
| ReadBudget.PermitsCounted | ant-core/src/client_engine/read_budget.rs:86-215 | In every reachable state the counters are the live permits and queued reads, speculation is within half the capacity, and the cap within its range. |
| ReadBudget.DropsNeverUnderflow | ant-core/src/client_engine/read_budget.rs:184-215 | Dropping a live permit or queued read never takes a counter below zero. |
| ReadBudget.NoLostWakeup | ant-core/src/client_engine/read_budget.rs:86-126 | A queued read that the state would now admit, or that the close would refuse, can wake, or a change not yet announced will wake it; changes between unlock and notify included. |
| ReadBudget.IdleAdmitsAwaited | ant-core/src/client_engine/read_budget.rs:86-126 | With no permit out no awaited read stays asleep. |
| ReadBudget.ShareLeavesTheRest | ant-core/src/client_engine/read_budget.rs:16-21 | Speculative reads hold at most half the read cap if and only if awaited reads always have the rest: while fewer than the rest hold permits, one that desires the whole cap is admitted. |
| ReadBudget.ShareKeptIff | ant-core/src/client_engine/read_budget.rs:86-192 | In every state within the share, an enabled step leaves it if and only if it is an observation that fills the window and lowers the cap so far that the speculative permits already out exceed half of it. |
| ReadBudget.RunInShareIff | ant-core/src/client_engine/read_budget.rs:86-192 | So a whole run stays within the documented share if and only if it has no such observation. |
| ReadBudget.SpeculationLeavesRoom | ant-core/src/client_engine/read_budget.rs:96-106 | Within the share or not, with only speculative permits out an awaited read is admitted while its limit is above half the capacity. |
| ReadBudget.SpeculationMayFillTheCap | ant-core/src/client_engine/read_budget.rs:140-172 | For every capacity of two or more, a run given as its steps leaves the share: a speculative read is admitted, load lowers the cap to one, and no awaited read is admitted whatever it desires. |
| ReadBudget.ShareCanBeLeftIff | ant-core/src/client_engine/read_budget.rs:42-192 | Some run leaves the share if and only if the byte budget admits two reads at once. |
| MedianPayment.RankIsRanking | ant-core/src/payment_policy.rs:44-56 | The stable sort lists every quote once, cheapest first, ties in input order. |
| MedianPayment.RankingUnique | ant-core/src/payment_policy.rs:44-56 | There is only one such ranking, so search and payment agree. |
| MedianPayment.MedianIsUpper | ant-core/src/payment_policy.rs:58-61 | Exactly half the quotes, rounded down, rank before the median. |
| MedianPayment.HonestMajorityBounds | ant-core/src/payment_policy.rs:44-61 | If more than half the quotes are honest, the paid price lies between two honest prices. |
| MedianPayment.HonestHalfIsOutbid | ant-core/src/payment_policy.rs:44-61 | Up to half honest quotes are outbid by some prices of the others. |
| MedianPayment.HonestBoundIffMajority | ant-core/src/payment_policy.rs:44-61 | For every number of quotes and every set of honest ones, honest prices bound the paid price whatever anyone asks if and only if more than half are honest. |
| MedianPayment.PlanOrError | ant-core/src/payment_policy.rs:63-107 | A plan exists exactly for one to seven quotes of which more than half could be paid three times over; overflow otherwise, whatever the other prices are. |
| MedianPayment.PlanPaysMedianOnly | ant-core/src/payment_policy.rs:84-112 | The plan lists every quote once, pays three times the median price to the median quote, and nothing to any other. |
| QuoteSelection.EverySubsetOnce | ant-core/src/quote_policy.rs:184-201 | Every subset of the size is visited, once. |
| QuoteSelection.SubsetsAscend | ant-core/src/quote_policy.rs:184-201 | Subsets are visited in strictly ascending lexicographic order. |
| QuoteSelection.SubsetsCounted | ant-core/src/quote_policy.rs:184-201 | Their number is the binomial coefficient. |
| QuoteSelection.Search.Visit | ant-core/src/quote_policy.rs:221-242 | A visit keeps the best of the sets visited: greatest support, then lexicographically least. |
| QuoteSelection.Search.VisitSubsets | ant-core/src/quote_policy.rs:184-201 | Pushing and popping the shared buffer visits exactly the specified subsets in order, restores the buffer, and keeps the best. |
| QuoteSelection.SelectWitnessedQuotes | ant-core/src/quote_policy.rs:203-249 | Returns the optimum: the largest set up to seven whose paid issuer has the votes, then greatest support, then least in XOR order; none exactly when no quote's issuer has the votes. |
| QuoteSelection.OptimumUnique | ant-core/src/quote_policy.rs:203-249 | There is at most one optimum. |
| QuoteSelection.SelectionIgnoresOrder | ant-core/src/quote_policy.rs:203-249 | For issuers at distinct distances, the quotes selected and their returned order do not depend on the order the quotes came in. |
| QuoteSelection.PaidIssuerIsTheOneChecked | ant-core/src/payment_policy.rs:84-112 | The plan made from the quotes of any set the search accepts, in returned order, pays the very issuer whose votes the search counted, and fails only on overflow. |
| QuoteSelection.WitnessVotes | ant-core/src/quote_policy.rs:50-58 | The table holds exactly the votes cast: who listed whom. |
| QuoteSelection.PaidIssuerIsWitnessed | ant-core/src/quote_policy.rs:50-58 | The issuer paid for any set the search accepts is listed in the views of at least the required number of distinct responders. |
| Quorum.QuorumWithFallback | ant-core/src/client_engine.rs:58-114 | Quorum is reached exactly when enough targets succeed, whatever the completion order; at each point the targets launched are a prefix of the list, at most the required number and one per failure so far, and whenever an operation completes exactly that many, as far as there are targets; short of quorum every target was tried. |
| FailureCache.EndpointFailureCache.constructor | ant-core/src/client_engine.rs:217-224 | A new cache is empty and holds at least one entry. |
| FailureCache.EndpointFailureCache.IsSuppressed | ant-core/src/client_engine.rs:226-235 | True only if the peer's latest event in an unbounded log is a failure or refusal of exactly that endpoint and the time is before the end of its cooldown, the longer for a failure and the shorter for a refusal, and always then unless the entry was evicted or dropped for another endpoint. |
| FailureCache.EndpointFailureCache.Refusals | ant-core/src/client_engine.rs:237-245 | Yields peers whose latest event in the log is a refusal, each with the time left to the end of the refusal cooldown, and all of them but those whose entry was lost. |
| FailureCache.EndpointFailureCache.Soonest | ant-core/src/client_engine.rs:268-272 | An entry with the least time remaining. |
| FailureCache.EndpointFailureCache.Record | ant-core/src/client_engine.rs:264-285 | Records the event within the bound; evicts only when full, and only an entry whose cooldown is over or ends first. |
| FailureCache.EndpointFailureCache.RecordSuccess | ant-core/src/client_engine.rs:287-289 | A success clears the peer. |
| Spdx.Parser.OrNode | scripts/third_party_notices/generate.py:194-199 | The loop over OR reads what the specification reads. |
| Spdx.Parser.AndNode | scripts/third_party_notices/generate.py:201-206 | The loop over AND reads what the specification reads. |
| Spdx.Parser.AtomNode | scripts/third_party_notices/generate.py:208-220 | An atom, a licence with its exception, or a parenthesised expression, or an error. |
| Spdx.ParseSpdx | scripts/third_party_notices/generate.py:179-225 | The parser over a position computes the specification's parse of all tokens. |
| Spdx.ParseExact | scripts/third_party_notices/generate.py:179-225 | The parser accepts an expression with a tree exactly when the grammar it follows, with any token for an exception, derives that tree from all its tokens, AND binding tighter than OR and both grouping to the left. |
| Spdx.Unambiguous | scripts/third_party_notices/generate.py:179-225 | An expression has one tree. |
| Spdx.RoundTrip | scripts/third_party_notices/generate.py:179-225 | Parsing gives back any tree rendered with parentheses. |
| Spdx.OrNamed | scripts/third_party_notices/generate.py:179-225 | In an accepted expression every exception is a name exactly when every WITH is directly followed by a name. |
| Spdx.StandardIff | scripts/third_party_notices/generate.py:179-225 | The grammar of the SPDX standard, where an exception is a name, derives a tree exactly when the parser accepts the expression with it and every WITH is directly followed by a name. |
| Spdx.AgreesWithStandardIff | scripts/third_party_notices/generate.py:179-225 | The parser and the standard agree on an expression if and only if the parser rejects it or every WITH in it is directly followed by a name. |
| Spdx.AnyTokenIsAnException | scripts/third_party_notices/generate.py:217-219 | Any token is taken for the exception after WITH, and the standard derives nothing when it is not a name. |
| LicenceElection.BranchesMean | scripts/third_party_notices/generate.py:228-236 | The alternatives keep the tree's meaning under every assignment. |
| LicenceElection.BranchesNonEmpty | scripts/third_party_notices/generate.py:228-236 | No alternative is empty, so the worst rank is defined. |
| LicenceElection.Worst | scripts/third_party_notices/generate.py:266-266 | The worst rank of an alternative is a rank in it and none is worse. |
| LicenceElection.SortedOrders | scripts/third_party_notices/generate.py:266-268 | Alternatives are sorted by worst rank, then by their licence texts. |
| LicenceElection.FirstShipped | scripts/third_party_notices/generate.py:271-273 | The first alternative whose texts are all present. |
| LicenceElection.HasTextMeans | scripts/third_party_notices/generate.py:256-259 | A licence of words has its text exactly if some text identifies its name and, if it has an exception, some text identifies that. |
| LicenceElection.Elect | scripts/third_party_notices/generate.py:262-274 | Elects terms exactly when the expression is true of the licences that are allowed and whose every part some text identifies, for expressions of words the name and the exception, and then the least alternative by worst rank and text; tells no allowed licence from no text; errors exactly on malformed expressions. |

## Left out

- Sockets, WebRTC, QUIC and the browser adapters: only what they return to the engine is modelled.
- Cryptography and encodings (BLAKE3, ML-DSA, MessagePack, self_encryption): functions given as parameters.
- `IterativeLookup` and `run_iterative_lookup`: outside the repository; `KadRead` takes any sequence of batches, replies and an end of the walk.
- `race_cached_read` as a function of its own: the handover it implements is part of `ProgressiveRead`.
- `download`: `Resolve` and `DeferredFetch` in sequence, then a foreign decryption.
- `consensus_peers`, `scope_views`, `already_stored`, `order_put_peers`, `witness_quorum`, `quote_launch_budget`, `discover_put_peers`: each settled by reading one sort, filter or comparison.
- `quote_validation.rs`, `read_ahead.rs`, `transfer_policy.rs`, `channel.rs`, `install.rs`, `config.rs`, `update.rs`, the CLI and the browser modules: would only add easy members.
- The rest of `generate.py` (cargo, GitHub, file walking, rendering) and its tokeniser: the parser is modelled from tokens on, with `/` already read as OR.
- `identifies` and `normalise`: which words some text identifies is a parameter of `LicenceElection.Elect`.
- Promptness of timers and wake-ups: the machines say what may happen when, not that it happens at once.
- Real time: delays are numbers, the fixed 15 and 45 second waits between deferred rounds are not part of `DeferredFetch.DeferredBatch`, and `Duration` saturation is not modelled.
- Randomness of `uniform_choice`: every chooser is allowed; `Shuffle.SpreadInjective` and `Shuffle.SpreadSurjective` say what a uniform one gives.
- RangeRead.ReadIndexedRange: copies the delivered chunks after the fetch rather than between its completions, because a copy does not influence the fetch and the buffer of a failed read is dropped.
- QuoteSelection.SelectWitnessedQuotes: prices are unbounded numbers, because only their order matters to the search; the amount type's bound enters in `MedianPayment.FromPrices`.
- ReadBudget.NoLostWakeup: speaks of the concurrency the queued read last asked for, because a change of that number alone is not a change of the budget and nothing announces it.
- StallTimers.Stalls.Start: asks that the peer has no timer yet, because a peer already attempted is never started again in a round (`ReadSafety.NoPeerAskedTwice`).
