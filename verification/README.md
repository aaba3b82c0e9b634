# The Linux 2.6.17 block layer and crypto streaming layer in Dafny

This project models the parts of `linux-2.6.17.new/block` and `linux-2.6.17.new/crypto` in which the
order of steps matters, and proves what they promise over whole runs.

**The request queue and ordered writes** (`RequestQueue`, `BarrierInvariant`, `BarrierSubmission`,
`BarrierCompletion`, `BarrierFetch`, `BarrierTheorems`, `BarrierLimits`, `BarrierRejection`,
`BarrierReach`, `ElevatorOrder`, `QueueObject`).  A bio enters the queue, perhaps by growing a request that the scheduler still holds;
the scheduler dispatches requests in sorted order; the driver fetches, takes off, ends or requeues
them; a barrier is replaced by a sequence of drain, pre-flush, barrier and post-flush.  Every function
that runs under the queue lock is one step.  `RequestQueue` gives each step as a function on a queue
value and defines runs; the `Barrier` modules find the invariant that every step keeps and draw the
consequences for every run; `BarrierLimits` and `BarrierRejection` show that the two conditions on
callers are exact: wherever one is broken, some continuation goes wrong.  `BarrierReach` has runs that
get to where they can be broken.
`QueueObject` is the queue as an object that is changed in place, each method proved to do what the
step says.  In it the scheduler behind the queue is the no-op scheduler; the theorems about runs let
the scheduler send any of its requests at any time with `elv_dispatch_sort` and offer any for a merge.

**The schedulers.**  `SortTree` holds what they share: a tree as a sequence sorted by sector, and
aliases.  The anticipatory scheduler is in `AsChoice`, `AsScheduler`, `AsInvariant`, `AsTheorems`,
`AsReach` and `AsObject`; CFQ in `CfqRotation`, `CfqLists`, `CfqQueues`, `CfqInvariant`, `CfqTheorems`,
`CfqPreempt`, `CfqReach` and `CfqObject`; the deadline scheduler in `DeadlineScheduler`, `DeadlineInvariant`, `DeadlineTheorems`,
`DeadlineStarvation` and `DeadlineObject`.  Each has its steps as functions, an invariant over every
run, and an object whose methods follow the source's loops and assignments.

**Requests.**  `Segments` (counting segments, building scatter-gather lists), `RequestBuild` (requests
put together from bios and from other requests), `Completion` (partial completion), `RequestPool`
(allocation, congestion marks).

**Crypto.**  `CipherModes`, `ScatterWalk` and `CipherWalk` (block modes over scatterlists); `WordBits`,
`Des` and `DesCode` (DES and triple DES); `BlockStream`, `Sha1`, `Sha256`, `Md5` and `DigestList`
(streaming hashes, section 5.1.1 of FIPS 180-2 and sections 3.1 and 3.2 of RFC 1321).

Sectors, jiffies and counters are unbounded integers unless a width matters, and then it is written
out: the 32-bit offsets of SHA-1, the two counter words of SHA-256, the 64-bit byte counts, the words
of DES.  Red-black trees are sorted sequences, lists are sequences.  A precondition of a method is a
`BUG_ON` of the source, an index that must exist, or the invariant that is proved to hold between
calls.  What the environment decides is a parameter: whether memory was had, what the time is, what
the statistics of a process suggest, how a page is aligned.

## Where the code does not do what is said of it

- Turning a barrier down while requests are in flight leads to a queue that is taken for drained too
  early before a later barrier; so does putting a command at the head of the queue while requests of
  the other colour are still to be drained.  The theorems about runs exclude these two, and
  `BarrierLimits.FrontCommandUnsafe` and `BarrierRejection.RejectionUnsafe` give, from every state in
  which either is done, a run that goes wrong.
- The comment in `cfq_resort_rr_list` says that a preempted queue is added to the front.  It is put in
  front of the last one (`CfqTheorems.PreemptedGoesFirst`).
- If the context of a read cannot be allocated, the anticipatory scheduler may wait for a completion
  that cannot come (`AsReach.StuckReached`); `AsTheorems.MoveAnchored` says exactly when.
- An addition at the sector of a queued request sends that request at once, even if the batch sends the
  other direction; reads and writes are then at the driver together if something was out
  (`AsTheorems.AliasMixesExactly`, `AsReach.MixingReached`).
- Joining requests looks only at the two bios that meet, and may count fewer segments than the list
  needs if a request of one segment is joined at both ends (`RequestBuild.JoinUndercounts`);
  `RequestBuild.FitsExactly` and `RequestBuild.OnceJoinedFits` say when it does not.
- The loop of `cfq_preempt_queue` does not end when two real time queues stand on the current list in
  front of its last one (`CfqPreempt.PreemptEndsExactly`, `CfqReach.EndlessLoopReached`).
- The sector counters go wrong when a completion ends inside a sector (`Completion.CountersInStep`).
- The bit counter of SHA-256 goes wrong for an update of 2^29 bytes or more unless the low word
  carries (`Sha256.HighWordIff`).

## Model

| member | source | states |
|---|---|---|
| BarrierTheorems.StepInv | linux-2.6.17.new/block/ll_rw_blk.c:393-557 | every step of the queue (submission, command, merge into any queued request, a request sent or moved by the scheduler, fetch, take-off, completion, requeue, change of mode) keeps the invariant of the ordered sequence, unless it turns a barrier down with file system requests in flight or puts a command of the wrong colour in front of a request that is still to be drained |
| BarrierTheorems.RunInv | linux-2.6.17.new/block/ll_rw_blk.c:393-557 | so does every interleaving of such steps |
| BarrierTheorems.BarrierAfterDrain | linux-2.6.17.new/block/ll_rw_blk.c:366-417 | in every run, when the barrier proxy is with the driver its sequence is the one under way, the queue is drained, the pre-flush (if the mode has one) is over and the barrier stage is not, and no earlier request is queued or with the driver |
| BarrierTheorems.BarrierWaitsForEarlier | linux-2.6.17.new/block/ll_rw_blk.c:366-417 | in every run, when the barrier proxy is with the driver every bio submitted before the barrier has ended |
| BarrierTheorems.LaterWaitsForBarrier | linux-2.6.17.new/block/ll_rw_blk.c:510-557 | in every run, a file system request is with the driver only when every barrier submitted before it, and every bio submitted before that barrier, has ended |
| BarrierTheorems.BarrierSplitsQueue | linux-2.6.17.new/block/elevator.c:336-463 | in every run, a barrier on the dispatch queue has exactly the earlier submissions in front of it and exactly the later ones behind it; what is still in the scheduler is later, what is with the driver is earlier |
| BarrierTheorems.ExactlyOnce | linux-2.6.17.new/block/ll_rw_blk.c:393-417 | in every run, each submitted bio is held by exactly one request or has ended exactly once, and a request holds only bios submitted between the same two barriers, so no merge crosses a barrier |
| BarrierTheorems.CountersAgree | linux-2.6.17.new/block/elevator.c:232-301 | in every run, nr_sorted is the number of requests in the scheduler, in_flight counts the file system requests with the driver, and last_merge is unset or names a request still in the scheduler |
| BarrierTheorems.ProxiesLiveOnce | linux-2.6.17.new/block/ll_rw_blk.c:393-508 | in every run, the embedded flush and barrier requests are prepared only when none is live, each is live at most once, and a stage that ends has not ended before, so the BUG_ON on ordseq is out of reach |
| BarrierTheorems.FetchAlwaysEnabled | linux-2.6.17.new/block/ll_rw_blk.c:510-557 | in every run a fetch finds the original barrier of a sequence that is under way |
| BarrierTheorems.SequenceNeverHangs | linux-2.6.17.new/block/elevator.c:634-660 | in every run, while a sequence is under way and the driver holds nothing, the next fetch hands something out |
| BarrierSubmission.SendsInv | linux-2.6.17.new/block/elevator.c:232-260 | whichever of its requests a scheduler sends, and whenever, the invariant is kept |
| BarrierTheorems.ChoiceIsFetched | linux-2.6.17.new/block/elevator.c:475-489 | the request that the scheduler chooses to send into an empty dispatch queue is the one the driver is given next |
| BarrierLimits.NeverOvertaken | linux-2.6.17.new/block/ll_rw_blk.c:393-417 | in every run the queue counts as drained only when no request from before the barrier is still queued |
| BarrierLimits.FrontCommandUnsafe | linux-2.6.17.new/block/ll_rw_blk.c:2275-2306 | the colour condition of StepInv is needed: from every state in which a command put at the head would hide a request still to be drained, some continuation takes the queue for drained too early |
| BarrierRejection.RejectionUnsafe | linux-2.6.17.new/block/ll_rw_blk.c:510-557 | the in-flight condition of StepInv is needed: from every state in which a barrier is turned down while a file system request is with the driver, some continuation takes the queue for drained before a later barrier although a request from before it is still queued |
| BarrierReach.RejectionReached | linux-2.6.17.new/block/ll_rw_blk.c:510-557 | such a state is reached from the empty queue by a run of allowed steps |
| BarrierReach.WrongColorReached | linux-2.6.17.new/block/ll_rw_blk.c:2275-2306 | so is a state in which a command put at the head breaks the colour condition |
| ElevatorOrder.InsertKeepsElevator | linux-2.6.17.new/block/elevator.c:232-260 | sorted insertion keeps the part of the queue behind the last fixed request one sweep of the disk from end_sector |
| ElevatorOrder.SweepGoesOn | linux-2.6.17.new/block/elevator.c:491-521 | handing out the first request of a sweep leaves the rest a sweep from the sector where that request ends |
| ElevatorOrder.BoundaryPassed | linux-2.6.17.new/block/elevator.c:435-521 | when the request at the head lets end_sector follow it, no barrier is open |
| ElevatorOrder.SendsOrder | linux-2.6.17.new/block/elevator.c:232-260 | whichever of its requests the scheduler sends finds its place in the sweep |
| ElevatorOrder.StepOrder | linux-2.6.17.new/block/elevator.c:232-521 | every step of a run of non-overlapping file system requests that are never requeued keeps the sweep |
| ElevatorOrder.DispatchQueueIsElevator | linux-2.6.17.new/block/elevator.c:232-521 | after every such run from the empty queue the dispatch queue is a one-way elevator behind its last fixed request |
| QueueObject.BlockQueue.SortPlace | linux-2.6.17.new/block/elevator.c:241-257 | the backward scan stops at the place the specification gives |
| QueueObject.BlockQueue.NoopDispatch | linux-2.6.17.new/block/noop-iosched.c:20-32 | the first queued request is dispatched, if there is one |
| QueueObject.BlockQueue.DrainElevator | linux-2.6.17.new/block/elevator.c:322-334 | dispatching until nothing comes leaves the scheduler empty and everything on the dispatch queue |
| QueueObject.BlockQueue.Insert | linux-2.6.17.new/block/elevator.c:336-427 | each of the four insertion points puts the request where the specification has it |
| QueueObject.BlockQueue.RequeuePlace | linux-2.6.17.new/block/elevator.c:398-406 | the scan finds the first request of a later stage of the running sequence |
| QueueObject.BlockQueue.QueueProxies | linux-2.6.17.new/block/ll_rw_blk.c:483-500 | the proxies of the mode stand in front of the queue in the order of their stages, and the stages the mode leaves out count as over |
| QueueObject.BlockQueue.StartOrdered | linux-2.6.17.new/block/ll_rw_blk.c:461-508 | the sequence starts in the state the specification gives, with the right first proxy handed out or none while requests are in flight |
| QueueObject.BlockQueue.DoOrdered | linux-2.6.17.new/block/ll_rw_blk.c:510-557 | starts a sequence, turns a barrier down, holds the head back or lets it go |
| QueueObject.BlockQueue.NextHead | linux-2.6.17.new/block/elevator.c:475-489 | the loop ends and delivers the request the specification gives |
| QueueObject.BlockQueue.NextRequest | linux-2.6.17.new/block/elevator.c:491-556 | a fetch has the specified result and keeps the invariant |
| QueueObject.BlockQueue.TakeOff | linux-2.6.17.new/block/elevator.c:558-571 | taking a started request off the queue keeps the invariant |
| QueueObject.BlockQueue.EndRequest | linux-2.6.17.new/block/ll_rw_blk.c:3440-3473 | ending a request keeps the invariant; the BUG_ON behind the proxies cannot fire |
| QueueObject.BlockQueue.RequeueRequest | linux-2.6.17.new/block/elevator.c:303-320 | a requeued request goes back to its place in the sequence and the invariant is kept |
| QueueObject.BlockQueue.Submit | linux-2.6.17.new/block/ll_rw_blk.c:2811-2956 | a bio that finds nothing to merge with becomes a request in the specified place |
| QueueObject.BlockQueue.Merge | linux-2.6.17.new/block/elevator.c:262-289 | a bio grows the cached request at its front or its back, is refused, or makes it join a neighbour |
| AsChoice.ChoiceIsTotalOrder | linux-2.6.17.new/block/as-iosched.c:472-540 | on requests at different sectors the preference is symmetric, transitive and associative, so a total order |
| AsChoice.BestIsUnique | linux-2.6.17.new/block/as-iosched.c:472-540 | a set of requests has at most one best member |
| AsChoice.FindNextOther | linux-2.6.17.new/block/as-iosched.c:547-573 | the neighbour lookup finds another request exactly when there is one |
| AsChoice.FindNextIsBest | linux-2.6.17.new/block/as-iosched.c:547-573 | for requests that do not overlap, looking at two neighbours or the first node finds the best of all that stay |
| AsChoice.OverlapMisleads | linux-2.6.17.new/block/as-iosched.c:547-573 | non-overlap is needed: a concrete overlapping request is preferred wrongly |
| AsInvariant.DispatchOutcome | linux-2.6.17.new/block/as-iosched.c:1178-1335 | a dispatch either sends one queued request from a batch prepared as the code prescribes, or turns the batch round, or holds back for a stated reason |
| AsTheorems.MoveDirection | linux-2.6.17.new/block/as-iosched.c:1127-1171 | sending a request keeps reads and writes apart at the driver exactly when it has the direction already out there |
| AsTheorems.MoveAnchored | linux-2.6.17.new/block/as-iosched.c:1127-1171 | after sending a request the anticipated process has a request out, unless the request is a read without a context and the process kept from before has none |
| AsTheorems.DispatchKeeps | linux-2.6.17.new/block/as-iosched.c:1178-1335 | a dispatch keeps index agreement, the cache, the separation of directions and the anchoring of anticipation |
| AsTheorems.AddKeeps | linux-2.6.17.new/block/as-iosched.c:1340-1374 | an addition keeps index agreement, keeps anticipation anchored if contexts are allocated, and keeps directions apart exactly when it evicts no alias of the direction that the batch does not send |
| AsTheorems.CompleteKeeps | linux-2.6.17.new/block/as-iosched.c:995-1045 | a completion keeps all four |
| AsTheorems.StepKeeps | linux-2.6.17.new/block/as-iosched.c:995-1374 | every step keeps each property under the condition on additions that it needs |
| AsTheorems.RunKeeps | linux-2.6.17.new/block/as-iosched.c:995-1374 | so does every run |
| AsTheorems.IndexesAgree | linux-2.6.17.new/block/as-iosched.c:1053-1076 | in every run the FIFO and the tree of a direction hold the same requests and next_arq leads into the tree |
| AsTheorems.CacheEqualsBruteForce | linux-2.6.17.new/block/as-iosched.c:944-949 | in every run of non-overlapping requests next_arq of a direction beats every queued request of that direction |
| AsTheorems.BatchesNeverMix | linux-2.6.17.new/block/as-iosched.c:995-1045 | in every run without mixing aliases all requests at the driver have one direction, the one of the batch unless it is turning round; a batch turning round has something out; changed_batch and new_batch are never both set |
| AsTheorems.AliasMixesExactly | linux-2.6.17.new/block/as-iosched.c:1340-1374 | in every such run an addition breaks the separation exactly when it evicts a request at its own sector of the direction that the batch does not send, and reads and writes are then at the driver together exactly if something was out before |
| AsTheorems.AnticipationIsAnchored | linux-2.6.17.new/block/as-iosched.c:601-675 | in every run with contexts allocated, waiting implies a known process, waiting for the next request implies a timer armed or firing, waiting for a completion implies a request of that process out |
| AsTheorems.WaitingHasContext | linux-2.6.17.new/block/as-iosched.c:827-902 | in every run, contexts allocated or not, waiting implies a known process, so the BUG_ON on a missing context is out of reach |
| AsTheorems.HeldBackMeansOutstanding | linux-2.6.17.new/block/as-iosched.c:1178-1335 | in every run, when a dispatch with requests queued sends nothing, a request is out or the timer is armed or firing |
| AsTheorems.UnanchoredGetsStuck | linux-2.6.17.new/block/as-iosched.c:1134-1155 | in a state in which the anticipated process has nothing out and is not finished, a dispatch with a read of another process waits for a completion that cannot come |
| AsReach.StuckReached | linux-2.6.17.new/block/as-iosched.c:827-902 | the condition on contexts is needed: whatever the tunables, if anticipation is on, a run from the fresh scheduler with one read without a context ends in that wait, the answer of the statistics being the one the code computes |
| AsReach.MixingReached | linux-2.6.17.new/block/as-iosched.c:1340-1374 | the condition on aliases is needed: after a read is sent and a write queued, a second write to its sector puts read and write at the driver together |
| AsTheorems.StuckStays | linux-2.6.17.new/block/as-iosched.c:1178-1335 | until a new request arrives no step ends that wait |
| AsObject.AsData.constructor | linux-2.6.17.new/block/as-iosched.c:1651-1706 | a fresh scheduler is in the state every run starts from |
| AsObject.AsData.Timeout | linux-2.6.17.new/block/as-iosched.c:651-675 | the timer ends a wait and keeps a wait for nobody out of reach |
| AsObject.AsData.ServeOrExpired | linux-2.6.17.new/block/as-iosched.c:1303-1312 | the head of an expired FIFO goes first |
| AsObject.AsData.SwitchBatch | linux-2.6.17.new/block/as-iosched.c:1251-1298 | the other direction gets its batch as specified |
| AsObject.AsData.ContinueBatch | linux-2.6.17.new/block/as-iosched.c:1226-1249 | the running batch goes on as specified |
| AsObject.AsData.ReadBatch | linux-2.6.17.new/block/as-iosched.c:1230-1240 | a read batch goes on, anticipates or ends; the BUG_ON of a second wait cannot fire |
| AsObject.AsData.Dispatch | linux-2.6.17.new/block/as-iosched.c:1178-1335 | the whole decision has the specified result; index agreement and a known process are kept, and anticipation stays anchored |
| AsObject.AsData.AddToTree | linux-2.6.17.new/block/as-iosched.c:416-424 | requests at the sector are sent until it is free |
| AsObject.AsData.Update | linux-2.6.17.new/block/as-iosched.c:944-961 | next_arq is compared with the new request, and a wait may be broken |
| AsObject.AsData.Add | linux-2.6.17.new/block/as-iosched.c:1340-1374 | the addition has the specified result; a known process stays known, and anticipation stays anchored if the request has a context |
| AsObject.AsData.FinishContext | linux-2.6.17.new/block/as-iosched.c:1030-1040 | the completion awaited starts the second wait; its BUG_ON cannot fire |
| AsObject.AsData.Complete | linux-2.6.17.new/block/as-iosched.c:995-1045 | the completion has the specified result and keeps anticipation anchored |
| AsObject.AsData.ForceSide | linux-2.6.17.new/block/as-iosched.c:1199-1209 | one loop of a forced dispatch empties its direction, sends each of its requests once and leaves the other direction alone |
| AsObject.AsData.ForcedDispatch | linux-2.6.17.new/block/as-iosched.c:1185-1212 | a forced dispatch leaves nothing behind and sends every queued request once |
| CfqRotation.RotatedIsNextLevel | linux-2.6.17.new/block/cfq-iosched.c:836-881 | the rule "the first waiting turn of the triangle from here on" determines level and next turn |
| CfqRotation.ChoiceWithinRound | linux-2.6.17.new/block/cfq-iosched.c:836-881 | the level chosen is found within one round of 36 turns |
| CfqRotation.BoundedWait | linux-2.6.17.new/block/cfq-iosched.c:836-881 | a level that stays non-empty is chosen within any 36 calls in a row |
| CfqRotation.FairShare | linux-2.6.17.new/block/cfq-iosched.c:836-881 | with all levels busy, level p gets exactly 8 - p of any 36 turns in a row |
| CfqRotation.Rotation.ScanRow | linux-2.6.17.new/block/cfq-iosched.c:845-850 | the inner loop finds the first waiting level of the rest of the row |
| CfqRotation.Rotation.GetNextPrioLevel | linux-2.6.17.new/block/cfq-iosched.c:836-881 | the loop ends, keeps 0 <= cur_prio <= cur_end_prio < 8, follows the rule, and gives -1 exactly when no level waits |
| CfqTheorems.ServedHasRequests | linux-2.6.17.new/block/cfq-iosched.c:1065-1071 | a queue on a service list has a request to dispatch and next_crq is one, so the BUG_ON on an empty queue is out of reach |
| CfqTheorems.BusyMeansListed | linux-2.6.17.new/block/cfq-iosched.c:534-553 | busy_queues is positive exactly when some service list is not empty |
| CfqTheorems.LevelFound | linux-2.6.17.new/block/cfq-iosched.c:836-881 | the current list is filled exactly when some level waits |
| CfqTheorems.ActivateInv | linux-2.6.17.new/block/cfq-iosched.c:883-917 | choosing the active queue keeps the invariant and chooses a queue with requests |
| CfqTheorems.ActivateFinds | linux-2.6.17.new/block/cfq-iosched.c:883-917 | a queue is chosen exactly when a queue of a class that may be served is waiting |
| CfqTheorems.StepInv | linux-2.6.17.new/block/cfq-iosched.c:475-968 | every step (new queue, priority, insertion, merge, removal, completion, slice end, activation, preemption, dispatch) keeps the invariant of lists, indexes and counters |
| CfqTheorems.RunInv | linux-2.6.17.new/block/cfq-iosched.c:475-968 | so does every run |
| CfqTheorems.OnOneServiceList | linux-2.6.17.new/block/cfq-iosched.c:475-553 | in every run a queue with requests is on exactly one service list and one without is on none |
| CfqTheorems.QueueIndexesAgree | linux-2.6.17.new/block/cfq-iosched.c:558-634 | in every run the tree and the FIFO of a queue hold the same requests, next_crq is one of them or unset when there is none, the queued counters count the tree, and busy_queues counts the queues with requests |
| CfqTheorems.PreemptedGoesFirst | linux-2.6.17.new/block/cfq-iosched.c:475-512 | a preempted queue comes first on its list exactly if at most one other is there; the comment beside the code says it always does |
| CfqPreempt.NeverEnds | linux-2.6.17.new/block/cfq-iosched.c:1719-1732 | with two queues that go back to the list in front of its last one, the walk over the list is not over after any number of rounds |
| CfqPreempt.EndsSoon | linux-2.6.17.new/block/cfq-iosched.c:1719-1732 | with at most one it is over after finitely many |
| CfqPreempt.WalkAgrees | linux-2.6.17.new/block/cfq-iosched.c:1719-1732 | resorting queue after queue moves the current list as the walk says, and keeps the invariant |
| CfqPreempt.PreemptEndsExactly | linux-2.6.17.new/block/cfq-iosched.c:1719-1732 | the loop of cfq_preempt_queue ends exactly when at most one real time queue stands on the current list in front of its last queue |
| CfqReach.EndlessLoopReached | linux-2.6.17.new/block/cfq-iosched.c:1719-1804 | a run from the fresh scheduler reaches a state without an active queue in which that loop never ends |
| CfqObject.CfqData.SortPlace | linux-2.6.17.new/block/cfq-iosched.c:514-527 | the backward scan finds the place by time of last service |
| CfqObject.CfqData.ResortRrList | linux-2.6.17.new/block/cfq-iosched.c:475-528 | the queue ends up on the list of its class and priority, in its place |
| CfqObject.CfqData.AddCfqqRr | linux-2.6.17.new/block/cfq-iosched.c:534-542 | a queue that gets its first request is counted and listed; the precondition is the BUG_ON |
| CfqObject.CfqData.DelCfqqRr | linux-2.6.17.new/block/cfq-iosched.c:544-553 | a queue that loses its last request leaves the service lists; the preconditions are the BUG_ONs |
| CfqObject.CfqData.EvictAliases | linux-2.6.17.new/block/cfq-iosched.c:609-614 | requests at the sector are dispatched until it is free |
| CfqObject.CfqData.AddCrqRb | linux-2.6.17.new/block/cfq-iosched.c:599-625 | counters, aliases, tree and next_crq as specified, the queue listed if it was not |
| CfqObject.CfqData.InsertRequest | linux-2.6.17.new/block/cfq-iosched.c:1808-1824 | an insertion has the specified result and keeps the invariant |
| CfqObject.CfqData.MergedRequest | linux-2.6.17.new/block/cfq-iosched.c:627-634 | repositioning after a front merge keeps the invariant, although the queue may leave the lists and come back |
| CfqObject.CfqData.SendOne | linux-2.6.17.new/block/cfq-iosched.c:959-968 | one dispatch keeps the invariant and adds no queue to a service list |
| CfqObject.CfqData.SendCounted | linux-2.6.17.new/block/cfq-iosched.c:959-968 | what is sent is exactly what the queues no longer hold |
| CfqObject.CfqData.CheckFifo | linux-2.6.17.new/block/cfq-iosched.c:973-994 | an expired head of the FIFO is found once per slice and is in the tree |
| CfqObject.CfqData.SendNext | linux-2.6.17.new/block/cfq-iosched.c:1073-1090 | each round sends an expired request or next_crq |
| CfqObject.CfqData.DispatchRequests | linux-2.6.17.new/block/cfq-iosched.c:1065-1117 | sends between one request and the allowance, or all there are; nothing is lost or doubled |
| CfqObject.CfqData.DrainQueue | linux-2.6.17.new/block/cfq-iosched.c:1119-1134 | a queue is sent completely, its FIFO is then empty as the BUG_ON demands, and it leaves the lists |
| CfqObject.CfqData.DrainList | linux-2.6.17.new/block/cfq-iosched.c:1119-1134 | each list ends up empty and no queue joins another |
| CfqObject.CfqData.ForcedDispatch | linux-2.6.17.new/block/cfq-iosched.c:1136-1153 | a forced dispatch sends every pending request exactly once, leaves every queue empty and busy_queues zero as the BUG_ON demands |
| CfqObject.CfqData.SliceExpired | linux-2.6.17.new/block/cfq-iosched.c:778-824 | the end of a slice resorts the queue and sends nothing |
| CfqObject.CfqData.PutAllBack | linux-2.6.17.new/block/cfq-iosched.c:1723-1724 | the loop ends after the number of rounds the walk takes and keeps the invariant |
| CfqObject.CfqData.PreemptQueue | linux-2.6.17.new/block/cfq-iosched.c:1719-1732 | where the loop ends the queue becomes the active one, nothing is sent or lost, and the invariant is kept |
| CfqObject.CfqData.FillCur | linux-2.6.17.new/block/cfq-iosched.c:836-881 | an empty current list is refilled from the next level |
| CfqObject.CfqData.SetActiveQueue | linux-2.6.17.new/block/cfq-iosched.c:883-917 | the queue chosen has requests; none is chosen only if none is busy or the idle class has to wait |
| CfqObject.CfqData.SelectQueue | linux-2.6.17.new/block/cfq-iosched.c:1030-1063 | the queue selected has requests; none is selected only if none is busy or the scheduler idles |
| CfqObject.CfqData.Dispatch | linux-2.6.17.new/block/cfq-iosched.c:1155-1183 | a dispatch sends what it reports, loses nothing, and sends nothing only for one of the stated reasons |
| DeadlineTheorems.LookupIsScan | linux-2.6.17.new/block/deadline-iosched.c:139-163 | the hash finds a request exactly when a scan of all queued requests would find a mergeable one that ends there, and cleaning the chain loses nothing |
| DeadlineTheorems.HeadSpeaksForAll | linux-2.6.17.new/block/deadline-iosched.c:455-466 | testing the head of a FIFO tells whether anything on it has expired |
| DeadlineTheorems.DispatchKeeps | linux-2.6.17.new/block/deadline-iosched.c:472-566 | a dispatch sends one queued request unless nothing is queued, and keeps the indexes in agreement |
| DeadlineTheorems.AbsorbKeeps | linux-2.6.17.new/block/deadline-iosched.c:373-411 | so does a merge of two requests |
| DeadlineTheorems.StepKeeps | linux-2.6.17.new/block/deadline-iosched.c:101-566 | every step keeps FIFO, tree, hash and next pointer in agreement |
| DeadlineTheorems.RunKeeps | linux-2.6.17.new/block/deadline-iosched.c:101-566 | so does every run |
| DeadlineTheorems.IndexesAgree | linux-2.6.17.new/block/deadline-iosched.c:176-306 | in every run FIFO and tree of a direction hold the same requests, the FIFO is sorted by expiry, next_drq leads into its tree and is set for at most one direction, and the hash answers as a scan would |
| DeadlineTheorems.ReachableSound | linux-2.6.17.new/block/deadline-iosched.c:101-566 | every run ends in a state from which the starvation bound holds |
| DeadlineStarvation.PotentialBound | linux-2.6.17.new/block/deadline-iosched.c:472-566 | the potential is at most (writes_starved + 1) * max(1, fifo_batch) |
| DeadlineStarvation.ReadCosts | linux-2.6.17.new/block/deadline-iosched.c:472-566 | every read picked while a write is pending uses up some of the potential |
| DeadlineStarvation.WritesDoNotStarve | linux-2.6.17.new/block/deadline-iosched.c:472-566 | however other operations are interleaved, at most (writes_starved + 1) * max(1, fifo_batch) dispatches in a row pick reads while a write is pending |
| DeadlineObject.DeadlineData.FindDrqHash | linux-2.6.17.new/block/deadline-iosched.c:139-163 | the loop answers as specified and drops entries that may not be merged any more |
| DeadlineObject.DeadlineData.AddDrqRb | linux-2.6.17.new/block/deadline-iosched.c:199-215 | the retry loop ends: requests at the sector are sent until it is free |
| DeadlineObject.DeadlineData.AddRequest | linux-2.6.17.new/block/deadline-iosched.c:276-293 | an addition keeps the indexes in agreement |
| DeadlineObject.DeadlineData.MergedRequest | linux-2.6.17.new/block/deadline-iosched.c:353-371 | a request that has grown is found again under its new sectors |
| DeadlineObject.DeadlineData.Search | linux-2.6.17.new/block/deadline-iosched.c:500-556 | the direction and the request are those the specification settles on |
| DeadlineObject.DeadlineData.Select | linux-2.6.17.new/block/deadline-iosched.c:480-562 | so is the choice between going on with the batch and a new search |
| DeadlineObject.DeadlineData.Dispatch | linux-2.6.17.new/block/deadline-iosched.c:472-566 | a dispatch has the specified result and keeps the indexes in agreement |
| DeadlineObject.DeadlineData.Drain | linux-2.6.17.new/block/elevator.c:322-334 | dispatching until nothing comes sends every queued request exactly once |
| Segments.GreedyCuts | linux-2.6.17.new/block/ll_rw_blk.c:1318-1362 | the entries built cover the pieces in order, each within the limits |
| Segments.GreedyIsShortest | linux-2.6.17.new/block/ll_rw_blk.c:1318-1362 | no other way of cutting the pieces into legal entries needs fewer of them |
| Segments.RecountCuts | linux-2.6.17.new/block/ll_rw_blk.c:1215-1274 | the segments counted for one bio are legal entries |
| Segments.SumCuts | linux-2.6.17.new/block/ll_rw_blk.c:1215-1274 | those segments, bio after bio, are one legal cut of the whole request |
| RequestBuild.CounterIsSum | linux-2.6.17.new/block/ll_rw_blk.c:1371-1540 | for a request built by front and back merges of bios and by joins of requests, in any order, nr_phys_segments is the sum of the counts of its bios less the joins that shared a segment |
| RequestBuild.CountedTallies | linux-2.6.17.new/block/ll_rw_blk.c:1371-1540 | the counter is the length of one definite list that covers the pieces of the request by runs contiguous in memory |
| RequestBuild.ListFits | linux-2.6.17.new/block/ll_rw_blk.c:1318-1362 | if those runs are within the size limit, the list of blk_rq_map_sg fits into nr_phys_segments entries |
| RequestBuild.SeparateNeedsAll | linux-2.6.17.new/block/ll_rw_blk.c:1318-1362 | a legal list of runs that do not touch has each of them as an entry, or is longer |
| RequestBuild.FitsExactly | linux-2.6.17.new/block/ll_rw_blk.c:1318-1540 | unless runs counted apart touch, the list fits exactly when every run counted is within the size limit |
| RequestBuild.OnceJoinedFits | linux-2.6.17.new/block/ll_rw_blk.c:1493-1540 | the list fits for every request in which no request of one segment was joined at both ends |
| RequestBuild.MergedBiosFit | linux-2.6.17.new/block/ll_rw_blk.c:1318-1414 | in particular for every request built by merges of bios alone, and there the counter is their sum |
| Segments.RecalcCuts | linux-2.6.17.new/block/ll_rw_blk.c:3131-3172 | the count made again after a partial completion, less one for each two bios that share a segment, is the length of a legal list |
| Segments.RecountedFits | linux-2.6.17.new/block/ll_rw_blk.c:3131-3172 | so the list still fits, for all bios that are left |
| Segments.RecalcSegments | linux-2.6.17.new/block/ll_rw_blk.c:3131-3172 | the loop counts at least as many segments as the list needs and at most the sum of the counts of the bios |
| RequestBuild.JoinUndercounts | linux-2.6.17.new/block/ll_rw_blk.c:1493-1540 | a request of one segment that is joined at both ends, each join right after a bio was merged in: three segments are counted, and three entries are enough exactly if the three pieces that meet may share one |
| RequestBuild.UndercountReached | linux-2.6.17.new/block/ll_rw_blk.c:2738-2789 | for every even size limit, if the boundary window is at least four times as large, there are bios, merged and joined in an order the code follows, for which nr_phys_segments is too small |
| Segments.LegalIsContiguous | linux-2.6.17.new/block/ll_rw_blk.c:1318-1362 | a legal entry covers one contiguous range of addresses |
| Segments.ListKeepsBytes | linux-2.6.17.new/block/ll_rw_blk.c:1318-1362 | the list covers every byte of the request once and in order |
| Segments.MapPiece | linux-2.6.17.new/block/ll_rw_blk.c:1336-1357 | one piece lengthens the last entry or opens a new one |
| Segments.MapBio | linux-2.6.17.new/block/ll_rw_blk.c:1335-1358 | the inner loop builds the entries of the pieces seen |
| Segments.MapSg | linux-2.6.17.new/block/ll_rw_blk.c:1318-1362 | the array is filled in place with the entries of the greedy cut; with as many entries as segments counted, first or again, no write falls outside |
| Completion.LeftValid | linux-2.6.17.new/block/ll_rw_blk.c:3203-3311 | what is left is well formed, and is nothing exactly when all bytes were completed |
| Completion.LeftDropsBytes | linux-2.6.17.new/block/ll_rw_blk.c:3203-3311 | what is left is the payload without its first n bytes |
| Completion.EventsAreExact | linux-2.6.17.new/block/ll_rw_blk.c:3203-3311 | the bios are told of min(n, remaining) bytes, each of exactly the bytes it loses |
| Completion.CompletionsAdd | linux-2.6.17.new/block/ll_rw_blk.c:3203-3311 | completing a bytes and then b bytes leaves what completing a + b bytes leaves |
| Completion.CountersInStep | linux-2.6.17.new/block/ll_rw_blk.c:3174-3201 | the sector counters of an unfinished request stay in step with its bios exactly when whole sectors were completed; hard_sector + hard_nr_sectors never moves |
| Completion.Request.EndWholeBios | linux-2.6.17.new/block/ll_rw_blk.c:3239-3248 | the loop completes whole bios as specified |
| Completion.Request.EndWholeVecs | linux-2.6.17.new/block/ll_rw_blk.c:3249-3289 | the loop finds the piece in which the completion ends |
| Completion.Request.EndFirst | linux-2.6.17.new/block/ll_rw_blk.c:3203-3311 | bios, reports and counters change as specified, and the result says whether anything is pending |
| RequestPool.ThresholdsApart | linux-2.6.17.new/block/ll_rw_blk.c:100-113 | the off threshold is below the on threshold exactly when there are at least two requests |
| RequestPool.StepInv | linux-2.6.17.new/block/ll_rw_blk.c:2029-2165 | allocation, failed allocation, release and resize keep the marks of both directions exact |
| RequestPool.RunInv | linux-2.6.17.new/block/ll_rw_blk.c:2029-2165 | so does every interleaving |
| RequestPool.MarksAreExact | linux-2.6.17.new/block/ll_rw_blk.c:3704-3742 | in every run a direction is full iff count >= nr_requests, congested at or above the on threshold, not congested below the off threshold, and off < on |
| RequestPool.RequestList.FreedRequest | linux-2.6.17.new/block/ll_rw_blk.c:2048-2060 | a release has the specified result and keeps the marks exact |
| RequestPool.RequestList.TryReserve | linux-2.6.17.new/block/ll_rw_blk.c:2076-2120 | the locked part marks and counts as specified |
| RequestPool.RequestList.UndoReserve | linux-2.6.17.new/block/ll_rw_blk.c:2125-2147 | a failed allocation gives the reservation back |
| RequestPool.RequestList.GetRequest | linux-2.6.17.new/block/ll_rw_blk.c:2068-2165 | a request is had exactly when reservation and memory allow it, the counts follow, and the marks stay exact |
| RequestPool.RequestList.Store | linux-2.6.17.new/block/ll_rw_blk.c:3704-3742 | a resize has the specified result and keeps the marks exact |
| CipherModes.FlatSplit | linux-2.6.17.new/crypto/cipher.c:182-261 | cutting a message at a block boundary and carrying the vector over changes nothing |
| CipherModes.CbcRoundTrip | linux-2.6.17.new/crypto/cipher.c:182-241 | CBC decryption undoes CBC encryption for every invertible block function and leaves the same vector |
| CipherModes.EcbRoundTrip | linux-2.6.17.new/crypto/cipher.c:243-261 | so does ECB |
| ScatterWalk.Walk.Start | linux-2.6.17.new/crypto/scatterwalk.c:39-53 | the walk stands at the first byte of an entry; the precondition is the BUG_ON |
| ScatterWalk.Walk.PageDone | linux-2.6.17.new/crypto/scatterwalk.c:68-86 | the walk moves to the next page or the next entry |
| ScatterWalk.Walk.Done | linux-2.6.17.new/crypto/scatterwalk.c:88-93 | the walk stands where bytes are left if more is to come |
| ScatterWalk.Walk.Contiguous | linux-2.6.17.new/crypto/scatterwalk.h:43-47 | the bytes up to the end of the entry lie one after the other from the current address |
| CipherWalk.CopyIn | linux-2.6.17.new/crypto/scatterwalk.c:99-114 | the bytes ahead, over however many pages and entries, are gathered in order |
| CipherWalk.CopyOut | linux-2.6.17.new/crypto/scatterwalk.c:99-114 | and scattered in order, nothing else changing |
| CipherWalk.EncryptBlock | linux-2.6.17.new/crypto/cipher.c:182-206 | one block of CBC encryption: the vector becomes the block written |
| CipherWalk.DecryptBlock | linux-2.6.17.new/crypto/cipher.c:208-241 | one block of CBC decryption: the vector becomes the block read, also in place |
| CipherWalk.DecryptInPlace | linux-2.6.17.new/crypto/cipher.c:208-241 | where source and target are the same block, the private buffer keeps the source until the vector has been read |
| CipherWalk.DecryptAcross | linux-2.6.17.new/crypto/cipher.c:208-241 | otherwise the block is made in the target, and the source is unchanged when the vector is read from it |
| CipherWalk.Process | linux-2.6.17.new/crypto/cipher.c:182-261 | the loop over whole blocks equals the flat mode, also when source and target are the same buffer |
| CipherWalk.CryptFast | linux-2.6.17.new/crypto/cipher.c:61-86 | a fast step, with or without the bounce page, writes the flat result of the bytes it takes |
| CipherWalk.CryptSlow | linux-2.6.17.new/crypto/cipher.c:40-59 | so does a slow step of one block that crosses pages |
| CipherWalk.CryptStep | linux-2.6.17.new/crypto/cipher.c:132-140 | whichever step is taken, the bytes it takes come out as the flat result |
| CipherWalk.CryptLoop | linux-2.6.17.new/crypto/cipher.c:115-149 | the loop ends and the whole message comes out as the flat result |
| CipherWalk.Crypt | linux-2.6.17.new/crypto/cipher.c:93-155 | for every way of cutting source and target into segments and pages, in place or disjoint, the target holds exactly the flat result and nothing else changes; a length that is no multiple of the block size is refused and changes nothing |
| CipherWalk.CryptedSplit | linux-2.6.17.new/crypto/cipher.c:93-155 | two calls that meet at a block boundary do what one call does |
| CipherWalk.EncryptDecrypt | linux-2.6.17.new/crypto/cipher.c:93-155 | scattered CBC decryption after scattered CBC encryption restores the bytes |
| Des.KernelIsLawful | linux-2.6.17.new/crypto/des.c:530-607 | the word operations of the permutations and of the rounds undo themselves as the proofs need |
| Des.FinalUndoesInitial | linux-2.6.17.new/crypto/des.c:530-594 | the final permutation undoes the initial one |
| Des.InitialUndoesFinal | linux-2.6.17.new/crypto/des.c:530-594 | and the other way round |
| Des.PassBack | linux-2.6.17.new/crypto/des.c:596-607 | the rounds in reverse order on the halves exchanged lead back |
| Des.DecryptUndoesEncrypt | linux-2.6.17.new/crypto/des.c:806-848 | decryption undoes encryption for every schedule and every round function |
| Des.EncryptUndoesDecrypt | linux-2.6.17.new/crypto/des.c:806-848 | encryption undoes decryption |
| Des.FusedEncryption | linux-2.6.17.new/crypto/des.c:884-913 | the fused pass with the middle schedule reversed equals encryption under k1, decryption under k2, encryption under k3 |
| Des.FusedDecryption | linux-2.6.17.new/crypto/des.c:915-944 | and fused decryption the three inverse steps |
| Des.Decrypt3UndoesEncrypt3 | linux-2.6.17.new/crypto/des.c:884-944 | fused decryption undoes fused encryption for every three schedules |
| DesCode.EKey | linux-2.6.17.new/crypto/des.c:637-711 | the sixteen round keys are written from the last pair of words down to the first: the array holds the encryption schedule and nothing outside is touched |
| DesCode.EHalf | linux-2.6.17.new/crypto/des.c:643-694 | one half of the words: sixteen assignments in the order and with the register rotations of the source |
| DesCode.DHalf | linux-2.6.17.new/crypto/des.c:722-770 | the same, from the first pair of words up |
| DesCode.WrittenDown | linux-2.6.17.new/crypto/des.c:637-711 | values written downwards are the schedule |
| DesCode.WrittenUp | linux-2.6.17.new/crypto/des.c:719-784 | values written upwards are the schedule in reverse |
| DesCode.DKey | linux-2.6.17.new/crypto/des.c:719-784 | the same round keys written from the first pair of words up: the array holds the encryption schedule reversed and nothing outside is touched |
| DesCode.Fixup | linux-2.6.17.new/crypto/des.c:696-707 | the closing loop exchanges the halves of each pair of words |
| DesCode.EightTimes | linux-2.6.17.new/crypto/des.c:806-826 | eight times two rounds in a loop are the sixteen rounds of the specification |
| DesCode.DesEncrypt | linux-2.6.17.new/crypto/des.c:806-826 | computes encryption under the schedule in the array |
| DesCode.DesDecrypt | linux-2.6.17.new/crypto/des.c:828-848 | computes decryption under the schedule in the array |
| DesCode.Des3SetKey | linux-2.6.17.new/crypto/des.c:863-882 | refuses exactly the keys of which two neighbours are equal, and otherwise fills the context with schedule, reversed schedule, schedule |
| DesCode.Des3Encrypt | linux-2.6.17.new/crypto/des.c:884-913 | computes the fused encryption of the context |
| DesCode.Des3Decrypt | linux-2.6.17.new/crypto/des.c:915-944 | computes the fused decryption of the context |
| DesCode.TripleDes | linux-2.6.17.new/crypto/des.c:863-944 | with the context that setkey makes, encryption is E(k3) after D(k2) after E(k1), and decryption undoes it |
| DesCode.KernelTripleDes | linux-2.6.17.new/crypto/des.c:530-944 | the same for the word operations and the key schedule of this file, whatever its tables hold |
| BlockStream.Continue | linux-2.6.17.new/crypto/sha1.c:49-79 | absorbing more data needs only the chaining state and the bytes left over |
| BlockStream.ZeroBytesLeast | linux-2.6.17.new/crypto/sha1.c:93-96 | the padding is the least that fills blocks |
| BlockStream.PaddingUsed | linux-2.6.17.new/crypto/sha1.c:93-97 | the prefix of the static padding that is used is the padding of the standard |
| Sha1.GuardIsRight | linux-2.6.17.new/crypto/sha1.c:60-60 | the sum in the guard means what it says exactly when it does not wrap |
| Sha1.WrappedOffset | linux-2.6.17.new/crypto/sha1.c:63-67 | the negated unsigned offset plus a block is what the buffered block lacks |
| Sha1.Context.constructor | linux-2.6.17.new/crypto/sha1.c:37-47 | a fresh context has absorbed nothing |
| Sha1.Context.FirstBlock | linux-2.6.17.new/crypto/sha1.c:63-71 | the buffered block is completed, or the first block of the data is taken |
| Sha1.Context.MoreBlocks | linux-2.6.17.new/crypto/sha1.c:69-73 | the loop takes every further block and leaves less than one |
| Sha1.Context.Update | linux-2.6.17.new/crypto/sha1.c:49-79 | after any update the context has absorbed the message so far followed by the data: state, buffer and count |
| Sha1.Context.Final | linux-2.6.17.new/crypto/sha1.c:83-107 | the result is the fold over the whole message, padded, with its length in bits |
| DigestList.UpdateEntry | linux-2.6.17.new/crypto/digest.c:37-51 | cutting an entry at page boundaries feeds exactly its bytes in order |
| DigestList.UpdateList | linux-2.6.17.new/crypto/digest.c:26-53 | a scatterlist feeds exactly its bytes in order |
| DigestList.HashLists | linux-2.6.17.new/crypto/digest.c:21-58 | init, any number of scatterlist updates and final give the hash of the concatenation |
| Md5.LengthWords | linux-2.6.17.new/crypto/md5.c:207-208 | the two length words stored by hand are the eight bytes of the length |
| Md5.Context.constructor | linux-2.6.17.new/crypto/md5.c:150-159 | a fresh context has absorbed nothing |
| Md5.Context.Blocks | linux-2.6.17.new/crypto/md5.c:181-188 | the loop takes every full block and buffers the rest |
| Md5.Context.Update | linux-2.6.17.new/crypto/md5.c:161-189 | after any update the context has absorbed the message so far followed by the data |
| Md5.Context.PadBlock | linux-2.6.17.new/crypto/md5.c:191-206 | the byte 0x80 and the zeros, in a block of their own when this one is too full, are the padding of the standard |
| Md5.Context.LastBlock | linux-2.6.17.new/crypto/md5.c:207-211 | the last transform is that of the padded block with the length |
| Md5.Context.Final | linux-2.6.17.new/crypto/md5.c:191-215 | the result is the fold over the whole message, padded, with its length in bits |
| Sha256.LowWord | linux-2.6.17.new/crypto/sha256.c:253-257 | the low word of the counter is always right, and so is the place in the buffer |
| Sha256.HighWordIff | linux-2.6.17.new/crypto/sha256.c:257-260 | the high word stays right exactly when the update is shorter than 2^29 bytes or the low word carries |
| Sha256.LongUpdateMiscounted | linux-2.6.17.new/crypto/sha256.c:257-260 | a first update of 2^29 bytes leaves the high word at zero where one is right |
| Sha256.Context.constructor | linux-2.6.17.new/crypto/sha256.c:233-246 | a fresh context has absorbed nothing and counts exactly |
| Sha256.Context.MoreBlocks | linux-2.6.17.new/crypto/sha256.c:269-270 | the loop takes every further block and leaves less than one |
| Sha256.Context.Update | linux-2.6.17.new/crypto/sha256.c:248-278 | after any update the context has absorbed the message so far followed by the data, and an exact count stays exact under the condition of HighWordIff and no other |
| Sha256.Context.Final | linux-2.6.17.new/crypto/sha256.c:280-307 | the result is the fold over the padded message with the counter as its length, which is the standard hash when the count is exact |

## Left out

- Tagged ordering of barriers, and the functions a driver may install to prepare a request; a request killed there is one that is taken off and ended.
- The barrier theorems are about schedulers that send with `elv_dispatch_sort` and keep their requests in one list; the deadline scheduler, which appends to the dispatch queue, and the trees and FIFOs of the others are proved on their own, not behind the barrier protocol.
- Request identities are taken to be unique, as addresses of live requests are.
- ElevatorOrder.DispatchQueueIsElevator: commands, requests put at the front and requeued requests are excluded, because they move `end_sector` at will.
- Merging in the anticipatory scheduler, its hash, and how the statistics of think times and seek distances are gathered; the guess made from them is a parameter that may be anything, and is worked out only in `AsReach`.
- AsTheorems.BatchesNeverMix: a forced dispatch is not one of its steps, because it resets the batch on purpose.
- Wrap-around of jiffies.
- Slice lengths, idling timers, the test whether to preempt, and the allocation and freeing of queues and contexts in CFQ; whether a slice is over and whether to idle are parameters.
- CfqTheorems.StepInv: completion, change of priority and creation of a queue are steps on values and not methods of the object; one round of the preemption loop is a step of its own.
- CfqObject.CfqData.PreemptQueue: called only where the loop ends, because a method has to end.
- RequestBuild.FitsExactly: where runs that are counted apart touch in memory, the count has slack, and only the sufficient condition of `RequestBuild.ListFits` is stated.
- Segments.RecalcSegments: the hardware segments counted in the same loop are not modelled.
- Hardware segment sizes, and the boundary mask other than as a test on adjacent pieces.
- Completion.Request.EndFirst: the single loop of the source is written as one loop over whole bios and one within a bio; barrier bios and the rewinding of their vectors are not part of this model.
- The counting of batching processes in the request pool; whether a process is batching is a parameter.
- Vectors that are not aligned, yielding, and the mapping of pages in the cipher layer; memory is one array of bytes.
- The tables of DES (S-boxes, permuted choices) and its weak-key test; the schedules are proved for all tables.
- The compression functions of the hashes, the byte order of the digests written out, and the wiping of contexts; the results hold for every compression function.
- Sha1.Context.Update: the bytes buffered and the data together must be fewer than 2^32, the condition under which the guard of the code is right (`Sha1.GuardIsRight`).
- Sha256.Context.Update: the same bound, under which the index of the loop does not wrap.
- The one-shot `digest` entry of the digest interface, HMAC, and the other ciphers and hashes, which would repeat the same shapes.
- Everything else in the two directories: sysfs text, ioctls, reference counts, tracing, tag allocation, the elevator switch.
