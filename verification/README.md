# Verified models of GlassDB's coordination core

GlassDB keeps a transactional key-value database on plain object storage. This project models, in
Dafny, the parts of it whose correctness is hard to see from the code, and proves what their design
promises, over every run and every input.

- **The deduplicator** (`DedupQueue`, `DedupMachine`, `DedupCell`, `DedupSystem`, `DedupRuns` and the
  proofs beside them; `DedupMerge` says by position and liveness what each step decides; `KeyQueue` and `KeyMachine` are the structures changed in place). Concurrent
  submissions for one key merge into rounds run by one driver at a time. The model interleaves every
  critical section of the shard lock, every delivery outside it, dropped futures, handoffs to owner
  tasks, callers that stop waiting at any moment, and concurrent `close` calls. Whether a caller still
  waits is the set `dead`; a round start looks at it twice, as the code does.
- **The cached object store** (`CacheKnowledge`, `CacheProtocol`, `CacheInvariant`, `CacheSteps`,
  `CacheGuarantees`, `CacheSuperseded`, `CacheRounds`, `CacheAnswers`, `CacheCalls`; `KnowledgeStore` and `Timeline` in place). Cache entries and
  observations share watermarks. The model runs readers, currentness checks and conditional mutations of
  one path against a backend that other instances change, with lost replies, eviction and cancellation.
  The backend chooses every revision token; all it promises is that one token never stands for two
  contents, so equal contents may get an old token back or a new one. Other paths appear as sequence
  points they allocate. `CachePaths` puts many paths side by side on one timeline; `CheckMany` and
  `CheckManyRuns` run a call over them that checks a list of retained observations.
- **Codecs and splits** (`Base64`, `Wire`, `LeafCodec`, `LeafRoundTrip`, `LeafFormat`, `LeafCanonical`, `LeafSplit`, over
  `Lexicographic` and `OrderedMap`): the order-preserving base64 of paths, the canonical protobuf form of
  a leaf, and the half-split of leaves.
- **The LRU shard and the in-memory store** (`LruShard`, `MemoryBackend`): exact byte accounting under
  overflow, and listing page by page while the store changes.
- **Two protocols** (`ConditionalPut`, `Background`): the S3 conditional-write retry policy, and admission
  and shutdown of background tasks.

A state machine here is a set of events, each enabled in some states, and a run is any sequence of enabled
events from the initial state. An operation the code performs by changing structures in place is a class
whose methods are proved against the functions the theorems are about. Nothing was executed.

## What was found

- A round start can drop callers that still wait. `form_batch` prunes, seeds and prunes again; if the seed
  dies between the two looks while others wait, `start_round` removes the key with them. This happens
  exactly when the freshly formed batch died between the two looks (`StartLosesLiveOnlyWhenTorn`), it is
  reachable without any close (`TornSeedDropsALiveCaller`), and it is the only way short of a shutdown
  (`WaitersAreNeverDropped`).
- The "non-mergeable request inside a batch" panic is reachable in some run exactly when the request type's
  merge is not closed under deletion (`PanicReachableExactly`).
- A conditional write can report a definitive error although it took effect in exactly one situation: ten
  retries that were all answered, then a lost answer at the eleventh attempt (`HiddenExactlyAtTheEnd`;
  `ThrottledThenLostCanHide` is such a write).
- Sequence points increase strictly exactly until the 64-bit counter is exhausted, and repeat from then on
  (`PointsIncreaseUntilExhausted`, `ExhaustedPointsRepeat`).
- A leaf body that decodes need not be the one written for its leaf: an unknown field is dropped
  (`UnknownFieldsAreDropped`). Which bodies survive unchanged can be told from their bytes
  (`RewritesToItselfExactly`), and one rewriting is enough (`RewritingIsStable`).

## Model

| member | source | states |
|---|---|---|
| `DedupGuarantees.OneEntitledParty` | crates/glassdb-concurr/src/dedup.rs:917-1099 | In every state of every run, a key in the map has exactly one entitled task, standing where the phase expects it; all others are on their way out (or were swept by close); at most one worker round is in flight |
| `DedupGuarantees.StrangersLeaveTheMachine` | crates/glassdb-concurr/src/dedup.rs:475-654 | No event of a task the phase does not name changes the machine |
| `DedupMachine.StrangersChangeNothing` | crates/glassdb-concurr/src/dedup.rs:475-654 | Every transition called under another driver id leaves the machine, its queue and all effects unchanged |
| `DedupRuns.InvKept` | crates/glassdb-concurr/src/dedup.rs:917-1153 | Every event on any key and every step of every close call keeps the whole invariant |
| `DedupRuns.AlwaysInv` | crates/glassdb-concurr/src/dedup.rs:1288-1359 | The invariant holds in every state of every run |
| `DedupGuarantees.ExactlyOnePlace` | crates/glassdb-concurr/src/dedup.rs:111-275 | Every submitted member is counted exactly once over batch, reorderable, FIFO, pending, delivered, discarded and retired, and nobody else is anywhere, even on a key whose merge panicked |
| `DedupGuarantees.WaitersAreNeverDropped` | crates/glassdb-concurr/src/dedup.rs:475-637 | Short of a close or a torn seed, a member still waited for is queued, pending or delivered |
| `DedupFates.AbandonsNobody` | crates/glassdb-concurr/src/dedup.rs:255-257 | A round that ends for want of live callers has an empty batch, so abandoning it drops nobody |
| `DedupMachine.StartLosesLiveOnlyWhenTorn` | crates/glassdb-concurr/src/dedup.rs:184-199 | A round start removes the key with live members queued if and only if the batch formed at the first look died before the second while others wait |
| `DedupMachine.StartLosesNobody` | crates/glassdb-concurr/src/dedup.rs:475-503 | With liveness fixed during the transition, a removed key has nobody queued |
| `DedupLimits.TornSeedDropsALiveCaller` | crates/glassdb-concurr/src/dedup.rs:492-494 | A run without close in which a live strict member is retired with its key: the first caller is dropped in mid-round, and its receiver goes between the successor's two looks |
| `DedupGuarantees.FirstResultStands` | crates/glassdb-concurr/src/dedup.rs:338-407 | A member's result never changes once sent: nobody gets two |
| `DedupGuarantees.InlineCallersGetTheirResult` | crates/glassdb-concurr/src/dedup.rs:1079-1099 | An inline caller that returns has its own submission's result, unless closing |
| `DedupGuarantees.MergedFoldsTheLiveBatch` | crates/glassdb-concurr/src/dedup.rs:505-525 | What `merged()` reports is the left fold, in order, of exactly the batch then held; all of it is live, and it extends the live part of the former batch |
| `DedupGuarantees.RunningRoundsFold` | crates/glassdb-concurr/src/dedup.rs:731-744 | While a round runs its batch is what the worker last saw and folds to the merged request; a fired signal means an empty batch |
| `DedupGuarantees.RoundsSettleWhatTheWorkerSaw` | crates/glassdb-concurr/src/dedup.rs:962-1044 | A round's result goes to exactly the members of the worker's last `merged()` call and to nobody else |
| `DedupLimits.PanicReachableExactly` | crates/glassdb-concurr/src/dedup.rs:201-211 | Some run hits the panic if and only if the merge is not closed under deletion |
| `DedupLimits.NoRunPanics` | crates/glassdb-concurr/src/dedup.rs:178-199 | With a merge closed under deletion no state of any run has panicked |
| `DedupGuarantees.StrictMembersServedInOrder` | crates/glassdb-concurr/src/dedup.rs:139-275 | Once a strict member is served, every earlier strict member still waited for has been served too, over whole runs |
| `DedupRank.RankNeverRises` | crates/glassdb-concurr/src/dedup.rs:139-275 | The number of strict members owed service before a waiting one never rises, through prunes, merges, requeues and handoffs |
| `DedupRank.FinishedRoundLowersRank` | crates/glassdb-concurr/src/dedup.rs:184-252 | A finished round that began with an empty batch strictly lowers the rank of every strict member still waiting |
| `DedupGuarantees.ClosedForGood` | crates/glassdb-concurr/src/dedup.rs:1349-1359 | After any close call returned, forever: no owner is live, none is reserved, no task enters a worker round |
| `DedupGuarantees.OwnerCountIsExact` | crates/glassdb-concurr/src/dedup.rs:825-854 | The active-owner counter equals the number of live owner tasks in every state, so a release never underflows |
| `DedupQueue.MergeFolds` | crates/glassdb-concurr/src/dedup.rs:201-246 | Growing a batch keeps it as a prefix and leaves the left fold of exactly its members |
| `DedupMerge.MergeAbsorbs` | crates/glassdb-concurr/src/dedup.rs:201-246 | A merge takes, after the batch, exactly the reorderable members that merge onto the fold of the batch and those taken before them, then the FIFO up to the first that does not merge; whoever is left keeps its order, and the panic is exactly a batch that does not fold |
| `DedupMerge.PruneSurvive` | crates/glassdb-concurr/src/dedup.rs:148-167 | Pruning keeps exactly the members still waited for, at every position of every line, and discards the others in order |
| `DedupMerge.RefreshDecides` | crates/glassdb-concurr/src/dedup.rs:505-525 | A `merged()` call with nobody left cancels the round and reports no request; otherwise the survivors absorb whoever joins and their fold is reported |
| `DedupMerge.StartDecides` | crates/glassdb-concurr/src/dedup.rs:475-503 | A round start seeds an empty batch with the FIFO front, else the reorderable front, absorbs whoever joins, and removes the key exactly if closing or nobody of the batch survived the second look |
| `DedupMerge.FinishDecides` | crates/glassdb-concurr/src/dedup.rs:527-561 | A result delivers the whole batch, a round without callers gives it up, a shutdown removes the key as it is |
| `DedupMerge.FinalizeDecides` | crates/glassdb-concurr/src/dedup.rs:563-603 | With somebody still waiting an owner starts another round and an inline driver hands over; with nobody the key goes |
| `DedupMerge.DropDecides` | crates/glassdb-concurr/src/dedup.rs:605-637 | A dropped driver cancels its round; survivors go back, strict ones ahead of the FIFO and the others behind the reorderable line; a new owner is reserved exactly if somebody waits and nothing is closing |
| `DedupLines.NobodyIsOvertaken` | crates/glassdb-concurr/src/dedup.rs:139-275 | Over every turn of every run, those who stay in the reorderable line keep their order ahead of all newcomers |
| `DedupLines.SubmissionsWait` | crates/glassdb-concurr/src/dedup.rs:1288-1325 | Every submission is on record under a name of its own and waits last in its line; the first one of a key forms the batch and drives it |
| `DedupSignals.FiresExactly` | crates/glassdb-concurr/src/dedup.rs:505-654 | A round's signal is cancelled exactly by a `merged()` call that finds nobody left, by the loss of its driver or by clearing the key |
| `DedupSignals.AbandonedRoundsCanEnd` | crates/glassdb-concurr/src/dedup.rs:515-520 | After a `merged()` call that found nobody left, the round can end for want of callers |
| `DedupQueue.ScanFifoFacts` | crates/glassdb-concurr/src/dedup.rs:230-242 | The FIFO scan absorbs a prefix and stops at the first refusal |
| `DedupQueue.StrictLineForm` | crates/glassdb-concurr/src/dedup.rs:184-199 | Forming a batch only removes dead members from the strict line |
| `DedupQueue.StrictLineRequeue` | crates/glassdb-concurr/src/dedup.rs:260-275 | Requeuing puts the strict part of the batch back ahead of the FIFO, in its place in the line |
| `KeyQueues.KeyQueue.PruneQueue` | crates/glassdb-concurr/src/dedup.rs:155-167 | Rotating a queue once in place keeps the live members in order and yields the dead ones |
| `KeyQueues.KeyQueue.AbsorbReorderable` | crates/glassdb-concurr/src/dedup.rs:213-228 | The in-place scan gives every reorderable member one chance and keeps the order of those refused |
| `KeyQueues.KeyQueue.AbsorbFifo` | crates/glassdb-concurr/src/dedup.rs:230-242 | The in-place FIFO scan takes exactly the mergeable front |
| `KeyQueues.KeyQueue.MergeCompatible` | crates/glassdb-concurr/src/dedup.rs:201-246 | The fold and both scans in place are the merge `MergeAbsorbs` describes, including its panic |
| `KeyQueues.KeyQueue.FormBatch` | crates/glassdb-concurr/src/dedup.rs:184-199 | Prune, seed and refresh in place are the specified formation with its two looks at liveness |
| `KeyQueues.KeyQueue.RequeueBatch` | crates/glassdb-concurr/src/dedup.rs:260-275 | The draining loop is the specified requeue |
| `KeyMachines.KeyMachine.StartRound` | crates/glassdb-concurr/src/dedup.rs:475-503 | The method performs the specified transition: new machine, action, reply and discards |
| `KeyMachines.KeyMachine.Refresh` | crates/glassdb-concurr/src/dedup.rs:505-525 | The same for a refresh |
| `KeyMachines.KeyMachine.RoundFinished` | crates/glassdb-concurr/src/dedup.rs:527-561 | The same for a finished round |
| `KeyMachines.KeyMachine.FinalizeCompletion` | crates/glassdb-concurr/src/dedup.rs:563-603 | The same for finalizing: handoff, another round, or removal |
| `KeyMachines.KeyMachine.DriverDropped` | crates/glassdb-concurr/src/dedup.rs:605-637 | The same for a dropped driver |
| `CacheGuarantees.ReadsAreFresh` | crates/glassdb-storage/src/cached_store.rs:215-227 | A read under `after(barrier)` returns a state the backend had at some moment not before the barrier, whether by hit, joined flight, "not modified" or full read, for any interleaving |
| `CacheGuarantees.ChecksAreFresh` | crates/glassdb-storage/src/cached_store.rs:245-271 | A check that says current leaves evidence meeting the requirement for a state that was current since; one that says changed returns another state that meets it |
| `CacheCalls.ReadsFollowTheirBarrier` | crates/glassdb-storage/src/cached_store.rs:215-227 | From call to answer: a read called after a barrier was taken returns a state current when it was taken or later |
| `CacheCalls.ChecksFollowTheirBarrier` | crates/glassdb-storage/src/cached_store.rs:245-271 | From call to answer: what a check confirms, or reports instead, was current when the barrier was taken or later |
| `CacheGuarantees.ObservationsAreGenuine` | crates/glassdb-storage/src/cached_store.rs:10-26 | Every observation handed out shows exactly a state the backend had at or after its watermark |
| `CacheAnswers.EverythingToldIsHandedOut` | crates/glassdb-storage/src/cached_store.rs:10-26 | Every observation a read, a check or a mutation ended with is among those handed out |
| `CacheGuarantees.PointsMarkTheirMoment` | crates/glassdb-storage/src/timeline.rs:146-175 | A point, of a barrier or an invocation, divides the path's history for good at the state current when it was allocated |
| `CacheGuarantees.WatermarksNeverRegress` | crates/glassdb-storage/src/cached_store/evidence.rs:140-158 | Over any stretch of a run a cell keeps its state and its watermark does not decrease |
| `CacheGuarantees.ExpectedAdvancesOnlyWhenApplied` | crates/glassdb-storage/src/cached_store/mutation.rs:73-109 | Reconciliation advances the expected observation to the invocation point exactly when the mutation applied, and then that state was current at or after that point; every other outcome leaves its evidence as it was (what the caller is told: `ServedMutationsAreToldSo`) |
| `CacheGuarantees.CapturedEntryAdvancesToo` | crates/glassdb-storage/src/cached_store/knowledge.rs:76-117 | An applied mutation advances the captured cell of a matching cache entry to the invocation point as well |
| `CacheRounds.MatchingEntryAdvancesToo` | crates/glassdb-storage/src/cached_store/knowledge.rs:76-156 | If the expected state is cached when the mutation takes the lane, that entry's evidence reaches the invocation point once the mutation has applied, whatever happened in between |
| `CacheAnswers.ServedMutationsAreToldSo` | crates/glassdb-storage/src/cached_store.rs:273-415 | A mutation whose reply arrives ends with a receipt exactly if the expected revision was current, as found missing exactly if it deletes what is gone, and refused otherwise |
| `CacheAnswers.MutationAnswersAreTrue` | crates/glassdb-storage/src/cached_store.rs:273-415 | A receipt shows the state left in place of the expected one; a found absence is a delete's and was there after the invocation; a refusal rests on another revision that was there after it, for a delete a present one |
| `CacheCalls.AnswersFollowTheCall` | crates/glassdb-storage/src/cached_store.rs:273-415 | From call to answer: the state a mutation replaced, found missing or was refused by was current since the mutation was called |
| `CacheAnswers.FailuresAreBlamed` | crates/glassdb-storage/src/cached_store/mutation.rs:73-144 | A mutation fails only if its own attempt failed or its own reply was lost |
| `CacheAnswers.LostMutationsFail` | crates/glassdb-storage/src/cached_store/mutation.rs:73-144 | A failed attempt or a lost reply is told as a failure |
| `CacheAnswers.BackendAppliesExactly` | crates/glassdb-backend/src/lib.rs:112-117 | The backend takes a mutation exactly if the expected revision is current, and then holds its result |
| `CacheAnswers.WritesAreCached` | crates/glassdb-storage/src/cached_store.rs:354-412 | What a mutation installed or found missing is the cached entry afterwards |
| `CacheAnswers.RefusalsDropExactly` | crates/glassdb-storage/src/cached_store/knowledge.rs:446-451 | A refusal by revision drops the entry exactly if it is the expected state |
| `CacheAnswers.DoubtDropsExactly` | crates/glassdb-storage/src/cached_store/mutation.rs:73-144 | A definite failure leaves the cache alone; a lost reply or a cancellation in the lane empties it |
| `CacheAnswers.ServedReadsAreToldSo` | crates/glassdb-storage/src/cached_store.rs:436-593 | A reader whose answer arrives gets exactly the state the backend had when it answered, or fails if that cannot be decoded |
| `CacheAnswers.FollowersAreToldTheSame` | crates/glassdb-storage/src/cached_store/path_lane.rs:166-182 | Whoever joined a read is told what its leader was told |
| `CacheAnswers.LostLeadersAreReplaced` | crates/glassdb-storage/src/cached_store.rs:436-503 | A reader whose leader was dropped asks again; one whose leader failed has failed |
| `CacheAnswers.KnownBodiesAreNotSent` | crates/glassdb-storage/src/cached_store.rs:505-593 | A body is not sent again exactly if the reader knew a present state and that revision is current when the backend answers |
| `CacheAnswers.ReadsAreCached` | crates/glassdb-storage/src/cached_store.rs:505-593 | What a read fetched is the cached entry afterwards; what could not be decoded leaves none |
| `CacheAnswers.HitsExactly` | crates/glassdb-storage/src/cached_store.rs:215-227 | A read is answered at once, with the entry, exactly if the entry's evidence reaches its bound |
| `CacheAnswers.ChecksHitExactly` | crates/glassdb-storage/src/cached_store.rs:245-271 | A check is answered at once exactly if the observation's or the entry's evidence reaches the bound; the entry then decides by revision |
| `CacheAnswers.JoinsExactly` | crates/glassdb-storage/src/cached_store.rs:436-503 | A reader joins the read in progress exactly if that one was invoked late enough |
| `CacheAnswers.AsksExactly` | crates/glassdb-storage/src/cached_store.rs:436-503 | In the lane, a reader asks the backend exactly if nothing known by then answers it |
| `CacheSuperseded.SupersededEntriesAreNotServed` | crates/glassdb-storage/src/cached_store/mutation.rs:73-144 | After a mutation that applied, found nothing, is in doubt or was cancelled, every entry found later rests on a moment at or after it; after a rejected one, every entry for the expected state does |
| `CacheSuperseded.HitsFollowTheMutation` | crates/glassdb-storage/src/cached_store.rs:273-415 | A later hit under any requirement shows a state that was current after the mutation applied, found nothing, was lost or was cancelled in its lane; after a rejection, a hit for the revision it expected does |
| `CacheGuarantees.ReceiptsConfirmTheirPrecondition` | crates/glassdb-storage/src/cached_store/evidence.rs:109-119 | A receipt that reaches a barrier confirms that any observation of its expected revision was current at or after it |
| `CacheGuarantees.OneInLane` | crates/glassdb-storage/src/cached_store/path_lane.rs:82-116 | At most one task is between taking a path's permit and releasing it |
| `CacheGuarantees.NoFlightIsReplaced` | crates/glassdb-storage/src/cached_store/path_lane.rs:166-182 | A leader publishing its flight never finds another one, so the assertion cannot fail |
| `CacheSteps.EventKeeps` | crates/glassdb-storage/src/cached_store.rs:436-593 | Every event keeps all evidence true, all pending work accounted for and everything established |
| `CacheSteps.AlwaysLinked` | crates/glassdb-storage/src/cached_store.rs:451-503 | An event the protocol offers can always happen: its cells and flights exist |
| `CacheKnowledge.PresentInstalls` | crates/glassdb-storage/src/cached_store/knowledge.rs:457-506 | Installing a present entry, merging with an entry of the same revision, leaves a sound entry with at least the incoming evidence |
| `CacheKnowledge.UnchangedInstalls` | crates/glassdb-storage/src/cached_store/knowledge.rs:388-407 | Confirming a kept body leaves a sound entry with evidence from the invocation point |
| `CacheKnowledge.AbsentInstalls` | crates/glassdb-storage/src/cached_store/knowledge.rs:508-535 | Installing an absence does the same, merging with a known absence |
| `CacheKnowledge.SameRevisionSameState` | crates/glassdb-backend/src/lib.rs:112-117 | If no token ever stood for two contents, observations share a revision exactly when they stand for the same state |
| `KnowledgeStores.KnowledgeStore.InstallPresent` | crates/glassdb-storage/src/cached_store/knowledge.rs:457-506 | The in-place update is the specified installation and leaves other paths alone |
| `KnowledgeStores.KnowledgeStore.InstallAbsent` | crates/glassdb-storage/src/cached_store/knowledge.rs:508-535 | The same for an absence |
| `KnowledgeStores.KnowledgeStore.ConfirmUnchanged` | crates/glassdb-storage/src/cached_store/knowledge.rs:388-407 | The same for a confirmed body |
| `KnowledgeStores.KnowledgeStore.AdvanceExpected` | crates/glassdb-storage/src/cached_store/knowledge.rs:76-117 | Advances the caller's cell and the captured entry's cell, and nothing else |
| `KnowledgeStores.KnowledgeStore.InvalidateExpected` | crates/glassdb-storage/src/cached_store/knowledge.rs:446-451 | Removes the path's entry only if it is the expected state |
| `CheckManyRuns.ManyChecksAreFresh` | crates/glassdb-storage/src/cached_store.rs:689-747 | With all groups and everything else on their paths interleaved in any way, a verdict stands at its own observation's place; a confirmed observation, and the state reported instead of a changed one, were current at some moment not before the barrier, whether asked for or taken over from an equal state |
| `CheckManyRuns.VerdictsFollowTheBarrier` | crates/glassdb-storage/src/cached_store.rs:689-747 | For a barrier taken at one moment of the common timeline, every confirmed observation and every state reported instead, on whatever path, is one the path had at that moment or later |
| `CheckManyRuns.BarrierIsOneMoment` | crates/glassdb-storage/src/timeline.rs:146-149 | A barrier divides the histories of all paths at the same moment, for good |
| `CachePaths.MoveKeeps` | crates/glassdb-storage/src/timeline.rs:156-175 | Every event of any path, with its point known to all of them, keeps every path's invariant and the one counter they share |
| `CachePaths.PathsAgreeOnTime` | crates/glassdb-storage/src/timeline.rs:156-175 | Sharing the counter forbids nothing: what a path may do by itself it may do among the others |
| `CheckManyRuns.FinishedCallsAreComplete` | crates/glassdb-storage/src/cached_store.rs:736-746 | When the groups are done, their verdicts name each index of each group, in order |
| `CheckManyRuns.OneCheckPerState` | crates/glassdb-storage/src/cached_store.rs:711-733 | A group never asks twice for one exact state |
| `CheckManyRuns.GroupsNeverStall` | crates/glassdb-storage/src/cached_store.rs:711-733 | A group between checks can always go on, by reusing a verdict with its evidence or by asking |
| `CheckManyRuns.AlwaysSystemInv` | crates/glassdb-storage/src/cached_store.rs:689-747 | In every state of every interleaving all paths keep their invariants, all verdicts so far hold and every check under way has the call's requirement and the observation |
| `CheckMany.Collect` | crates/glassdb-storage/src/cached_store.rs:736-746 | The loop leaves no slot empty and puts every verdict at its own observation |
| `CheckMany.IndexOnce` | crates/glassdb-storage/src/cached_store.rs:698-705 | Every index has exactly one place in the groups |
| `CheckMany.GroupByPath` | crates/glassdb-storage/src/cached_store.rs:698-705 | Every index is in a group, a group is ascending and has one path, different groups have different paths, groups are ordered by first index |
| `Timeline.PointsIncreaseUntilExhausted` | crates/glassdb-storage/src/timeline.rs:157-175 | Of two allocations the later point is larger if and only if the earlier one is below the 64-bit maximum |
| `Timeline.ExhaustedPointsRepeat` | crates/glassdb-storage/src/timeline.rs:157-175 | Once the largest point is given out, the next allocation gets the same one |
| `Timeline.PointsFollowTheClock` | crates/glassdb-storage/src/timeline.rs:157-175 | Short of exhaustion each point is the clock's reading if that is past the last point, else the next one |
| `Timeline.SequenceCounter.Now` | crates/glassdb-storage/src/timeline.rs:157-175 | The compare-and-exchange loop allocates the next point after whatever rivals allocated meanwhile, and none below the base the timeline was opened with |
| `Timeline.ReopenedPointsFollow` | crates/glassdb-storage/src/timeline.rs:193-208 | Whatever the clock reads, every point a reopened timeline allocates is past the last one recovered |
| `Base64.EncodeKeepsOrder` | crates/glassdb-data/src/base64.rs:68-95 | For all byte strings of any lengths, a < b exactly when encode(a) < encode(b), proper prefixes included |
| `Base64.DecodeEncode` | crates/glassdb-data/src/base64.rs:68-130 | Decoding an encoding gives back the bytes |
| `Base64.DecodesExactly` | crates/glassdb-data/src/base64.rs:98-130 | Decoding succeeds exactly on alphabet symbols in a length other than 1 modulo 4; the error names the first foreign byte, or the length |
| `Base64.CanonicalExactly` | crates/glassdb-data/src/paths.rs:93-97 | A decodable string re-encodes to itself exactly when its spare bits are zero (section 3.5 of RFC 4648), and how many bytes it stands for |
| `Base64.ParseIdAcceptsExactlyEncodings` | crates/glassdb-data/src/paths.rs:82-99 | A component parses to an id if and only if the id has 16 bytes and the component is its encoding |
| `Base64.U12RoundTrips` | crates/glassdb-data/src/base64.rs:53-65 | Two symbols decode to a 12-bit value exactly when they are its encoding |
| `Base64.SymbolsAscend` | crates/glassdb-data/src/base64.rs:9-21 | The alphabet ascends and every digit reads back from its symbol |
| `Base64.SymbolsSpelled` | crates/glassdb-data/src/base64.rs:9 | The ends of the alphabet's ranges, with `=` and `_` between them |
| `Base64.KnownEncodings` | crates/glassdb-data/src/base64.rs:68-95 | The encodings of four short strings |
| `Base64.GroupIsTheNumber` | crates/glassdb-data/src/base64.rs:68-95 | Four digits are the same 24-bit number as their three bytes |
| `Lexicographic.LessExactly` | crates/glassdb-data/src/base64.rs:1-8 | The order meant: the first difference decides, and a proper prefix comes first |
| `Base64.BuildReverse` | crates/glassdb-data/src/base64.rs:11-21 | The reverse table maps each byte to its digit, or to -1 outside the alphabet |
| `Base64.EncodeLoop` | crates/glassdb-data/src/base64.rs:68-95 | The loop over 24-bit groups computes the specified encoding |
| `Base64.DecodeLoop` | crates/glassdb-data/src/base64.rs:98-130 | The loop, with its early errors, computes the specified decoding |
| `Wire.FieldsRoundTrip` | crates/glassdb-proto/src/generated.rs:211-259 | Encoded fields parse back to exactly themselves |
| `Wire.TightFieldsExactly` | crates/glassdb-proto/src/generated.rs:211-259 | A message is the encoding of its own fields if and only if its keys, numbers and lengths are in their shortest form |
| `LeafFormat.VarintGroups` | crates/glassdb-proto/src/generated.rs:211-259 | A varint is the number's groups of seven bits, lowest first, all but the last one marked |
| `LeafFormat.ShortFields` | crates/glassdb-proto/src/generated.rs:211-259 | A short field's bytes: tag and wire type, then number, or length and contents |
| `Wire.FieldSized` | crates/glassdb-storage/src/wire_size.rs:6-31 | The size arithmetic is exact for every varint and length-delimited field |
| `LeafRoundTrip.LeafRoundTrips` | crates/glassdb-storage/src/leaf.rs:333-372 | Every valid leaf decodes from its encoding to itself |
| `LeafRoundTrip.EntryRoundTrips` | crates/glassdb-storage/src/leaf.rs:375-434 | The same for one entry with its lock and current value; what the bytes say is `DecodesByTheFormat` |
| `LeafFormat.DecodesByTheFormat` | crates/glassdb-proto/src/generated.rs:167-259 | An entry's bytes are accepted exactly if their fields make an entry, and mean what the format says: field 2 is 2, 3 or 4 exactly for read, write and create locks, field 3 lists the holders, field 4 is external, inline or deleted by its last tag 2, 3 or 4 |
| `LeafFormat.EncodesByTheFormat` | crates/glassdb-storage/src/leaf.rs:375-409 | The fields of an entry's bytes are its key, its lock type as 1 to 4, its holders and its current value under tag 2, 3 or 4 |
| `LeafFormat.LeavesDecodeByTheFormat` | crates/glassdb-storage/src/leaf.rs:344-372 | A leaf's bytes are accepted exactly if every field 1 is an entry and the keys are distinct, and hold these entries |
| `LeafFormat.LeavesEncodeByTheFormat` | crates/glassdb-storage/src/leaf.rs:333-342 | A leaf is written as its entries in order, each as a field 1 |
| `LeafFormat.WriteLockInBytes` | crates/glassdb-storage/src/leaf.rs:375-383 | A write-locked entry, byte by byte |
| `LeafRoundTrip.DecodedLeavesAreValid` | crates/glassdb-storage/src/leaf.rs:344-372 | Whatever decodes has ascending distinct keys, canonical holder sets and valid lock shapes |
| `LeafCanonical.RewritesToItselfExactly` | crates/glassdb-storage/src/leaf.rs:333-372 | Decoding and encoding a body gives the same bytes if and only if they are tight, hold entries only, in ascending key order, each with its fields, holders and current value in order |
| `LeafCanonical.RewritingIsStable` | crates/glassdb-storage/src/leaf.rs:333-372 | Decoding what a decoded body encodes to gives the same leaf again |
| `LeafCanonical.UnknownFieldsAreDropped` | crates/glassdb-storage/src/leaf.rs:344-372 | A body with only an unknown field decodes to the empty leaf, which encodes to no bytes |
| `LeafRoundTrip.InsertionOrderDoesNotShow` | crates/glassdb-storage/src/leaf.rs:350-372 | Any two arrangements of the same entries are refused alike, exactly for a repeated key, or make the same leaf and the same bytes |
| `LeafRoundTrip.CollectsExactly` | crates/glassdb-storage/src/leaf.rs:361-372 | Entries are collected into a leaf if and only if their keys are distinct |
| `LeafRoundTrip.HolderOrderDoesNotShow` | crates/glassdb-storage/src/lock.rs:30-45 | Holders listed in any order make the same lock, or are refused alike |
| `LeafCodec.HoldersAreCanonical` | crates/glassdb-storage/src/lock.rs:39-45 | A holder list is accepted as a set exactly when that set is the strictly ascending arrangement of its members |
| `LeafCodec.FromEntries` | crates/glassdb-storage/src/leaf.rs:361-372 | The insertion loop collects the entries by key and refuses a repeated key |
| `LeafRoundTrip.EncodedLenIsExact` | crates/glassdb-storage/src/leaf.rs:172-184 | The computed size of an entry is its exact wire length |
| `LeafRoundTrip.WorstCaseBounds` | crates/glassdb-storage/src/leaf.rs:193-209 | An entry with at most one holder and no inline value never exceeds the worst case for its key |
| `LeafRoundTrip.WorstCaseIsReached` | crates/glassdb-storage/src/leaf.rs:193-209 | The bound is met by a write-locked entry whose value is kept elsewhere |
| `LeafSplit.SplitsPartitionTheLeaf` | crates/glassdb-storage/src/leaf.rs:277-310 | After any splits, the chain covers every key exactly once, holds exactly the original entries, has no empty leaf, and a lookup routed by bounds equals the original lookup |
| `LeafSplit.DividesExactly` | crates/glassdb-storage/src/leaf.rs:312-318 | A cut divides a leaf exactly when some key is below it and some is not |
| `LeafSplit.MedianDivides` | crates/glassdb-storage/src/leaf.rs:320-330 | The median key always divides a leaf of two or more entries, in the middle |
| `LeafSplit.RoutedExactly` | crates/glassdb-proto/src/generated.rs:260-274 | Every key is covered by exactly one node of a chain, the one found by moving right |
| `LeafSplit.LeafBody.SplitOffMedian` | crates/glassdb-storage/src/leaf.rs:277-299 | In place: the lower half stays, the upper half starts with the split key |
| `LeafSplit.LeafBody.SplitOffAt` | crates/glassdb-storage/src/leaf.rs:301-310 | In place: splits exactly when both halves are nonempty, otherwise keeps the leaf |
| `LruShards.CacheShard.Update` | crates/glassdb-storage/src/cache.rs:126-155 | The shard afterwards is exactly the longest recent suffix that fits of the other entries in their order and then the new one, with exact accounting within budget; too large a value removes the key |
| `LruShards.CacheShard.RemoveOldest` | crates/glassdb-storage/src/cache.rs:72-87 | The eviction loop, with or without an overflowed total, ends with exact accounting and the longest suffix that fits |
| `LruShards.CacheShard.RecomputeWeight` | crates/glassdb-storage/src/cache.rs:57-70 | Recomputing reports overflow exactly when the true sum exceeds the word, and is otherwise exact |
| `LruShards.CacheShard.DeleteEntry` | crates/glassdb-storage/src/cache.rs:49-55 | Deletion takes out that entry, leaves the others in their order, keeps accounting exact and never underflows |
| `LruShards.CacheShard.Get` | crates/glassdb-storage/src/cache.rs:108-113 | A hit returns the value and moves its entry to the back, all others in their order before it; a miss changes nothing |
| `LruShards.FitIsLongestSuffix` | crates/glassdb-storage/src/cache.rs:72-87 | The survivors are the longest suffix of the recency order whose sum is within the budget |
| `LruShards.WithoutExactly` | crates/glassdb-storage/src/cache.rs:49-55 | Taking a key out is cutting its index out of the recency order, for all items |
| `LruShards.InsertedSurvives` | crates/glassdb-storage/src/cache.rs:138-151 | An inserted entry within the budget survives its own evictions as the newest |
| `MemoryBackends.PagedListingIsComplete` | crates/glassdb-backend/src/memory.rs:154-182 | However the store changes between calls that each pass on the page's cursor, a completed listing is strictly ascending, lists only paths with the prefix, and has every path present throughout exactly once |
| `MemoryBackends.QuietListingIsTheScan` | crates/glassdb-backend/src/memory.rs:154-182 | Without changes, following the cursors at any limits yields exactly the sorted keys with the prefix |
| `MemoryBackends.MatchesExactly` | crates/glassdb-backend/src/memory.rs:164-172 | The range scan that stops at the first mismatch finds every stored path with the prefix after the cursor |
| `MemoryBackends.CursorContinues` | crates/glassdb-backend/src/memory.rs:185-200 | Passing a page's cursor back continues after the last path of that page |
| `MemoryBackends.ListRefusesExactly` | crates/glassdb-backend/src/memory.rs:160-200 | A call is refused exactly for a prefix that ends inside a name, or for a cursor of another prefix or form |
| `MemoryBackends.PagesFillTheLimit` | crates/glassdb-backend/src/memory.rs:171-181 | A page is the front of what matches: all of it, or exactly the limit with a cursor at its last path |
| `MemoryBackends.WalkContinues` | crates/glassdb-backend/src/memory.rs:154-200 | Every cursor a listing hands out is accepted by the next call, and the chain of calls goes on from path to path |
| `MemoryBackends.MemoryBackend.ListPage` | crates/glassdb-backend/src/memory.rs:154-182 | One page: prefix and cursor errors, the paths, and a cursor exactly when more follow |
| `MemoryBackends.MemoryBackend.WriteIf` | crates/glassdb-backend/src/memory.rs:112-127 | Replaces only an object with the expected revision; otherwise not found or precondition, with nothing changed |
| `MemoryBackends.MemoryBackend.WriteIfNotExists` | crates/glassdb-backend/src/memory.rs:129-142 | Creates only a missing object |
| `MemoryBackends.MemoryBackend.DeleteIf` | crates/glassdb-backend/src/memory.rs:144-152 | Deletes only the expected revision; a missing object is not found |
| `MemoryBackends.MemoryBackend.ReadIfModified` | crates/glassdb-backend/src/memory.rs:96-110 | Returns the object unless it still has the given revision |
| `ConditionalPut.PreconditionMeansUnapplied` | crates/glassdb-backend-s3/src/lib.rs:236-273 | A reported precondition failure means no attempt took effect |
| `ConditionalPut.LostAttemptsAreNeverForgotten` | crates/glassdb-backend-s3/src/lib.rs:236-273 | After a lost attempt only a revision or an in-doubt report can follow |
| `ConditionalPut.WritesEnd` | crates/glassdb-backend-s3/src/lib.rs:658-662 | Every write ends within 11 attempts and 5575 ms of waiting |
| `ConditionalPut.HiddenExactlyAtTheEnd` | crates/glassdb-backend-s3/src/lib.rs:261-271 | A definitive error can hide an applied write if and only if ten retries were all answered and the eleventh answer was lost |
| `ConditionalPut.ReportsExactly` | crates/glassdb-backend-s3/src/lib.rs:236-273 | Attempts go on exactly while answers are tried again; the last answer decides the report: the store's revision exactly if it was applied, in doubt if an earlier attempt may have landed, else precondition, not found or other by its kind |
| `ConditionalPut.WaitsExactly` | crates/glassdb-backend-s3/src/lib.rs:658-662 | A write waits exactly 25, 50, 100, 200, 400, 800 and then 1000 ms, once after each attempt but the last |
| `ConditionalPut.ThrottledThenLostCanHide` | crates/glassdb-backend-s3/src/lib.rs:261-271 | Ten throttled attempts and a lost eleventh are such a write |
| `ConditionalPut.Put` | crates/glassdb-backend-s3/src/lib.rs:171-214 | The loop computes the run `ReportsExactly` and `WaitsExactly` describe; an empty If-Match token is refused without a request |
| `ConditionalPut.ConditionalPutState.Transition` | crates/glassdb-backend-s3/src/lib.rs:236-273 | The in-place step makes the specified decision and state |
| `Background.ShutdownReturnsWhenAllIsDone` | crates/glassdb-concurr/src/background.rs:187-217 | Once any of several concurrent or abandoned shutdown calls returned, forever: every task ever admitted has finished and both lanes are empty |
| `Background.NothingAdmittedAfterShutdown` | crates/glassdb-concurr/src/background.rs:219-239 | No task is admitted after shutdown started |
| `Background.AdmitsUntilShutdown` | crates/glassdb-concurr/src/background.rs:219-239 | Until shutdown starts every task is admitted under a new id to the lane asked for; then none is |
| `Background.WaitedTasksAreNeverCancelled` | crates/glassdb-concurr/src/background.rs:203-205 | Shutdown never cancels a waited task |
| `Background.BestEffortTasksAreCancelled` | crates/glassdb-concurr/src/background.rs:203-205 | Before a shutdown call waits, every best-effort task that has not finished is cancelled, and stays so |
| `Background.ShutdownRepeatsAtOnce` | crates/glassdb-concurr/src/background.rs:190-201 | A call that begins returns at once exactly if a shutdown has completed before |
| `Background.NoWakeupIsMissed` | crates/glassdb-concurr/src/background.rs:68-82 | A waiter parked on a finished task can wake, or the notification is just being sent |
| `Background.ShutdownCanAlwaysMove` | crates/glassdb-concurr/src/background.rs:187-217 | Once every admitted task has finished, each shutdown call that has not returned has an enabled move of its own |
| `Background.ShutdownCallsReturn` | crates/glassdb-concurr/src/background.rs:187-217 | From there, every own move brings a call closer to its return, nobody else's sets it back, and at distance zero it has returned |
| `Background.RegistryChecksHold` | crates/glassdb-concurr/src/background.rs:129-144 | A registered id is unused and a guard finds its task listed |
| `Background.InvKept` | crates/glassdb-concurr/src/background.rs:92-113 | Every event keeps removal, completion and notification in step with the lock and with every waiting call |
| `Background.Inner.Spawn` | crates/glassdb-concurr/src/background.rs:219-239 | In place: admits under a new id, or discards once shutting down |

## Left out

- The deduplicator's statistics, snapshots and `changed()` wakeups; a caller that stops waiting appears as the event that makes its member dead.
- A key whose merge panicked stops there: what unwinding a poisoned driver does next is not modelled, and by `PanicReachableExactly` it concerns only merges not closed under deletion.
- Recycling of batch allocations between rounds, which changes no contents.
- Owner tasks that the runtime drops before they first run.
- The persistent (disk) tier of the cached store: its format, admission and worker; the model has the decoded tier only.
- Downcasting between typed stores of one path, and the tracked registry of path lanes.
- The exhaustion of sequence points inside the cached-store runs: points there increase strictly; `PointsIncreaseUntilExhausted` says when that holds.
- Bounded-staleness cutoffs are covered only as requirement bounds in the past.
- The limit on how many groups of `check_many_current` run at once: in the model any number may. A call dropped midway reports nothing.
- Protobuf groups (wire types 3 and 4) in unknown fields: the model refuses them.
- Lock acquisition and release on leaf entries, tombstone compaction and index nodes.
- Value sizes above 64 bits: round trips are stated for leaves whose entries have addressable sizes.
- The classification of SDK failures into facts, the S3 read, delete and list paths, and the GCS backend.
- Dropping a `Background`, which cancels every task, and exhaustion of its 64-bit task ids.
- Transactions, tree routing beyond one chain of leaves, transaction records, retry cadence with jitter, benchmarks and fuzz targets.
